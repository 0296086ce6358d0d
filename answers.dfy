/**
 * What the four guess handlers share: the year tolerance, the comparison
 * of a typed answer with the catalog entry, and the update of the answer
 * counters and the missed list after a guess.  The handlers differ only
 * in which tolerance applies and in what else they update; see QuizMain,
 * QuizPersonalized, QuizLegacy and BinQuiz.
 */
module Answers {
  import opened Prelude
  import opened Text
  import opened Seqs
  import opened Tracks
  import opened Models

  /** The question types a round picks from, in the order they are listed. */
  const QuestionTypes: seq<string> := ["artist", "title", "year"]

  // ---------------------------------------------------------------------
  // Year tolerance
  // ---------------------------------------------------------------------

  /** The tolerance `within_year_margin` allows for a difficulty setting:
      3 years when easy, 1 when normal, none for anything else. */
  function YearMargin(difficulty: string): nat
  {
    if difficulty == "easy" then 3 else if difficulty == "normal" then 1 else 0
  }

  predicate WithinYearMargin(difficulty: string, guess: int, actual: int)
  {
    Abs(guess - actual) <= YearMargin(difficulty)
  }

  /** The three tiers, spelled out, and each accepting what the stricter one does. */
  lemma YearMarginTiers(guess: int, actual: int, other: string)
    requires other != "easy" && other != "normal"
    ensures WithinYearMargin("easy", guess, actual) <==> -3 <= guess - actual <= 3
    ensures WithinYearMargin("normal", guess, actual) <==> -1 <= guess - actual <= 1
    ensures WithinYearMargin(other, guess, actual) <==> guess == actual
    ensures WithinYearMargin(other, guess, actual) ==> WithinYearMargin("normal", guess, actual)
    ensures WithinYearMargin("normal", guess, actual) ==> WithinYearMargin("easy", guess, actual)
  {
  }

  /** `within_year_margin_adaptive`: an exact year above a rating of 1400,
      two years either way otherwise. */
  predicate WithinYearMarginAdaptive(elo: int, guess: int, actual: int)
  {
    if elo > 1400 then guess == actual else Abs(guess - actual) <= 2
  }

  /** A higher rating never accepts a guess a lower rating rejects. */
  lemma AdaptiveMarginMonotone(lowElo: int, highElo: int, guess: int, actual: int)
    requires lowElo <= highElo
    ensures WithinYearMarginAdaptive(highElo, guess, actual) ==> WithinYearMarginAdaptive(lowElo, guess, actual)
  {
  }

  /** Which tolerance a handler applies to year guesses. */
  datatype YearRule =
    | ByDifficulty(difficulty: string)   // the session's difficulty setting
    | ByRating(elo: int)                 // the personalized guess rating

  predicate YearAccepted(rule: YearRule, guess: int, actual: int)
  {
    match rule
    case ByDifficulty(d) => WithinYearMargin(d, guess, actual)
    case ByRating(elo) => WithinYearMarginAdaptive(elo, guess, actual)
  }

  // ---------------------------------------------------------------------
  // Answer matching
  // ---------------------------------------------------------------------

  /** The guess as the handlers normalise it: `guess.strip().lower()`. */
  function Normalised(guess: string): string
  {
    Lower(Strip(guess))
  }

  /** The comparison of the handlers: artist and title compare the
      normalised guess with the lower-cased field (which is not stripped);
      a year guess has to be all digits and within the tolerance; any other
      challenge is never answered correctly. */
  predicate CheckGuess(challenge: string, guess: string, track: Track, rule: YearRule)
  {
    var g := Normalised(guess);
    if challenge == "artist" then g == Lower(track.artist)
    else if challenge == "title" then g == Lower(track.title)
    else if challenge == "year" then IsDigits(g) && YearAccepted(rule, DigitsValue(g), track.year)
    else false
  }

  /** Lower-casing the guess first changes nothing. */
  lemma CheckGuessIgnoresCase(challenge: string, guess: string, track: Track, rule: YearRule)
    ensures CheckGuess(challenge, Lower(guess), track, rule) == CheckGuess(challenge, guess, track, rule)
  {
    LowerStripCommute(guess);
    LowerIdempotent(Strip(guess));
    assert Normalised(Lower(guess)) == Normalised(guess);
  }

  /** Typing the stored name, in any letter case, is accepted when the stored
      name has no surrounding whitespace. */
  lemma CheckGuessAcceptsName(track: Track, rule: YearRule)
    requires track.artist == [] || (!IsSpace(track.artist[0]) && !IsSpace(track.artist[|track.artist| - 1]))
    ensures CheckGuess("artist", track.artist, track, rule)
    ensures CheckGuess("artist", Lower(track.artist), track, rule)
  {
    CheckGuessIgnoresCase("artist", track.artist, track, rule);
  }

  lemma LowerKeepsSpace(s: string, i: nat)
    requires i < |s|
    ensures IsSpace(Lower(s)[i]) <==> IsSpace(s[i])
  {
  }

  /** A stored name that begins with whitespace can never be matched, since
      the guess is stripped and the name is not. */
  lemma PaddedNameUnmatchable(track: Track, guess: string, rule: YearRule)
    requires track.artist != [] && IsSpace(track.artist[0])
    ensures !CheckGuess("artist", guess, track, rule)
  {
    var g := Strip(guess);
    if g != [] {
      LowerKeepsSpace(g, 0);
    }
    LowerKeepsSpace(track.artist, 0);
  }

  /** The release year written out in digits is accepted under every rule. */
  lemma CheckGuessAcceptsYear(track: Track, rule: YearRule)
    requires track.year >= 0
    ensures CheckGuess("year", Decimal(track.year), track, rule)
  {
    var s := Decimal(track.year);
    assert Strip(s) == s;
    assert Lower(s) == s;
    DecimalRoundTrip(track.year);
  }

  /** Nothing counts as an answer to a challenge type the handlers do not know. */
  lemma CheckGuessUnknownChallenge(challenge: string, guess: string, track: Track, rule: YearRule)
    ensures challenge !in QuestionTypes ==> !CheckGuess(challenge, guess, track, rule)
  {
  }

  /** What a guess handler did: it found no active track in the session,
      the catalog no longer has the track, it judged the guess, or it raised
      an exception before committing anything. */
  datatype GuessStatus =
    | NoActiveTrack
    | TrackNotFound
    | Judged(track: Track, correct: bool)
    | Crashed

  // ---------------------------------------------------------------------
  // Counters and the missed list
  // ---------------------------------------------------------------------

  lemma RemovalFacts(s: seq<string>, x: string)
    ensures NoDup(s) ==> NoDup(RemoveFirst(s, x)) && x !in RemoveFirst(s, x)
    ensures forall y :: y != x ==> (y in RemoveFirst(s, x) <==> y in s)
  {
    RemoveFirstMultiset(s, x);
    forall y | y != x ensures y in RemoveFirst(s, x) <==> y in s {
      assert y in RemoveFirst(s, x) <==> y in multiset(RemoveFirst(s, x));
      assert y in s <==> y in multiset(s);
    }
    if NoDup(s) {
      RemoveFirstNoDup(s, x);
    }
  }

  /** The missed list after a guess: a correct answer takes the id out
      (`remove` when present), a wrong one appends it when absent. */
  function MissedAfter(missed: seq<string>, id: string, correct: bool): (r: seq<string>)
    ensures correct && NoDup(missed) ==> id !in r
    ensures !correct ==> id in r
    ensures forall x :: x != id ==> (x in r <==> x in missed)
    ensures NoDup(missed) ==> NoDup(r)
  {
    if correct then
      if id in missed then
        RemovalFacts(missed, id);
        RemoveFirst(missed, id)
      else missed
    else AddIfAbsent(missed, id)
  }

  /** The counter and list update every guess handler performs: one more
      attempt, one more correct answer exactly when the guess was right, and
      the missed list as `MissedAfter` says. */
  method RecordAnswer(user: User, id: string, correct: bool)
    modifies user`totalAttempts, user`totalCorrect, user`missedSongs
    ensures user.totalAttempts == old(user.totalAttempts) + 1
    ensures user.totalCorrect == old(user.totalCorrect) + (if correct then 1 else 0)
    ensures user.missedSongs == MissedAfter(old(user.missedSongs), id, correct)
    ensures old(user.Valid()) ==> user.Valid()
  {
    user.totalAttempts := user.totalAttempts + 1;
    var missed := user.missedSongs;
    if correct {
      user.totalCorrect := user.totalCorrect + 1;
      if id in missed {
        missed := RemoveFirst(missed, id);
      }
    } else {
      if id !in missed {
        missed := missed + [id];
      }
    }
    user.missedSongs := missed;
  }

  // ---------------------------------------------------------------------
  // The next question of the legacy personalized round
  // ---------------------------------------------------------------------

  /** Accuracy above 0.8 plays hard, below 0.3 easy, the rest normal. */
  function DifficultyForAccuracy(acc: real): (d: string)
    ensures d == "hard" || d == "easy" || d == "normal"
  {
    if acc > 0.8 then "hard" else if acc < 0.3 then "easy" else "normal"
  }

  /** Each difficulty exactly on its band: hard strictly above 0.8, easy
      strictly below 0.3, normal on [0.3, 0.8] with both ends included. */
  lemma DifficultyBands(acc: real)
    ensures DifficultyForAccuracy(acc) == "hard" <==> acc > 0.8
    ensures DifficultyForAccuracy(acc) == "easy" <==> acc < 0.3
    ensures DifficultyForAccuracy(acc) == "normal" <==> 0.3 <= acc <= 0.8
  {
  }

  /** Higher accuracy never widens the year tolerance. */
  lemma DifficultyMonotone(a: real, b: real)
    requires a <= b
    ensures YearMargin(DifficultyForAccuracy(b)) <= YearMargin(DifficultyForAccuracy(a))
  {
  }

  /** The bands of the difficulty and of the level differ at 0.8 exactly:
      an advanced player with 80% accuracy still plays normal. */
  lemma DifficultyAndLevelAtBoundary()
    ensures LevelOf(0.8) == "advanced" && DifficultyForAccuracy(0.8) == "normal"
  {
  }

  /** A random missed id when there are any, its track when the catalog still
      has it, and otherwise a random catalog track. */
  function PickMissedOrRandom(catalog: seq<Track>, missed: seq<string>, missedDraw: nat, catalogDraw: nat): (t: Track)
    requires catalog != []
    ensures t in catalog
    ensures missed == [] ==> t == Choice(catalog, catalogDraw)
    ensures missed != [] && FindTrack(catalog, Choice(missed, missedDraw)).Some? ==> t.id == Choice(missed, missedDraw)
    ensures missed != [] && FindTrack(catalog, Choice(missed, missedDraw)).None? ==> t == Choice(catalog, catalogDraw)
  {
    if missed != [] then
      match FindTrack(catalog, Choice(missed, missedDraw))
      case Some(found) => found
      case None => Choice(catalog, catalogDraw)
    else Choice(catalog, catalogDraw)
  }

  /** The next question of the legacy personalized round: the difficulty
      its accuracy calls for, the track `PickMissedOrRandom` picks and a
      random question type. */
  datatype Question = Question(track: Track, challenge: string, difficulty: string)

  function NextQuestion(acc: real, catalog: seq<Track>, missed: seq<string>,
                        missedDraw: nat, catalogDraw: nat, typeDraw: nat): (q: Question)
    requires catalog != []
    ensures q.track in catalog
    ensures q.challenge in QuestionTypes
    ensures q.difficulty == DifficultyForAccuracy(acc)
    ensures q.track == PickMissedOrRandom(catalog, missed, missedDraw, catalogDraw)
  {
    Question(PickMissedOrRandom(catalog, missed, missedDraw, catalogDraw), Choice(QuestionTypes, typeDraw),
             DifficultyForAccuracy(acc))
  }
}
