/**
 * The personalized round of `src/routes/quiz_personalized.py`: the
 * per-question-type miss counters kept in the session, the weighted choice
 * of the next question type, the snippet length, the missed-first choice
 * of the next track and the guess handler with its rating-based year
 * tolerance.
 */
module QuizPersonalized {
  import opened Prelude
  import opened Seqs
  import opened Tracks
  import opened Models
  import opened Answers
  import QuizMain

  // ---------------------------------------------------------------------
  // Misses per question type
  // ---------------------------------------------------------------------

  /** `session['type_misses']`, always created with exactly these three keys. */
  datatype TypeMisses = TypeMisses(artist: nat, title: nat, year: nat)

  const NoMisses := TypeMisses(0, 0, 0)

  /** `type_stats.get(qtype, 0)`. */
  function MissesFor(stats: TypeMisses, qtype: string): nat
  {
    if qtype == "artist" then stats.artist
    else if qtype == "title" then stats.title
    else if qtype == "year" then stats.year
    else 0
  }

  function TotalMisses(stats: TypeMisses): nat
  {
    stats.artist + stats.title + stats.year
  }

  /** `get_user_type_stats`: the counters, created at zero when absent. */
  function TypeStats(session: Option<TypeMisses>): (stats: TypeMisses)
    ensures session.None? ==> stats == NoMisses
    ensures session.Some? ==> stats == session.value
  {
    GetOr(session, NoMisses)
  }

  /** `record_miss_for_type`: the counters are created at zero when absent and
      the given type's counter goes up by one.  `None` is the `KeyError` of
      a question type other than the three. */
  function RecordMissForType(session: Option<TypeMisses>, qtype: string): (r: Option<TypeMisses>)
    ensures r.None? <==> qtype !in QuestionTypes
    ensures r.Some? ==> forall t :: t in QuestionTypes ==>
      MissesFor(r.value, t) == MissesFor(TypeStats(session), t) + (if t == qtype then 1 else 0)
    ensures r.Some? ==> TotalMisses(r.value) == TotalMisses(TypeStats(session)) + 1
  {
    var stats := TypeStats(session);
    if qtype == "artist" then Some(stats.(artist := stats.artist + 1))
    else if qtype == "title" then Some(stats.(title := stats.title + 1))
    else if qtype == "year" then Some(stats.(year := stats.year + 1))
    else None
  }

  // ---------------------------------------------------------------------
  // The weighted question-type pool
  // ---------------------------------------------------------------------

  /** The pool after the first `k` types have each added `count + 1` copies. */
  function PoolPrefix(stats: TypeMisses, k: nat): seq<string>
    requires k <= 3
  {
    if k == 0 then []
    else PoolPrefix(stats, k - 1) + Repeat(QuestionTypes[k - 1], MissesFor(stats, QuestionTypes[k - 1]) + 1)
  }

  /** The type the pool holds at index `i`: `count + 1` copies of
      "artist", then of "title", then of "year". */
  function TypeAtIndex(stats: TypeMisses, i: nat): string
  {
    if i < stats.artist + 1 then "artist"
    else if i < stats.artist + stats.title + 2 then "title"
    else "year"
  }

  lemma PoolShape(stats: TypeMisses)
    ensures PoolPrefix(stats, 3) == Repeat("artist", stats.artist + 1) + Repeat("title", stats.title + 1)
                                    + Repeat("year", stats.year + 1)
  {
    assert PoolPrefix(stats, 1) == Repeat("artist", stats.artist + 1);
  }

  /** The full pool has `total + 3` entries laid out as `TypeAtIndex` says. */
  lemma PoolLayout(stats: TypeMisses)
    ensures |PoolPrefix(stats, 3)| == TotalMisses(stats) + 3
    ensures forall i :: 0 <= i < |PoolPrefix(stats, 3)| ==> PoolPrefix(stats, 3)[i] == TypeAtIndex(stats, i)
  {
    PoolShape(stats);
  }

  /** Each type occurs `count + 1` times in the full pool. */
  lemma PoolCounts(stats: TypeMisses, t: string)
    requires t in QuestionTypes
    ensures Count(PoolPrefix(stats, 3), t) == MissesFor(stats, t) + 1
  {
    var a := Repeat("artist", stats.artist + 1);
    var b := Repeat("title", stats.title + 1);
    var c := Repeat("year", stats.year + 1);
    PoolShape(stats);
    assert multiset(a + b + c) == multiset(a) + multiset(b) + multiset(c);
    RepeatCount("artist", stats.artist + 1, t);
    RepeatCount("title", stats.title + 1, t);
    RepeatCount("year", stats.year + 1, t);
  }

  /** The loop of `pick_question_type_adaptive` that fills `weighted_pool`. */
  method WeightedPool(stats: TypeMisses) returns (pool: seq<string>)
    ensures |pool| == TotalMisses(stats) + 3
    ensures forall t :: t in QuestionTypes ==> Count(pool, t) == MissesFor(stats, t) + 1
    ensures forall i :: 0 <= i < |pool| ==> pool[i] == TypeAtIndex(stats, i)
  {
    pool := [];
    for k := 0 to 3
      invariant pool == PoolPrefix(stats, k)
    {
      var qtype := QuestionTypes[k];
      pool := pool + Repeat(qtype, MissesFor(stats, qtype) + 1);
    }
    PoolLayout(stats);
    forall t | t in QuestionTypes ensures Count(pool, t) == MissesFor(stats, t) + 1 {
      PoolCounts(stats, t);
    }
  }

  /** The type a draw selects: one of the three, uniformly before any miss,
      otherwise the entry of the `total + 3` pool in which the draw falls. */
  function DrawnType(stats: TypeMisses, draw: nat): (qtype: string)
    ensures qtype in QuestionTypes
  {
    if TotalMisses(stats) == 0 then QuestionTypes[draw % 3]
    else TypeAtIndex(stats, draw % (TotalMisses(stats) + 3))
  }

  /** With misses recorded, the draw's type is the section of the pool of
      total + 3 in which the draw falls: `count + 1` places per type, in the
      order artist, title, year. */
  lemma DrawnTypeSections(stats: TypeMisses, draw: nat)
    requires TotalMisses(stats) > 0
    ensures var k := draw % (TotalMisses(stats) + 3);
      && (DrawnType(stats, draw) == "artist" <==> k < stats.artist + 1)
      && (DrawnType(stats, draw) == "title" <==> stats.artist + 1 <= k < stats.artist + stats.title + 2)
      && (DrawnType(stats, draw) == "year" <==> stats.artist + stats.title + 2 <= k)
  {
  }

  /** `pick_question_type_adaptive`, with the random index passed in: uniform
      over the three types before any miss, otherwise weighted by one more
      than each type's misses.  The session's counters come back created. */
  method PickQuestionTypeAdaptive(session: Option<TypeMisses>, draw: nat)
    returns (qtype: string, stats: TypeMisses)
    ensures stats == TypeStats(session)
    ensures qtype == DrawnType(stats, draw)
  {
    stats := TypeStats(session);
    if TotalMisses(stats) == 0 {
      qtype := Choice(QuestionTypes, draw);
      return;
    }
    var pool := WeightedPool(stats);
    qtype := Choice(pool, draw);
  }

  // ---------------------------------------------------------------------
  // The next question
  // ---------------------------------------------------------------------

  /** The snippet length: 15 s above a rating of 1400, 45 s below 1100, else 30 s. */
  function SnippetSeconds(elo: int): (seconds: nat)
    ensures seconds == 15 || seconds == 30 || seconds == 45
  {
    if elo > 1400 then 15 else if elo < 1100 then 45 else 30
  }

  /** A higher rating never gets a longer snippet, and the tiers are the three bands. */
  lemma SnippetTiers(low: int, high: int)
    requires low <= high
    ensures SnippetSeconds(high) <= SnippetSeconds(low)
    ensures SnippetSeconds(low) == 45 <==> low < 1100
    ensures SnippetSeconds(high) == 15 <==> high > 1400
  {
  }

  /** Whether the personalized hints are requested: accuracy below one half
      or a rating below 1300. */
  function ShowExtendedHints(user: User): bool
    reads user
  {
    user.Accuracy() < 0.5 || user.personalizedGuessElo < 1300
  }

  /** A player with no attempts yet always gets the extended hints. */
  lemma NewPlayerGetsExtendedHints(user: User)
    requires user.totalAttempts == 0
    ensures ShowExtendedHints(user)
  {
  }

  /** `[t for t in ALL_TRACKS if t["id"] in missed_list]`. */
  function MissedCandidates(catalog: seq<Track>, missed: seq<string>): (r: seq<Track>)
    ensures forall t :: t in r <==> t in catalog && t.id in missed
    ensures |r| <= |catalog|
    ensures NoDup(catalog) ==> NoDup(r)
  {
    if catalog == [] then []
    else
      var rest := MissedCandidates(catalog[1..], missed);
      assert NoDup(catalog) ==> catalog[0] !in catalog[1..] && NoDup(catalog[1..]) by {
        assert forall i, j :: 0 <= i < j < |catalog[1..]| ==> catalog[1..][i] == catalog[i + 1] && catalog[1..][j] == catalog[j + 1];
      }
      var head := if catalog[0].id in missed then [catalog[0]] else [];
      NoDupConcat(head, rest);
      head + rest
  }

  /** The choice of the next track: with a missed list and a coin below one
      half, a random catalog track whose id is missed, if any; otherwise a
      random catalog track.  `None` is the redirect for an empty catalog. */
  function PickTrack(catalog: seq<Track>, missed: seq<string>, coinBelowHalf: bool,
                     missedDraw: nat, catalogDraw: nat): (r: Option<Track>)
    ensures r.None? <==> catalog == []
    ensures r.Some? ==> r.value in catalog
    ensures r.Some? && coinBelowHalf && MissedCandidates(catalog, missed) != [] ==> r.value.id in missed
    ensures catalog != [] && (!coinBelowHalf || MissedCandidates(catalog, missed) == []) ==>
      r == Some(Choice(catalog, catalogDraw))
  {
    if catalog == [] then None
    else
      var candidates := MissedCandidates(catalog, missed);
      assert candidates != [] ==> candidates[0] in candidates && candidates[0].id in missed;
      if missed != [] && coinBelowHalf && candidates != [] then Some(Choice(candidates, missedDraw))
      else Some(Choice(catalog, catalogDraw))
  }

  /** What `personalized_version` puts in front of the player. */
  datatype Round = Round(track: Track, questionType: string, snippetSeconds: nat,
                         extendedHints: bool, hints: Option<seq<QuizMain.Hint>>)

  /** `personalized_version` with its random draws passed in.  The user is
      only read; the session's type counters come back created. */
  method PersonalizedVersion(user: User, catalog: seq<Track>, session: Option<TypeMisses>,
                             coinBelowHalf: bool, missedDraw: nat, catalogDraw: nat, typeDraw: nat)
    returns (round: Option<Round>, stats: Option<TypeMisses>)
    ensures catalog == [] <==> round.None?
    ensures catalog == [] ==> stats == session
    ensures round.Some? ==>
      && stats == Some(TypeStats(session))
      && Some(round.value.track) == PickTrack(catalog, user.missedSongs, coinBelowHalf, missedDraw, catalogDraw)
      && round.value.questionType == DrawnType(TypeStats(session), typeDraw)
      && round.value.snippetSeconds == SnippetSeconds(user.personalizedGuessElo)
      && round.value.extendedHints == ShowExtendedHints(user)
      // The hints are those of `generate_hints` run with the extended flag as its personalized flag.
      && QuizMain.HintsAsGenerated(round.value.track, round.value.questionType, user,
                                   round.value.extendedHints, round.value.hints)
  {
    var picked := PickTrack(catalog, user.missedSongs, coinBelowHalf, missedDraw, catalogDraw);
    if picked.None? {
      return None, session;
    }
    var snippet := SnippetSeconds(user.personalizedGuessElo);
    var qtype, created := PickQuestionTypeAdaptive(session, typeDraw);
    var extended := ShowExtendedHints(user);
    var hints := QuizMain.GenerateHints(picked.value, qtype, user, extended);
    round := Some(Round(picked.value, qtype, snippet, extended, hints));
    stats := Some(created);
  }

  // ---------------------------------------------------------------------
  // The guess handler
  // ---------------------------------------------------------------------

  /** `submit_guess_personalized`.  Year guesses use the personalized guess
      rating from before this guess.  A wrong answer also counts a miss for
      the challenge type; for a challenge other than the three that is a
      `KeyError`, raised before the database commit, so the user is left as
      it was. */
  method SubmitGuessPersonalized(user: User, catalog: seq<Track>, currentTrackId: Option<string>,
                                 challenge: Option<string>, guess: Option<string>,
                                 session: Option<TypeMisses>)
    returns (status: GuessStatus, stats: Option<TypeMisses>)
    modifies user
    ensures currentTrackId.None? || currentTrackId.value == "" ==> status == NoActiveTrack
    ensures currentTrackId.Some? && currentTrackId.value != "" && FindTrack(catalog, currentTrackId.value).None? ==>
      status == TrackNotFound
    ensures status.Judged? ==>
      && currentTrackId.Some? && FindTrack(catalog, currentTrackId.value) == Some(status.track)
      && status.correct == CheckGuess(GetOr(challenge, "artist"), GetOr(guess, ""), status.track,
                                      ByRating(old(user.personalizedGuessElo)))
    // A correct answer leaves the type counters alone; a wrong one counts one miss for the challenge.
    ensures status.Judged? && status.correct ==> stats == session
    ensures status.Judged? && !status.correct ==> stats == RecordMissForType(session, GetOr(challenge, "artist"))
    ensures status == Crashed <==>
      && currentTrackId.Some? && currentTrackId.value != ""
      && FindTrack(catalog, currentTrackId.value).Some?
      && GetOr(challenge, "artist") !in QuestionTypes
    ensures status.Judged? ==> GuessCommitted(user, status.track.id, status.correct)
    ensures !status.Judged? ==> unchanged(user) && stats == session
    ensures old(user.Valid()) ==> user.Valid()
  {
    stats := session;
    if currentTrackId.None? || currentTrackId.value == "" {
      return NoActiveTrack, stats;
    }
    var found := FindTrack(catalog, currentTrackId.value);
    if found.None? {
      return TrackNotFound, stats;
    }
    status, stats := JudgeGuess(user, found.value, GetOr(challenge, "artist"), GetOr(guess, ""), session);
  }

  /** The handler once the track is known: the judgement under the rating
      from before the guess, the miss counted for a wrong answer (raising
      for an unknown type) and the commit. */
  method JudgeGuess(user: User, track: Track, ctype: string, guess: string, session: Option<TypeMisses>)
    returns (status: GuessStatus, stats: Option<TypeMisses>)
    modifies user
    ensures status == Crashed <==> ctype !in QuestionTypes
    ensures status != Crashed ==>
      status == Judged(track, CheckGuess(ctype, guess, track, ByRating(old(user.personalizedGuessElo))))
    ensures status.Judged? && status.correct ==> stats == session
    ensures status.Judged? && !status.correct ==> stats == RecordMissForType(session, ctype)
    ensures status.Judged? ==> GuessCommitted(user, track.id, status.correct)
    ensures !status.Judged? ==> unchanged(user) && stats == session
    ensures old(user.Valid()) ==> user.Valid()
  {
    stats := session;
    var correct := CheckGuess(ctype, guess, track, ByRating(user.personalizedGuessElo));
    CheckGuessUnknownChallenge(ctype, guess, track, ByRating(user.personalizedGuessElo));
    if !correct {
      var recorded := RecordMissForType(session, ctype);
      if recorded.None? {
        return Crashed, stats;
      }
      stats := recorded;
    }
    CommitGuess(user, track.id, correct);
    status := Judged(track, correct);
  }

  /** The user after a judged guess of this round: one more attempt, one
      more correct answer exactly when it was right, the missed list as
      `MissedAfter` says, the personalized guess rating 16 up or down and
      the other three ratings as they were. */
  twostate predicate GuessCommitted(user: User, id: string, correct: bool)
    reads user
  {
    && user.totalAttempts == old(user.totalAttempts) + 1
    && user.totalCorrect == old(user.totalCorrect) + (if correct then 1 else 0)
    && user.missedSongs == MissedAfter(old(user.missedSongs), id, correct)
    && user.personalizedGuessElo == old(user.personalizedGuessElo) + (if correct then 16 else -16)
    && user.randomGuessElo == old(user.randomGuessElo)
    && user.randomRankElo == old(user.randomRankElo)
    && user.personalizedRankElo == old(user.personalizedRankElo)
  }

  /** The commit of a judged guess in this round: the shared counter and
      missed-list update, then the personalized guess rating. */
  method CommitGuess(user: User, id: string, correct: bool)
    modifies user
    ensures GuessCommitted(user, id, correct)
    ensures old(user.Valid()) ==> user.Valid()
  {
    RecordAnswer(user, id, correct);
    ColumnNamesDistinct();
    NewEloEndpoints(user.personalizedGuessElo);
    user.UpdateElo("personalized", "guess", if correct then 1.0 else 0.0);
  }
}
