/**
 * The random round of `src/routes/quiz_main.py`: its buddy line table, the
 * hint builder `generate_hints`, the guess handler `submit_guess` and the
 * two prefix autocompletes.  The playlist-id parser of this file is the
 * same as `QuizBase.ParsePlaylistInput`.
 */
module QuizMain {
  import opened Prelude
  import opened Text
  import opened Seqs
  import opened Tracks
  import opened Models
  import opened Answers

  // ---------------------------------------------------------------------
  // The buddy's lines
  // ---------------------------------------------------------------------

  /** The line counts of this file's table, which also has the "rank" and
      "hint" categories the ranking and hint screens look up. */
  function FriendlyLines(): map<string, nat>
  {
    map["correct" := 3, "wrong" := 2, "start" := 1, "rank" := 2, "hint" := 3]
  }

  function StrictLines(): map<string, nat>
  {
    map["correct" := 2, "wrong" := 2, "start" := 1, "rank" := 2, "hint" := 3]
  }

  /** `get_buddy_personality_lines`: the session's personality ("friendly"
      when unset), the friendly table when the name is unknown. */
  function BuddyLines(personality: Option<string>): (lines: map<string, nat>)
    ensures lines.Keys == {"correct", "wrong", "start", "rank", "hint"}
    ensures forall c :: c in lines ==> lines[c] >= 1
    ensures GetOr(personality, "friendly") == "strict" ==> lines == StrictLines()
    ensures GetOr(personality, "friendly") != "strict" ==> lines == FriendlyLines()
  {
    var tables := map["friendly" := FriendlyLines(), "strict" := StrictLines()];
    var name := GetOr(personality, "friendly");
    if name in tables then tables[name] else tables["friendly"]
  }

  /** Every category a screen asks for is there, for every personality. */
  lemma BuddyLinesComplete(personality: Option<string>, category: string)
    requires category in {"correct", "wrong", "start", "rank", "hint"}
    ensures category in BuddyLines(personality) && BuddyLines(personality)[category] >= 1
  {
  }

  // ---------------------------------------------------------------------
  // Hints
  // ---------------------------------------------------------------------

  /** The kind of each hint; the wording is not modelled. */
  datatype Hint =
    | FirstLetter(letter: char)          // "The artist starts with ..."
    | NameLength(length: nat)            // "... has N letters / characters"
    | Decade(decade: int)                // "The release year is in the 1990s"
    | TwentyFirstCentury
    | TwentiethCenturyOrEarlier
    | SeenBefore                         // "we've seen this track a few times"

  /** The rating the hints depend on. */
  function GuessElo(user: User, personalized: bool): int
    reads user
  {
    if personalized then user.personalizedGuessElo else user.randomGuessElo
  }

  /** One hint above a rating of 1400, three otherwise (the branch for a
      rating below 1100 sets the same 3). */
  function MaxHints(elo: int): (n: nat)
    ensures n == 1 <==> elo > 1400
    ensures n == 3 <==> elo <= 1400
  {
    if elo > 1400 then 1 else if elo < 1100 then 3 else 3
  }

  /** `(year // 10) * 10`. */
  function DecadeOf(year: int): (d: int)
    ensures d % 10 == 0 && d <= year < d + 10
  {
    (year / 10) * 10
  }

  /** What `generate_hints` yields for a track, a question type and a
      rating.  `None` is the `IndexError` of taking the first letter of an
      empty name; otherwise the list is cut down to the rating's limit. */
  predicate HintsAsGenerated(track: Track, questionType: string, user: User, personalized: bool,
                             hints: Option<seq<Hint>>)
    reads user
  {
    && (hints.None? <==> ((questionType == "artist" && track.artist == [])
                          || (questionType == "title" && track.title == [])))
    && (hints.Some? ==> |hints.value| <= MaxHints(GuessElo(user, personalized)))
    // Outside the personalized round there is exactly one hint per known type.
    && (hints.Some? && !personalized ==>
          hints.value == (if questionType == "artist" then [FirstLetter(track.artist[0])]
                          else if questionType == "title" then [FirstLetter(track.title[0])]
                          else if questionType == "year" then [Decade(DecadeOf(track.year))]
                          else []))
    // In the personalized round with a rating of at most 1400 the extra hints follow.
    && (hints.Some? && personalized && GuessElo(user, personalized) <= 1400 ==>
          hints.value == (if questionType == "artist" then [FirstLetter(track.artist[0]), NameLength(|track.artist|)]
                          else if questionType == "title" then [FirstLetter(track.title[0]), NameLength(|track.title|)]
                          else if questionType == "year" then
                            [Decade(DecadeOf(track.year)),
                             if track.year >= 2000 then TwentyFirstCentury else TwentiethCenturyOrEarlier]
                          else [])
                         + (if Count(user.missedSongs, track.id) >= 2 then [SeenBefore] else []))
    // Above 1400 only the first hint survives the cut.
    && (hints.Some? && GuessElo(user, personalized) > 1400 && questionType in QuestionTypes ==>
          hints.value == (if questionType == "artist" then [FirstLetter(track.artist[0])]
                          else if questionType == "title" then [FirstLetter(track.title[0])]
                          else [Decade(DecadeOf(track.year))]))
    // The missed list never holds an id twice, so the reminder never shows.
    && (hints.Some? && NoDup(user.missedSongs) ==> SeenBefore !in hints.value)
  }

  /** `generate_hints`: the list is built type by type and then cut down to
      the rating's limit. */
  method GenerateHints(track: Track, questionType: string, user: User, personalized: bool)
    returns (hints: Option<seq<Hint>>)
    ensures HintsAsGenerated(track, questionType, user, personalized, hints)
  {
    var elo := GuessElo(user, personalized);
    var maxHints := MaxHints(elo);
    var built: seq<Hint> := [];
    if questionType == "artist" {
      if track.artist == [] {
        return None;
      }
      built := built + [FirstLetter(track.artist[0])];
      if personalized && maxHints > 1 {
        built := built + [NameLength(|track.artist|)];
      }
    } else if questionType == "title" {
      if track.title == [] {
        return None;
      }
      built := built + [FirstLetter(track.title[0])];
      if personalized && maxHints > 1 {
        built := built + [NameLength(|track.title|)];
      }
    } else if questionType == "year" {
      built := built + [Decade(DecadeOf(track.year))];
      if personalized && maxHints > 1 {
        if track.year >= 2000 {
          built := built + [TwentyFirstCentury];
        } else {
          built := built + [TwentiethCenturyOrEarlier];
        }
      }
    }
    assert SeenBefore !in built;
    var timesMissed := Count(user.missedSongs, track.id);
    if NoDup(user.missedSongs) {
      NoDupCount(user.missedSongs, track.id);
    }
    if timesMissed >= 2 && personalized && maxHints > 1 {
      built := built + [SeenBefore];
    }
    if !personalized || maxHints > 1 {
      assert |built| <= maxHints;
      assert built[..Min(maxHints, |built|)] == built;
    }
    hints := Some(built[..Min(maxHints, |built|)]);
  }

  // ---------------------------------------------------------------------
  // The guess handler
  // ---------------------------------------------------------------------

  /** `submit_guess` of the random round.  The session values arrive as
      options: the current track id, the challenge ("artist" when unset),
      the typed guess ("" when absent) and the difficulty ("normal" when
      unset), which `within_year_margin_dynamic` reads.  Without an active
      track, or when the catalog no longer has it, nothing changes.
      Otherwise the counters and the missed list are updated and the random
      guess rating moves by a full success or a full failure. */
  method SubmitGuess(user: User, catalog: seq<Track>, currentTrackId: Option<string>,
                     challenge: Option<string>, guess: Option<string>, difficulty: Option<string>)
    returns (status: GuessStatus)
    modifies user
    ensures currentTrackId.None? || currentTrackId.value == "" ==> status == NoActiveTrack
    ensures currentTrackId.Some? && currentTrackId.value != "" ==>
      match FindTrack(catalog, currentTrackId.value)
      case None => status == TrackNotFound
      case Some(t) => status == Judged(t, CheckGuess(GetOr(challenge, "artist"), GetOr(guess, ""), t,
                                                     ByDifficulty(GetOr(difficulty, "normal"))))
    ensures status.Judged? ==>
      && user.totalAttempts == old(user.totalAttempts) + 1
      && user.totalCorrect == old(user.totalCorrect) + (if status.correct then 1 else 0)
      && user.missedSongs == MissedAfter(old(user.missedSongs), status.track.id, status.correct)
      && user.randomGuessElo == old(user.randomGuessElo) + (if status.correct then 16 else -16)
      && user.personalizedGuessElo == old(user.personalizedGuessElo)
      && user.randomRankElo == old(user.randomRankElo)
      && user.personalizedRankElo == old(user.personalizedRankElo)
    ensures !status.Judged? ==> unchanged(user)
    ensures old(user.Valid()) ==> user.Valid()
  {
    if currentTrackId.None? || currentTrackId.value == "" {
      return NoActiveTrack;
    }
    var found := FindTrack(catalog, currentTrackId.value);
    if found.None? {
      return TrackNotFound;
    }
    var chosen := found.value;
    var correct := CheckGuess(GetOr(challenge, "artist"), GetOr(guess, ""), chosen,
                              ByDifficulty(GetOr(difficulty, "normal")));
    RecordAnswer(user, chosen.id, correct);
    ColumnNamesDistinct();
    NewEloEndpoints(user.randomGuessElo);
    user.UpdateElo("random", "guess", if correct then 1.0 else 0.0);
    status := Judged(chosen, correct);
  }

  // ---------------------------------------------------------------------
  // Autocomplete
  // ---------------------------------------------------------------------

  /** Which field a suggestion list completes. */
  datatype NameField = ArtistField | TitleField

  function FieldOf(field: NameField, t: Track): string
  {
    match field
    case ArtistField => t.artist
    case TitleField => t.title
  }

  /** The names, as stored, whose lower-cased form starts with `q`. */
  function Matching(catalog: seq<Track>, q: string, field: NameField): set<string>
  {
    set t | t in catalog && StartsWith(Lower(FieldOf(field, t)), q) :: FieldOf(field, t)
  }

  /** The lower-cased order `sorted(..., key=lambda x: x.lower())` uses. */
  predicate NameLe(a: string, b: string)
  {
    LexLe(Lower(a), Lower(b))
  }

  /** A non-empty finite set of names has a least one under `NameLe`. */
  lemma {:induction false} LeastNameExists(names: set<string>)
    requires names != {}
    ensures exists m :: m in names && forall x :: x in names ==> NameLe(m, x)
    decreases |names|
  {
    var y :| y in names;
    var rest := names - {y};
    if rest == {} {
      assert names == {y};
      LexLeTotal(Lower(y), Lower(y));
    } else {
      LeastNameExists(rest);
      var m :| m in rest && forall x :: x in rest ==> NameLe(m, x);
      LexLeTotal(Lower(m), Lower(y));
      if NameLe(m, y) {
        assert forall x :: x in names ==> NameLe(m, x);
      } else {
        assert NameLe(y, m);
        forall x | x in names ensures NameLe(y, x) {
          if x == y {
            LexLeTotal(Lower(y), Lower(y));
          } else {
            assert x in rest;
            LexLeTrans(Lower(y), Lower(m), Lower(x));
          }
        }
      }
    }
  }

  /** `sorted(names, key=str.lower)[:limit]`, modelled as repeatedly taking
      a least remaining name; names that differ only in letter case come out
      in an unspecified order, as they do from a set. */
  method LeastNames(names: set<string>, limit: nat) returns (out: seq<string>)
    ensures NoDup(out)
    ensures forall i :: 0 <= i < |out| ==> out[i] in names
    ensures forall i, j :: 0 <= i < j < |out| ==> NameLe(out[i], out[j])
    ensures |out| == Min(limit, |names|)
    ensures forall x :: x in names && x !in out ==> forall i :: 0 <= i < |out| ==> NameLe(out[i], x)
  {
    var remaining := names;
    out := [];
    while |out| < limit && remaining != {}
      invariant |out| <= limit
      invariant remaining <= names
      invariant forall i :: 0 <= i < |out| ==> out[i] in names && out[i] !in remaining
      invariant forall x :: x in names && x !in remaining ==> x in out
      invariant |out| + |remaining| == |names|
      invariant NoDup(out)
      invariant forall i, j :: 0 <= i < j < |out| ==> NameLe(out[i], out[j])
      invariant forall x, i :: x in remaining && 0 <= i < |out| ==> NameLe(out[i], x)
      decreases |remaining|
    {
      LeastNameExists(remaining);
      var m :| m in remaining && forall x :: x in remaining ==> NameLe(m, x);
      out := out + [m];
      remaining := remaining - {m};
    }
  }

  /** The set the loop of `autocomplete_artist` / `autocomplete_title` fills. */
  method CollectMatching(catalog: seq<Track>, q: string, field: NameField) returns (names: set<string>)
    ensures names == Matching(catalog, q, field)
  {
    names := {};
    for i := 0 to |catalog|
      invariant names == Matching(catalog[..i], q, field)
    {
      assert catalog[..i + 1] == catalog[..i] + [catalog[i]];
      var name := FieldOf(field, catalog[i]);
      if StartsWith(Lower(name), q) {
        names := names + {name};
      }
    }
    assert catalog[..|catalog|] == catalog;
  }

  /** `autocomplete_artist` / `autocomplete_title`: the query is lower-cased
      (not stripped); an empty query gives no suggestions; otherwise the
      first ten matching names in case-insensitive order. */
  method Autocomplete(catalog: seq<Track>, query: Option<string>, field: NameField)
    returns (suggestions: seq<string>)
    ensures Lower(GetOr(query, "")) == "" ==> suggestions == []
    ensures NoDup(suggestions)
    ensures forall i :: 0 <= i < |suggestions| ==> suggestions[i] in Matching(catalog, Lower(GetOr(query, "")), field)
    ensures forall i :: 0 <= i < |suggestions| ==> StartsWith(Lower(suggestions[i]), Lower(GetOr(query, "")))
    ensures forall i, j :: 0 <= i < j < |suggestions| ==> NameLe(suggestions[i], suggestions[j])
    ensures Lower(GetOr(query, "")) != "" ==>
      |suggestions| == Min(10, |Matching(catalog, Lower(GetOr(query, "")), field)|)
    // A matching name left out sorts after every one returned.
    ensures Lower(GetOr(query, "")) != "" ==>
      forall x :: x in Matching(catalog, Lower(GetOr(query, "")), field) && x !in suggestions ==>
        forall i :: 0 <= i < |suggestions| ==> NameLe(suggestions[i], x)
  {
    var q := Lower(GetOr(query, ""));
    if q == "" {
      return [];
    }
    var names := CollectMatching(catalog, q, field);
    suggestions := LeastNames(names, 10);
  }
}
