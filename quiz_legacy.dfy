/**
 * The older quiz blueprint of `src/routes/quiz.py`: the fallback catalog,
 * the personalized round with a difficulty chosen by accuracy, the guess
 * handler without ratings and the Tab-key artist completion.  Its catalog
 * is the module's own `ALL_TRACKS` list, here a `Catalog` object.
 */
module QuizLegacy {
  import opened Prelude
  import opened Text
  import opened Seqs
  import opened Tracks
  import opened Models
  import opened Answers

  // ---------------------------------------------------------------------
  // The catalog and its fallback
  // ---------------------------------------------------------------------

  /** The two tracks the quiz falls back on.  They carry no popularity in
      the source; it is 0 here, and no handler of this module reads it. */
  const FallbackSongs: seq<Track> := [
    Track("4uLU6hMCjMI75M1A2tKUQC", "Never Gonna Give You Up", "Rick Astley", 1987, 0),
    Track("3n3Ppam7vgaVa1iaRUc9Lp", "Mr. Brightside", "The Killers", 2003, 0)
  ]

  /** The catalog after `fallback_add_minimum_tracks`: the fallback songs
      when it was empty, the same catalog otherwise. */
  function WithFallback(tracks: seq<Track>): (r: seq<Track>)
    ensures r != []
    ensures tracks != [] ==> r == tracks
    ensures tracks == [] ==> |r| == 2 && NoDup(r)
  {
    if tracks == [] then FallbackSongs else tracks
  }

  /** A second fallback changes nothing. */
  lemma WithFallbackIdempotent(tracks: seq<Track>)
    ensures WithFallback(WithFallback(tracks)) == WithFallback(tracks)
  {
  }

  /** The fallback songs are two distinct tracks, artist and title without
      surrounding whitespace, so each can be named exactly. */
  lemma FallbackSongsAnswerable(rule: YearRule)
    ensures forall t :: t in FallbackSongs ==> CheckGuess("artist", t.artist, t, rule)
    ensures forall t :: t in FallbackSongs ==> CheckGuess("year", Decimal(t.year), t, rule)
  {
    forall t | t in FallbackSongs
      ensures CheckGuess("artist", t.artist, t, rule) && CheckGuess("year", Decimal(t.year), t, rule)
    {
      CheckGuessAcceptsName(t, rule);
      CheckGuessAcceptsYear(t, rule);
    }
  }

  /** The module's track list, which the handlers extend in place. */
  class Catalog {
    var tracks: seq<Track>

    constructor (tracks: seq<Track>)
      ensures this.tracks == tracks
    {
      this.tracks := tracks;
    }

    /** `fallback_add_minimum_tracks`: extends an empty list with the two
        fallback songs and leaves any other list alone. */
    method FallbackAddMinimumTracks()
      modifies this
      ensures tracks == WithFallback(old(tracks))
    {
      if tracks == [] {
        tracks := tracks + FallbackSongs;
      }
    }
  }

  // ---------------------------------------------------------------------
  // The personalized round
  // ---------------------------------------------------------------------

  /** `personalized_version`: seeds the catalog when it is empty, so the
      redirect for a still-empty catalog never happens, and then asks about
      the track and in the difficulty `Answers.NextQuestion` gives. */
  method PersonalizedVersion(user: User, catalog: Catalog, missedDraw: nat, catalogDraw: nat, typeDraw: nat)
    returns (q: Question)
    modifies catalog
    ensures catalog.tracks == WithFallback(old(catalog.tracks))
    ensures q == NextQuestion(user.Accuracy(), catalog.tracks, user.missedSongs, missedDraw, catalogDraw, typeDraw)
    ensures q.track in catalog.tracks
  {
    if catalog.tracks == [] {
      catalog.FallbackAddMinimumTracks();
    }
    q := NextQuestion(user.Accuracy(), catalog.tracks, user.missedSongs, missedDraw, catalogDraw, typeDraw);
  }

  // ---------------------------------------------------------------------
  // Guesses
  // ---------------------------------------------------------------------

  /** `submit_guess` of this blueprint: the shared matching under the
      session's difficulty ("normal" when unset) and the shared counter and
      missed-list update; no rating moves. */
  method SubmitGuess(user: User, catalog: seq<Track>, currentTrackId: Option<string>,
                     challenge: Option<string>, guess: Option<string>, difficulty: Option<string>)
    returns (status: GuessStatus)
    modifies user
    ensures currentTrackId.None? || currentTrackId.value == "" ==> status == NoActiveTrack
    ensures currentTrackId.Some? && currentTrackId.value != "" ==>
      match FindTrack(catalog, currentTrackId.value)
      case None => status == TrackNotFound
      case Some(t) => status == Judged(t, CheckGuess(GetOr(challenge, "artist"), GetOr(guess, ""), t,
                                                     ByDifficulty(GetOr(difficulty, "normal"))))
    ensures status.Judged? ==>
      && user.totalAttempts == old(user.totalAttempts) + 1
      && user.totalCorrect == old(user.totalCorrect) + (if status.correct then 1 else 0)
      && user.missedSongs == MissedAfter(old(user.missedSongs), status.track.id, status.correct)
    ensures user.randomGuessElo == old(user.randomGuessElo)
    ensures user.personalizedGuessElo == old(user.personalizedGuessElo)
    ensures user.randomRankElo == old(user.randomRankElo)
    ensures user.personalizedRankElo == old(user.personalizedRankElo)
    ensures !status.Judged? ==> unchanged(user)
    ensures old(user.Valid()) ==> user.Valid()
  {
    if currentTrackId.None? || currentTrackId.value == "" {
      return NoActiveTrack;
    }
    var found := FindTrack(catalog, currentTrackId.value);
    if found.None? {
      return TrackNotFound;
    }
    var chosen := found.value;
    var correct := CheckGuess(GetOr(challenge, "artist"), GetOr(guess, ""), chosen,
                              ByDifficulty(GetOr(difficulty, "normal")));
    RecordAnswer(user, chosen.id, correct);
    status := Judged(chosen, correct);
  }

  // ---------------------------------------------------------------------
  // Tab completion of artists
  // ---------------------------------------------------------------------

  /** `{t["artist"].lower() for t in ALL_TRACKS}`. */
  function ArtistNames(catalog: seq<Track>): set<string>
  {
    set t | t in catalog :: Lower(t.artist)
  }

  /** `tab_autocomplete_artist`: the stripped, lower-cased query, and the
      first lower-cased artist name in the set's iteration order that
      starts with it; the iteration order of a Python set is not specified,
      so any matching name may come back.  "" when the query is empty or
      no name matches. */
  method TabAutocompleteArtist(catalog: seq<Track>, query: Option<string>) returns (found: string)
    ensures Lower(Strip(GetOr(query, ""))) == "" ==> found == ""
    ensures found != "" ==> found in ArtistNames(catalog) && StartsWith(found, Lower(Strip(GetOr(query, ""))))
    ensures found == "" <==>
      (Lower(Strip(GetOr(query, ""))) == ""
       || forall a :: a in ArtistNames(catalog) ==> !StartsWith(a, Lower(Strip(GetOr(query, "")))))
  {
    var q := Lower(Strip(GetOr(query, "")));
    if q == "" {
      return "";
    }
    var names := ArtistNames(catalog);
    var remaining := names;
    while remaining != {}
      invariant remaining <= names
      invariant forall a :: a in names - remaining ==> !StartsWith(a, q)
      decreases |remaining|
    {
      var a :| a in remaining;
      if StartsWith(a, q) {
        return a;
      }
      remaining := remaining - {a};
    }
    return "";
  }
}
