/**
 * The quiz blueprint of `bin/routes/quiz.py`: the track limit of the
 * playlist import, the personalized round and a guess handler that also
 * knows a "both" challenge (artist and title at once).
 */
module BinQuiz {
  import opened Prelude
  import opened Text
  import opened Seqs
  import opened Tracks
  import opened Models
  import opened Answers

  // ---------------------------------------------------------------------
  // The import limit
  // ---------------------------------------------------------------------

  /** The limit used when the form gives none that is usable. */
  const NoLimit: nat := 9999

  /** `max_tracks` of `import_spotify_playlist`: the number when the field,
      unstripped, is all digits and at least 1, and 9999 otherwise. */
  function MaxTracks(field: Option<string>): (n: nat)
    ensures n >= 1
    ensures IsDigits(GetOr(field, "")) && DigitsValue(GetOr(field, "")) >= 1 ==> n == DigitsValue(GetOr(field, ""))
    ensures !(IsDigits(GetOr(field, "")) && DigitsValue(GetOr(field, "")) >= 1) ==> n == NoLimit
  {
    var s := GetOr(field, "");
    if IsDigits(s) then
      var v := DigitsValue(s);
      if v < 1 then NoLimit else v
    else NoLimit
  }

  /** Every positive limit written in digits reads back as itself; zero, an
      absent field and a padded number all mean no limit, since `isdigit`
      sees the field before any stripping. */
  lemma MaxTracksRoundTrip(n: nat)
    requires n >= 1
    ensures MaxTracks(Some(Decimal(n))) == n
    ensures MaxTracks(Some(Decimal(0))) == NoLimit
    ensures MaxTracks(None) == NoLimit
    ensures MaxTracks(Some(" " + Decimal(n))) == NoLimit
  {
    DecimalRoundTrip(n);
    DecimalRoundTrip(0);
    assert !IsDigit((" " + Decimal(n))[0]);
  }

  // ---------------------------------------------------------------------
  // The personalized round
  // ---------------------------------------------------------------------

  /** `personalized_version`: the redirect for an empty catalog, otherwise
      the question `Answers.NextQuestion` gives. */
  function PersonalizedVersion(user: User, catalog: seq<Track>, missedDraw: nat, catalogDraw: nat, typeDraw: nat)
    : (q: Option<Question>)
    reads user
    ensures q.None? <==> catalog == []
    ensures q.Some? ==> q.value.track in catalog && q.value.difficulty == DifficultyForAccuracy(user.Accuracy())
    ensures q.Some? && user.missedSongs != [] && FindTrack(catalog, Choice(user.missedSongs, missedDraw)).Some? ==>
      q.value.track.id == Choice(user.missedSongs, missedDraw)
  {
    if catalog == [] then None
    else Some(NextQuestion(user.Accuracy(), catalog, user.missedSongs, missedDraw, catalogDraw, typeDraw))
  }

  // ---------------------------------------------------------------------
  // Guesses, with the "both" challenge
  // ---------------------------------------------------------------------

  /** The three answer fields the page may post. */
  datatype GuessForm = GuessForm(guess: Option<string>, guessArtist: Option<string>, guessTitle: Option<string>)

  /** The matching of this handler: artist and title as everywhere; a year
      guess is only stripped before `isdigit`; "both" needs the artist field
      and the title field to match. */
  predicate CheckGuessWithBoth(challenge: string, form: GuessForm, track: Track, difficulty: string)
  {
    if challenge == "artist" then Normalised(GetOr(form.guess, "")) == Lower(track.artist)
    else if challenge == "title" then Normalised(GetOr(form.guess, "")) == Lower(track.title)
    else if challenge == "year" then
      var g := Strip(GetOr(form.guess, ""));
      IsDigits(g) && WithinYearMargin(difficulty, DigitsValue(g), track.year)
    else if challenge == "both" then
      Normalised(GetOr(form.guessArtist, "")) == Lower(track.artist)
      && Normalised(GetOr(form.guessTitle, "")) == Lower(track.title)
    else false
  }

  /** For the three common challenges this handler judges as the shared
      `CheckGuess` does: leaving out the lower-casing of a year guess makes
      no difference. */
  lemma AgreesWithCheckGuess(challenge: string, form: GuessForm, track: Track, difficulty: string)
    requires challenge != "both"
    ensures CheckGuessWithBoth(challenge, form, track, difficulty)
         == CheckGuess(challenge, GetOr(form.guess, ""), track, ByDifficulty(difficulty))
  {
    LowerDigits(Strip(GetOr(form.guess, "")));
  }

  /** "both" is answered exactly when the artist field answers the artist
      challenge and the title field the title challenge. */
  lemma BothNeedsBoth(form: GuessForm, track: Track, difficulty: string)
    ensures CheckGuessWithBoth("both", form, track, difficulty)
        <==> CheckGuess("artist", GetOr(form.guessArtist, ""), track, ByDifficulty(difficulty))
             && CheckGuess("title", GetOr(form.guessTitle, ""), track, ByDifficulty(difficulty))
  {
  }

  /** `submit_guess` of this blueprint: the session's challenge ("artist"
      when unset) and difficulty ("normal" when unset), the matching above
      and the shared counter and missed-list update; no rating moves. */
  method SubmitGuess(user: User, catalog: seq<Track>, currentTrackId: Option<string>,
                     challenge: Option<string>, form: GuessForm, difficulty: Option<string>)
    returns (status: GuessStatus)
    modifies user
    ensures currentTrackId.None? || currentTrackId.value == "" ==> status == NoActiveTrack
    ensures currentTrackId.Some? && currentTrackId.value != "" ==>
      match FindTrack(catalog, currentTrackId.value)
      case None => status == TrackNotFound
      case Some(t) => status == Judged(t, CheckGuessWithBoth(GetOr(challenge, "artist"), form, t,
                                                             GetOr(difficulty, "normal")))
    ensures status.Judged? ==>
      && user.totalAttempts == old(user.totalAttempts) + 1
      && user.totalCorrect == old(user.totalCorrect) + (if status.correct then 1 else 0)
      && user.missedSongs == MissedAfter(old(user.missedSongs), status.track.id, status.correct)
    ensures user.randomGuessElo == old(user.randomGuessElo)
    ensures user.personalizedGuessElo == old(user.personalizedGuessElo)
    ensures user.randomRankElo == old(user.randomRankElo)
    ensures user.personalizedRankElo == old(user.personalizedRankElo)
    ensures !status.Judged? ==> unchanged(user)
    ensures old(user.Valid()) ==> user.Valid()
  {
    if currentTrackId.None? || currentTrackId.value == "" {
      return NoActiveTrack;
    }
    var found := FindTrack(catalog, currentTrackId.value);
    if found.None? {
      return TrackNotFound;
    }
    var chosen := found.value;
    var correct := CheckGuessWithBoth(GetOr(challenge, "artist"), form, chosen, GetOr(difficulty, "normal"));
    RecordAnswer(user, chosen.id, correct);
    status := Judged(chosen, correct);
  }
}
