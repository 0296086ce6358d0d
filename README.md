# Music quiz rules, modelled in Dafny

This project models the game rules of a Flask music quiz. Players import a
Spotify playlist. They then answer questions about its tracks: artist,
title or release year. In a second game they rank a handful of tracks by
release year or by popularity. Each player has a record with:

- answer counters;
- a list of missed track ids;
- four Elo-style ratings: random and personalized rounds, each for guessing
  and for ranking.

The ratings move after every answer and every ranking. The model keeps only
the rules. Flask, the session, the database, Spotify and every random draw
are left outside: each draw is a parameter of the operation that uses it.

Modules, following the program's files:

| module | file | models |
|---|---|---|
| `Prelude` | `prelude.dfy` | `Option`, defaults, `abs`, `max`, `min` |
| `Text` | `text.dfy` | `strip`, `lower`, `isdigit`/`int`, `isalnum`, `split(",")` and `",".join`, string order |
| `Seqs` | `seqs.dfy` | list operations: `count`, `index`, `remove`, append-if-absent, filtering comprehensions |
| `Tracks` | `tracks.dfy` | the track record, Python's stable `sorted`, the catalog lookup |
| `Models` | `models.dfy` | `src/models.py`: the `User` record, `update_elo`, `get_accuracy`, `get_level` |
| `QuizBase` | `quiz_base.dfy` | `src/routes/quiz_base.py`: playlist-id parsing, the buddy line table, the level settings |
| `Answers` | `answers.dfy` | what all four guess handlers share: year tolerances, answer matching, the counter and missed-list update, the accuracy-based difficulty and the missed-first track pick |
| `QuizMain` | `quiz_main.dfy` | `src/routes/quiz_main.py`: the full buddy table, `generate_hints`, `submit_guess`, the two autocompletes |
| `QuizPersonalized` | `quiz_personalized.dfy` | `src/routes/quiz_personalized.py`: per-type miss counters, the weighted type pick, the personalized round and its guess handler |
| `QuizRanking` | `quiz_ranking.dfy` | `src/routes/quiz_ranking.py`: close and spread track picks, ground truth, pair scoring, difficulty blend, the personalized subset, the results screen |
| `QuizLegacy` | `quiz_legacy.dfy` | `src/routes/quiz.py`: the fallback catalog, the personalized round, the guess handler, Tab completion |
| `BinQuiz` | `bin_quiz.dfy` | `bin/routes/quiz.py`: the `max_tracks` limit, the personalized round, the guess handler with the "both" challenge |

Modelling choices:

- **Integers and fractions.** Integers are unbounded, as in Python.
  Accuracy, correctness and the outcome are exact `real`s.
- **Rounding.** Python's `round` is round-half-to-even (`RoundHalfEven`).
- **Text.** `lower`, `isdigit` and `isalnum` are the ASCII versions.
  `strip` removes Python's whitespace characters.
- **The catalog.** `ALL_TRACKS` is a `seq<Track>`. It is a parameter of the
  handlers, except in `QuizLegacy`, where `fallback_add_minimum_tracks`
  extends it in place, so it is the field of a `Catalog` object there.
- **The player.** The `User` row is a class. Its methods update the fields
  in place.
- **Session values** are passed in and returned: the current track, the
  challenge, the difficulty, the type-miss counters and the offered ranking
  ids. An absent session key is `None`. `QuizRanking.SubmitRank` returns the
  offer as the session holds it afterwards, and its `Scored` result is the
  results summary it stores.
- **Random draws.** `random.choice` is `s[draw % |s|]`. `random.random() < 0.5`
  is a boolean. `random.shuffle` + `pop` and `random.sample` are one loop
  that draws without replacement by a `nat -> nat` of draws.
- **Errors.** Two Python exceptions the handlers can raise become
  ordinary results:
  - the `IndexError` of `track['artist'][0]` on an empty name is a `None` hint list;
  - the `ValueError` of `.index` is `LookupFailed`. It needs at least two kept ids, one of them missing from the ground truth: a single kept id forms no pair, is never looked up and scores 1.0.

  An unknown challenge in `submit_guess_personalized` raises a `KeyError`
  in `record_miss_for_type` before the commit. It is `Crashed`, with the
  player left unchanged.

Where the code differs from what its comments or the rest of the program
suggest, the model follows the code:

- **Popularity order.** The personalized ranking sorts popularity
  ascending (`src/routes/quiz_ranking.py:352`), while the random one sorts
  it descending.
- **No clamp.** `update_elo` has no rating clamp, so every 0.0 outcome
  lowers the rating by 16 (`Models.LossesUnbounded`).
- **Query handling.** `autocomplete_artist`/`autocomplete_title` lower-case
  the query without stripping it. `tab_autocomplete_artist` strips it.
- **Year guesses in the bin handler.** The year guess in
  `bin/routes/quiz.py` is stripped but not lower-cased. This makes no
  difference (`BinQuiz.AgreesWithCheckGuess`).
- **The hints import.** `generate_hints` is imported from the quiz_base
  module (`src/routes/quiz_personalized.py:13`, `src/routes/quiz_main.py:426`),
  which does not define it. The model uses its definition in
  `src/routes/quiz_main.py:186-228`.

## Model

| member | source | states |
|---|---|---|
| `Models.RoundHalfEven` | src/models.py:73 | the result is within one half of the argument, and on an exact tie it is even (Python 3 `round`) |
| `Models.RoundNearest` | src/models.py:73 | no integer is strictly closer to the argument than its rounding |
| `Models.RoundOfInteger` | src/models.py:73 | rounding an integral value gives that integer back |
| `Models.RoundMonotone` | src/models.py:73 | rounding never reverses the order of two values |
| `Models.NewEloEndpoints` | src/models.py:69-73 | outcome 1.0 adds 16, outcome 0.0 takes away 16, outcome 0.5 changes nothing |
| `Models.NewEloMonotone` | src/models.py:69-73 | a better outcome never gives a lower new rating |
| `Models.NewEloBounded` | src/models.py:69-73 | for an outcome in [0, 1] the rating moves by at most 16 either way |
| `Models.LossesUnbounded` | src/models.py:80-83 | n failed rounds in a row lower the rating by exactly 16·n; there is no floor |
| `Models.AccuracyOf` | src/models.py:46-49 | 0 without attempts; otherwise correct/attempts, so within [0, 1] when 0 ≤ correct ≤ attempts |
| `Models.LevelOf` | src/models.py:51-61 | the level is one of beginner, intermediate, advanced |
| `Models.LevelBands` | src/models.py:55-61 | beginner exactly below 0.3, intermediate exactly on [0.3, 0.8), advanced exactly from 0.8 |
| `Models.LevelMonotone` | src/models.py:51-61 | a higher accuracy never gives a lower level |
| `Models.User.constructor` | src/models.py:12-20 | a new player has both counters at 0, no missed songs and all four ratings at 1200 |
| `Models.User.Accuracy` | src/models.py:46-49 | 0 without attempts; within [0, 1] for a consistent record |
| `Models.User.UpdateElo` | src/models.py:63-88 | the one rating the approach and mode select becomes `round(old + 32·(outcome − 0.5))`; the other three, and all four for any other pair, stay as they were |
| `Text.Strip` | src/routes/quiz_main.py:456 | the result has no surrounding whitespace, and a text without any comes back unchanged |
| `Text.TrimStartSuffix` | src/routes/quiz_main.py:456 | removing the leading whitespace leaves a suffix of the text |
| `Text.StripIdempotent` | src/routes/quiz_base.py:47 | stripping twice is stripping once |
| `Text.LowerStripCommute` | src/routes/quiz_main.py:456 | `strip().lower()` equals `lower().strip()` |
| `Text.LowerDigits` | bin/routes/quiz.py:345-346 | lower-casing neither makes nor breaks a digit string, and leaves one unchanged |
| `Text.DecimalRoundTrip` | src/routes/quiz_main.py:476-477 | `int` of a number's decimal digits is that number |
| `Text.ParseIntRoundTrip` | src/routes/quiz_ranking.py:162-166 | `int` reads back every integer written in decimal, with a sign when negative |
| `Text.ParseIntGrouped` | src/routes/quiz_ranking.py:164 | `int` reads digits grouped by single underscores: "1_0" is 10 and "-2_5" is −25 |
| `Text.ParseIntMisgrouped` | src/routes/quiz_ranking.py:164-166 | a doubled, leading or trailing underscore is a `ValueError` |
| `Text.SplitJoinRoundTrip` | src/routes/quiz_ranking.py:128-129 | joining the pieces of `split(",")` with commas gives the text back |
| `Text.JoinSplitRoundTrip` | src/routes/quiz_ranking.py:128-129 | splitting comma-joined, comma-free pieces gives the pieces back |
| `Seqs.IndexOf` | src/routes/quiz_ranking.py:154-155 | `.index` returns the first position holding the element |
| `Seqs.RemoveFirstMultiset` | src/routes/quiz_main.py:503-504 | `remove` takes away exactly one copy of the element and nothing else |
| `Seqs.AddIfAbsent` | src/routes/quiz_main.py:510-511 | the element is present afterwards, the old list is a prefix, nothing else is added, and a list without repeats keeps none |
| `Seqs.Without` | src/routes/quiz_ranking.py:273 | exactly the elements of the list not in the other list remain, and no repeats appear |
| `Seqs.Within` | src/routes/quiz_ranking.py:131 | exactly the elements that are also in the other list remain; together with `Without` it accounts for every entry; a list wholly inside the other is kept as is |
| `Seqs.FiltersConcat` | src/routes/quiz_ranking.py:131 | both list comprehensions keep order and repetitions: filtering a concatenation is concatenating the filtered parts (also line 273) |
| `Seqs.WithoutSize` | src/routes/quiz_ranking.py:269-273 | removing c from a list without repeats leaves at least |list| − |c| elements |
| `Tracks.SortBy` | src/routes/quiz_ranking.py:140-143 | `sorted` returns a permutation of its input, ordered by the key |
| `Tracks.SortByStable` | src/routes/quiz_ranking.py:140-143 | elements with equal keys keep their input order (Python's sort is stable) |
| `Tracks.FindTrack` | src/routes/quiz_ranking.py:135-136 | a catalog track with the id, or `None` exactly when no track has it |
| `Tracks.FindTrackFirst` | src/routes/quiz_ranking.py:135-136 | the track found is the first one in catalog order with the id |
| `QuizBase.ParsePlaylistInput` | src/routes/quiz_base.py:45-46 | an absent or empty input gives "" (the same code is at src/routes/quiz_main.py lines 58-68) |
| `QuizBase.FindMatch` | src/routes/quiz_base.py:48 | the leftmost position where a playlist marker is followed by at least one alphanumeric, or `None` when there is no such position |
| `QuizBase.AlnumRun` | src/routes/quiz_base.py:48 | the maximal alphanumeric run at a position, as `([A-Za-z0-9]+)` captures it |
| `QuizBase.ParseUnpadded` | src/routes/quiz_base.py:45-53 | on input without surrounding whitespace, parsing is the marker search on the input itself |
| `QuizBase.ParseLeftmost` | src/routes/quiz_base.py:48-50 | the id is the alphanumeric run after the leftmost marker match |
| `QuizBase.ParseStrippedResult` | src/routes/quiz_base.py:48-53 | with a match the id is non-empty and alphanumeric; without one the text comes back unchanged |
| `QuizBase.ParseResult` | src/routes/quiz_base.py:45-53 | a non-empty input gives the matched id when its stripped form has a marker match, and the stripped input otherwise |
| `QuizBase.ParseIgnoresSurroundingSpace` | src/routes/quiz_base.py:47 | surrounding whitespace never changes the result |
| `QuizBase.ParseBareId` | src/routes/quiz_base.py:51-52 | a bare alphanumeric id is returned as it is |
| `QuizBase.ParseUri` | src/routes/quiz_base.py:48-50 | `spotify:playlist:<id>` gives the id |
| `QuizBase.ParseLink` | src/routes/quiz_base.py:48-50 | `https://open.spotify.com/playlist/<id>` with or without a `?` query gives the id |
| `QuizBase.BuddyLines` | src/routes/quiz_base.py:59-89 | the table has the keys correct, wrong and start, each with at least one line; strict gets the strict table and any other personality the friendly one |
| `QuizBase.BuddyLinesLackRank` | src/routes/quiz_base.py:60-88 | neither table has a rank or a hint category, for any personality |
| `QuizBase.SettingsFor` | src/routes/quiz_base.py:95-104 | exactly a beginner gets margin 3, 30 s and hints; exactly an intermediate margin 1, 15 s, no hints; exactly any other level margin 0, 5 s, no hints |
| `QuizBase.SettingsMonotone` | src/routes/quiz_base.py:99-104 | a higher level never gets a wider year margin or a longer snippet |
| `QuizBase.SettingsByAccuracy` | src/routes/quiz_base.py:95-104 | through `get_level`, a higher accuracy never gets a wider margin or a longer snippet |
| `Answers.YearMarginTiers` | src/routes/quiz.py:42-49 | easy accepts a difference of at most 3, normal at most 1, any other setting only the exact year; each tier accepts what a stricter one does (also src/routes/quiz_main.py lines 460-467 and bin/routes/quiz.py lines 36-43) |
| `Answers.AdaptiveMarginMonotone` | src/routes/quiz_personalized.py:115-119 | exact above a rating of 1400, within 2 otherwise: a higher rating never accepts a guess a lower one rejects |
| `Answers.CheckGuessIgnoresCase` | src/routes/quiz_main.py:456-479 | the letter case of the guess never changes the verdict |
| `Answers.CheckGuessAcceptsName` | src/routes/quiz_main.py:469-471 | the artist's own name, in any case, answers an artist question when the stored name has no surrounding whitespace |
| `Answers.PaddedNameUnmatchable` | src/routes/quiz_main.py:469-471 | a stored artist name starting with whitespace can never be matched, because only the guess is stripped |
| `Answers.CheckGuessAcceptsYear` | src/routes/quiz_main.py:475-479 | the release year written in digits is accepted under every tolerance |
| `Answers.CheckGuessUnknownChallenge` | src/routes/quiz_main.py:469-479 | a challenge other than artist, title or year is never answered correctly |
| `Answers.RemovalFacts` | src/routes/quiz_main.py:503-504 | removing the id keeps a repeat-free list repeat-free, without the id, and all other ids in place |
| `Answers.MissedAfter` | src/routes/quiz_main.py:500-514 | a correct answer removes the id, a wrong one makes it present, no other id changes, and no repeat appears |
| `Answers.RecordAnswer` | src/routes/quiz_main.py:481-514 | attempts go up by 1, correct by 1 exactly on a correct answer, the missed list follows `MissedAfter`, and correct ≤ attempts is kept |
| `Answers.DifficultyForAccuracy` | src/routes/quiz.py:287-293 | the difficulty is hard, easy or normal |
| `Answers.DifficultyBands` | src/routes/quiz.py:287-293 | hard exactly above 0.8, easy exactly below 0.3, normal exactly on [0.3, 0.8] (also bin/routes/quiz.py lines 293-299) |
| `Answers.DifficultyMonotone` | src/routes/quiz.py:287-293 | a higher accuracy never gets a wider year tolerance |
| `Answers.DifficultyAndLevelAtBoundary` | src/routes/quiz.py:288-293 | at accuracy 0.8 the player is advanced but still plays on normal, since the difficulty needs strictly more |
| `Answers.PickMissedOrRandom` | src/routes/quiz.py:295-302 | the track is in the catalog: the drawn missed id's track when the catalog has it, a random catalog track otherwise |
| `Answers.NextQuestion` | src/routes/quiz.py:286-306 | the question asks about a catalog track picked missed-first, one of the three types, at the accuracy's difficulty |
| `QuizMain.BuddyLines` | src/routes/quiz_main.py:70-119 | the table has correct, wrong, start, rank and hint, each with at least one line; strict gets the strict table and any other personality, or none, the friendly one |
| `QuizMain.BuddyLinesComplete` | src/routes/quiz_main.py:72-118 | every one of the five categories can be looked up for every personality |
| `QuizMain.MaxHints` | src/routes/quiz_main.py:196-200 | 1 exactly above a rating of 1400, 3 exactly otherwise |
| `QuizMain.DecadeOf` | src/routes/quiz_main.py:216 | a multiple of ten no later than the year and within ten years of it |
| `QuizMain.GenerateHints` | src/routes/quiz_main.py:186-228 | `HintsAsGenerated`: fails exactly on an empty name for its question; at most `MaxHints` hints; one hint per known type outside the personalized round; the extra hints in it up to 1400; only the first above 1400; no repeat reminder while the missed list has no repeats |
| `QuizMain.SubmitGuess` | src/routes/quiz_main.py:443-518 | no active track or an unknown track changes nothing; otherwise the shared matching with the session difficulty, the shared record update and the random guess rating 16 up on a right answer and 16 down on a wrong one |
| `QuizMain.LeastNames` | src/routes/quiz_main.py:586-587 | the first `limit` names in case-insensitive order: no repeats, sorted, as many as there are, and none left out sorts before one returned |
| `QuizMain.CollectMatching` | src/routes/quiz_main.py:582-585 | the loop collects exactly the stored names whose lower-cased form starts with the query |
| `QuizMain.Autocomplete` | src/routes/quiz_main.py:578-587 | an empty lower-cased query gives []; otherwise at most ten distinct matching names, each starting with the query ignoring case, sorted ignoring case, the least ones first |
| `QuizPersonalized.TypeStats` | src/routes/quiz_personalized.py:16-19 | counters absent from the session are created as three zeros |
| `QuizPersonalized.RecordMissForType` | src/routes/quiz_personalized.py:21-24 | fails exactly for a type other than the three; otherwise only that type's counter goes up, by one |
| `QuizPersonalized.PoolShape` | src/routes/quiz_personalized.py:32-35 | the pool is `misses + 1` copies of artist, then of title, then of year |
| `QuizPersonalized.PoolLayout` | src/routes/quiz_personalized.py:32-35 | the pool has total + 3 entries, and each position holds its section's type |
| `QuizPersonalized.PoolCounts` | src/routes/quiz_personalized.py:32-35 | each type occurs exactly its misses + 1 times |
| `QuizPersonalized.WeightedPool` | src/routes/quiz_personalized.py:32-35 | the loop builds a pool of total + 3 entries, laid out by section, with misses + 1 copies of each type |
| `QuizPersonalized.PickQuestionTypeAdaptive` | src/routes/quiz_personalized.py:26-37 | the counters created, and the type is `DrawnType` of the counters and the draw: uniform over the three before any miss, otherwise the pool entry the draw lands on |
| `QuizPersonalized.DrawnTypeSections` | src/routes/quiz_personalized.py:32-37 | with misses recorded, the drawn type is artist, title or year exactly when the draw falls in that type's section of `count + 1` places, in that order, of the pool of total + 3 |
| `QuizPersonalized.SnippetSeconds` | src/routes/quiz_personalized.py:48-53 | the snippet is 15, 30 or 45 seconds |
| `QuizPersonalized.SnippetTiers` | src/routes/quiz_personalized.py:48-53 | 45 s exactly below 1100, 15 s exactly above 1400, and never longer for a higher rating |
| `QuizPersonalized.NewPlayerGetsExtendedHints` | src/routes/quiz_personalized.py:71 | a player without attempts always gets the extended hints |
| `QuizPersonalized.MissedCandidates` | src/routes/quiz_personalized.py:59 | exactly the catalog tracks whose id is missed, with no repeats when the catalog has none |
| `QuizPersonalized.PickTrack` | src/routes/quiz_personalized.py:56-63 | none exactly for an empty catalog; otherwise a catalog track, a missed one when the coin falls below one half and there is one, a random one otherwise |
| `QuizPersonalized.PersonalizedVersion` | src/routes/quiz_personalized.py:41-89 | a redirect exactly for an empty catalog; otherwise the picked track, the adaptive type `DrawnType` of the session's counters and the type draw, the rating's snippet length, extended hints by accuracy and rating, the hints `HintsAsGenerated` with the extended flag as `generate_hints`' personalized flag (failure on an empty name, the exact lists, the cut), and the counters created |
| `QuizPersonalized.SubmitGuessPersonalized` | src/routes/quiz_personalized.py:94-177 | the guards change nothing; the year tolerance comes from the rating before the guess; the record update follows the outcome and the personalized guess rating goes 16 up or down; a miss adds to its type counter; an unknown challenge crashes with nothing changed |
| `QuizRanking.TakeDistinct` | src/routes/quiz_ranking.py:47-52 | the loop takes elements in list order without repeats until n are taken (at least one), and every element left out comes after all those taken |
| `QuizRanking.PickCloseTracks` | src/routes/quiz_ranking.py:31-53 | at most n tracks come back whole; otherwise between 1 and max(n, 1) distinct list tracks in non-decreasing distance from the anchor, none left out strictly closer, exactly max(n, 1) for a list without repeats |
| `QuizRanking.SpreadStepFits` | src/routes/quiz_ranking.py:69 | with more than n tracks the step is len // (n + 1) ≥ 1 and n·step < len |
| `QuizRanking.TakeStride` | src/routes/quiz_ranking.py:70-74 | the stride loop takes exactly n tracks, at sorted positions step, 2·step, …, n·step |
| `QuizRanking.PickSpreadTracks` | src/routes/quiz_ranking.py:56-82 | at most n tracks come back whole; otherwise exactly n at the stride positions of the sorted list, in key order, without repeats when the list has none, so the random top-up never runs |
| `QuizRanking.ValidTracks` | src/routes/quiz_ranking.py:138 | the catalog tracks of the offered ids, and every offered id the catalog has is represented |
| `QuizRanking.ValidTracksConcat` | src/routes/quiz_ranking.py:138 | the lookup keeps the offered order and repetitions: the tracks of concatenated ids are the tracks of each part in turn |
| `QuizRanking.GroundTruthTracks` | src/routes/quiz_ranking.py:138-144 | a permutation of the valid tracks, sorted by the round's key (also src/routes/quiz_ranking.py lines 348-353) |
| `QuizRanking.GroundTruthOrder` | src/routes/quiz_ranking.py:140-143 | years ascending in the timeline mode; popularity descending in the random round and ascending in the personalized round |
| `QuizRanking.GroundTruthStable` | src/routes/quiz_ranking.py:140-143 | tracks that tie on the key keep the offered order |
| `QuizRanking.GroundTruthCovers` | src/routes/quiz_ranking.py:138-144 | every offered id the catalog has appears in the ground truth |
| `QuizRanking.CountCorrectPairs` | src/routes/quiz_ranking.py:146-158 | the nested loop's fraction equals the pairwise correctness: the share of pairs whose ground-truth order the submission keeps, 1.0 with no pairs |
| `QuizRanking.PairsFormula` | src/routes/quiz_ranking.py:149-151 | the loop counts n·(n − 1)/2 pairs |
| `QuizRanking.CorrectPairsBounded` | src/routes/quiz_ranking.py:146-158 | never more correct pairs than pairs |
| `QuizRanking.CorrectnessBounds` | src/routes/quiz_ranking.py:146-158 | the correctness is within [0, 1], and 1.0 for fewer than two ids, whether or not the ground truth has them |
| `QuizRanking.AgreesAllCorrect` | src/routes/quiz_ranking.py:146-158 | a submission in ground-truth order gets every pair right |
| `QuizRanking.OpposesNoneCorrect` | src/routes/quiz_ranking.py:146-158 | a submission in strictly reversed order gets no pair right |
| `QuizRanking.IdentityScoresOne` | src/routes/quiz_ranking.py:146-158 | submitting the ground truth itself scores 1.0 |
| `QuizRanking.ReverseScoresZero` | src/routes/quiz_ranking.py:146-158 | submitting the exact reverse of at least two distinct ids scores 0.0 |
| `QuizRanking.DifficultyRating` | src/routes/quiz_ranking.py:162-167 | 3 when the field does not parse, otherwise the parsed number clamped to [1, 5] |
| `QuizRanking.DifficultyGroupedClamped` | src/routes/quiz_ranking.py:162-167 | "1_0" parses as 10 and is clamped to 5 rather than replaced by 3 |
| `QuizRanking.DifficultyRoundTrip` | src/routes/quiz_ranking.py:162-167 | each rating 1..5 reads back as itself; an absent field gives 3 |
| `QuizRanking.OutcomeBounds` | src/routes/quiz_ranking.py:168-169 | 0.7·correctness + 0.3·(d − 1)/4 lies in [0, 1], reaching 1.0 and 0.0 at the extremes |
| `QuizRanking.OutcomeMonotone` | src/routes/quiz_ranking.py:168-169 | more correctness or a higher difficulty never lowers the outcome |
| `QuizRanking.BaseCount` | src/routes/quiz_ranking.py:247-253 | the round offers 3 to 5 tracks |
| `QuizRanking.BaseCountTiers` | src/routes/quiz_ranking.py:247-253 | 3 exactly below 1100, 5 exactly above 1400, and never fewer for a higher rating |
| `QuizRanking.MissedQuota` | src/routes/quiz_ranking.py:264 | at least one, and at most half of a base of at least two, so `needed` is never negative |
| `QuizRanking.TakeRandom` | src/routes/quiz_ranking.py:265-267 | takes min(k, |pool|) entries from the pool without replacement, with no repeats when the pool has none |
| `QuizRanking.FillRemaining` | src/routes/quiz_ranking.py:274-286 | at most `needed` leftover tracks; the whole leftover when it has no more than `needed`; otherwise, when hard, tracks in order of distance from the anchor with none left out closer; when easy, exactly the `needed` tracks at the stride positions of the sorted leftover; else exactly `needed`; no repeats from a repeat-free leftover |
| `QuizRanking.MissedFirst` | src/routes/quiz_ranking.py:258-267 | behind the coin and with missed candidates, exactly min(quota, candidates) missed catalog tracks, none otherwise; always fewer than the base count |
| `QuizRanking.FillAfter` | src/routes/quiz_ranking.py:269-286 | the chosen tracks followed by the difficulty's fill of the `base − chosen` places from the catalog tracks not chosen, all catalog tracks, the base count for a large enough catalog without repeats |
| `QuizRanking.PersonalizedRank` | src/routes/quiz_ranking.py:233-293 | a redirect exactly for an empty catalog; otherwise the offer is exactly the missed part followed by the fill, a refusal exactly when that has fewer than two tracks; the missed part has exactly min(quota, candidates) missed tracks when the coin falls below one half and there are candidates, none otherwise; the fill is the session difficulty's (closest first when hard, evenly spread when easy) over the catalog tracks not chosen; an offer holds 2 to base-count catalog tracks without repeats, and exactly the base count for a large enough catalog without repeats |
| `QuizRanking.NonEmpty` | src/routes/quiz_ranking.py:129 | exactly the non-empty pieces remain, and a list without empty pieces is kept |
| `QuizRanking.NonEmptyConcat` | src/routes/quiz_ranking.py:129 | dropping the empty pieces keeps the others in order |
| `QuizRanking.CommaIds` | src/routes/quiz_ranking.py:128-129 | the submitted ids are non-empty and comma-free |
| `QuizRanking.CommaIdsRoundTrip` | src/routes/quiz_ranking.py:128-129 | the page's comma-joined order of alphanumeric ids reads back as that order |
| `QuizRanking.RankedPairs` | src/routes/quiz_ranking.py:333-337 | exactly the offered ids with a digit rank field, each paired with its rank |
| `QuizRanking.RankedPairsConcat` | src/routes/quiz_ranking.py:333-337 | the pairs come in the offered order, one per ranked offered id |
| `QuizRanking.RankFieldOrder` | src/routes/quiz_ranking.py:333-339 | exactly the offered ids with a digit rank field, in non-decreasing rank |
| `QuizRanking.RankFieldOrderStable` | src/routes/quiz_ranking.py:338-339 | ids given the same rank keep the offered order |
| `QuizRanking.FinalIds` | src/routes/quiz_ranking.py:131-133 | only offered ids; the submitted ids that were offered when there are any, else the whole offered list |
| `QuizRanking.FinalIdsKeepsOffered` | src/routes/quiz_ranking.py:131-133 | a submission of offered ids is kept exactly as submitted |
| `QuizRanking.SubmitRank` | src/routes/quiz_ranking.py:320-397 | nothing offered changes nothing; a lookup failure (two or more kept ids, one missing from the ground truth) changes nothing; a single kept id is scored 1.0 even when the catalog lacks it; otherwise the filtered order, ground truth, correctness, difficulty and outcome are committed, only the round's rank rating moves, to `NewElo` of the outcome, by at most 16 (also src/routes/quiz_ranking.py lines 120-185); a scored personalized ranking clears the offer (line 385), so the same post again is `NoTracks`, while the random round and the unscored paths keep it |
| `QuizRanking.SubmissionAlwaysScored` | src/routes/quiz_ranking.py:131-144 | while the catalog still has every offered id, the `.index` lookups cannot fail |
| `QuizRanking.RankingResults` | src/routes/quiz_ranking.py:430-440 | the pairs list has the longer length; each side holds its looked-up track, and `None` past its end |
| `QuizRanking.RankSizeChoicesAsWritten` | src/routes/quiz_ranking.py:97-103 | the round size is drawn from 2, 3, … with min(len, 3) choices |
| `QuizRanking.RankSizeExceedsCatalog` | src/routes/quiz_ranking.py:97-110 | with 2 or 3 tracks the largest choice is |catalog| + 1, which no repeat-free sample from the catalog reaches |
| `QuizRanking.RankSizeChoices` | src/routes/quiz_ranking.py:97-103 | the corrected choices run from 2 to min(len, 4), never more than the catalog holds |
| `QuizRanking.RankSizeChoicesFit` | src/routes/quiz_ranking.py:97-103 | for at least two tracks there is a choice, the largest is min(len, 4), and each lies within [2, len] |
| `QuizRanking.RankLineCount` | src/routes/quiz_ranking.py:244 | with the table that has a rank category there is always a line to pick |
| `QuizLegacy.WithFallback` | src/routes/quiz.py:208-229 | afterwards the catalog is non-empty; a non-empty catalog is untouched; an empty one gets the two distinct fallback tracks |
| `QuizLegacy.WithFallbackIdempotent` | src/routes/quiz.py:228-229 | a second fallback changes nothing |
| `QuizLegacy.FallbackSongsAnswerable` | src/routes/quiz.py:214-227 | each fallback track's artist and year are accepted answers |
| `QuizLegacy.Catalog.constructor` | src/routes/quiz.py:12 | the catalog holds the given tracks |
| `QuizLegacy.Catalog.FallbackAddMinimumTracks` | src/routes/quiz.py:228-229 | the list becomes `WithFallback` of the old list |
| `QuizLegacy.PersonalizedVersion` | src/routes/quiz.py:278-308 | the catalog is seeded first, so there is always a question; it asks about a catalog track, missed-first, at the accuracy's difficulty |
| `QuizLegacy.SubmitGuess` | src/routes/quiz.py:315-364 | the guards change nothing; otherwise the shared matching under the session difficulty and the shared record update; no rating moves |
| `QuizLegacy.TabAutocompleteArtist` | src/routes/quiz.py:407-415 | "" for an empty stripped query; a non-empty result is a lower-cased artist starting with the query; "" exactly when the query is empty or no artist matches |
| `BinQuiz.MaxTracks` | bin/routes/quiz.py:141-146 | the number when the field is all digits and at least 1, else 9999 |
| `BinQuiz.MaxTracksRoundTrip` | bin/routes/quiz.py:141-146 | every positive limit written in digits reads back as itself; "0", an absent field and a padded number give 9999 |
| `BinQuiz.PersonalizedVersion` | bin/routes/quiz.py:287-314 | a redirect exactly for an empty catalog; otherwise a catalog track at the accuracy's difficulty, the drawn missed track when the catalog has it |
| `BinQuiz.AgreesWithCheckGuess` | bin/routes/quiz.py:336-349 | for artist, title and year this handler judges as the shared matching does |
| `BinQuiz.BothNeedsBoth` | bin/routes/quiz.py:350-353 | "both" is right exactly when the artist field names the artist and the title field names the title, ignoring case |
| `BinQuiz.SubmitGuess` | bin/routes/quiz.py:321-372 | the guards change nothing; otherwise matching with "both", the shared record update, and no rating moves |

## Left out

- Flask routing, templates, `flash`, `redirect`, login checks and the database commit: plumbing around the rules.
- Spotify: the OAuth flow, the paged playlist fetch, preview lookups and the playlist listings. These are network calls.
- JSON (de)serialisation of `missed_songs` and `preferences_json`: the missed list is a `seq<string>` directly.
- The buddy messages, music facts, hint wording and feedback text: only each hint's kind and count are modelled, and only the size of each line table.
- The time taken in `submit_guess_personalized` and the "lightning speed" message: they depend on the clock and only choose text.
- `GuessLog` rows: written to the database and read by nothing modelled.
- `random_rank`'s sampling loop (src/routes/quiz_ranking.py:105-110) may never end, so it is not a method here. Its size choice is modelled, and `QuizRanking.RankSizeExceedsCatalog` shows why the loop can spin. It also spins when tracks share a popularity value.
- `random_version` of src/routes/quiz_main.py, src/routes/quiz.py and bin/routes/quiz.py: a random track and type, nothing more to state. The one in src/routes/quiz_main.py, when it shows a hint, would also fail on its `generate_hints` import (line 426).
- `personalized_mistakes`, `rank_mistakes_only` and `personalized_rank_from_session`: the rank-mistakes screens outside the ranking rules. They reuse the catalog lookup and the filters modelled here.
- `download_db`, `settings`, `dashboard` and `scoreboard`: file I/O and display.
- The selection loop in `pick_spread_tracks` after the stride (src/routes/quiz_ranking.py:77-81) is not written out, because it is proved never to run (`QuizRanking.PickSpreadTracks`).
- `Text.IsDigits`: ASCII digits only. Python's `str.isdigit` is also true of other Unicode digits. For some of them, such as the superscript `"²"`, the `int()` that follows raises a `ValueError` that no handler catches. A year guess of `"²"` therefore ends the request before anything is recorded, while `Answers.CheckGuess` judges it wrong and the handlers record a miss and move the guess rating 16 down. The same holds for a rank field (`QuizRanking.RankedPairs`) and for `max_tracks` (`BinQuiz.MaxTracks`).
- `Text.ParseInt`: reads ASCII digits only. Python's `int()` also reads the other Unicode decimal digits (`"٣"` is 3). Underscore grouping is modelled.
- `QuizRanking.DifficultyRating`: follows `Text.ParseInt`, so a difficulty written in non-ASCII decimal digits gives 3 here, while Python reads the number and clamps it.
- `Text.Lower` and `Text.IsAlnum`: ASCII letters only. Python's `str.lower` and `str.isalnum` also map and accept other Unicode letters.
- Floating point: fractions are exact reals, so IEEE rounding of `0.7 * c + 0.3 * r` is not modelled.
- The fallback tracks in src/routes/quiz.py have no popularity field. The model gives them popularity 0, which no handler of that file reads.
- `QuizRanking.PersonalizedRank`: models the round after the buddy line is chosen. As written, that line raises a `KeyError` first (see Findings).
- The `needed < 0` branch of `personalized_rank` is not modelled: `QuizRanking.MissedQuota` proves it dead. For the same reason its `needed > 0` test always holds, and `QuizRanking.FillAfter` fills without it.

## Findings

| source | as written | input that shows it | evidently intended | confidence | as-written member | corrected member |
|---|---|---|---|---|---|---|
| src/routes/quiz_ranking.py:244 | `random.choice(lines['rank'])` on the table from `routes.quiz_base`, whose categories are only correct, wrong and start, so `random_rank` (line 95) and `personalized_rank` (line 244) raise `KeyError` before any track is chosen | any session, any buddy personality | the table of src/routes/quiz_main.py, which has a rank category for both personalities | high, not executed | `QuizBase.BuddyLinesLackRank` | `QuizRanking.RankLineCount` |
| src/routes/quiz_ranking.py:103 | `n = random.choice([2, 3, 4][:max_n])` with `max_n = min(len(ALL_TRACKS), 4)` offers one size more than the catalog holds when it has 2 or 3 tracks, and the loop that wants `n` distinct tracks never ends | a catalog of two tracks and the draw n = 3 | sizes 2 to `max_n` only, `[2, 3, 4][:max_n - 1]` | high, not executed | `QuizRanking.RankSizeExceedsCatalog` | `QuizRanking.RankSizeChoicesFit` |
