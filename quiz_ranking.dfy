/**
 * The ranking rounds of `src/routes/quiz_ranking.py`: choosing tracks that
 * are close together or spread apart, sizing the personalized round,
 * reading back the submitted order, the ground-truth order, the pairwise
 * score and the outcome that moves the ranking rating.
 */
module QuizRanking {
  import opened Prelude
  import opened Text
  import opened Seqs
  import opened Tracks
  import opened Models
  import QuizBase
  import QuizMain
  import QuizPersonalized

  // ---------------------------------------------------------------------
  // Close tracks ("hard")
  // ---------------------------------------------------------------------

  /** The distance `pick_close_tracks` sorts by: to the anchor's year in the
      timeline mode, to its popularity in any other mode. */
  function CloseKey(mode: string, anchor: Track): SortKey
  {
    if mode == "timeline" then ByYearDistance(anchor.year) else ByPopularityDistance(anchor.popularity)
  }

  /** The loop of `pick_close_tracks`: walks `s` in order, appends each
      element not taken yet, and stops once `n` are taken (checked after the
      first step).  `pos` records where each taken element was found. */
  method TakeDistinct<T(==)>(s: seq<T>, n: nat) returns (chosen: seq<T>, ghost pos: seq<nat>)
    ensures |pos| == |chosen|
    ensures forall m :: 0 <= m < |chosen| ==> pos[m] < |s| && chosen[m] == s[pos[m]]
    ensures forall m1, m2 :: 0 <= m1 < m2 < |chosen| ==> pos[m1] < pos[m2]
    ensures NoDup(chosen)
    // An element left out lies after every position taken from.
    ensures forall k, m :: 0 <= k < |s| && s[k] !in chosen && 0 <= m < |chosen| ==> pos[m] < k
    ensures |s| > 0 ==> 0 < |chosen| <= Max(n, 1)
    ensures NoDup(s) && |s| > n ==> |chosen| == Max(n, 1)
  {
    chosen := [];
    pos := [];
    var i := 0;
    while i < |s| && (i == 0 || |chosen| < n)
      invariant 0 <= i <= |s|
      invariant |pos| == |chosen|
      invariant forall m :: 0 <= m < |chosen| ==> pos[m] < i && chosen[m] == s[pos[m]]
      invariant forall m1, m2 :: 0 <= m1 < m2 < |chosen| ==> pos[m1] < pos[m2]
      invariant forall k :: 0 <= k < i ==> s[k] in chosen
      invariant NoDup(chosen)
      invariant |chosen| <= i && (i > 0 ==> 0 < |chosen| <= Max(n, 1))
      invariant NoDup(s) ==> |chosen| == i
    {
      var t := s[i];
      ghost var before := chosen;
      if t !in chosen {
        NoDupConcat(chosen, [t]);
        chosen := chosen + [t];
        pos := pos + [i];
      }
      assert t in chosen && forall x :: x in before ==> x in chosen;
      i := i + 1;
    }
  }

  /** `pick_close_tracks` with the anchor's random index passed in.  A list
      of at most `n` tracks comes back whole.  Otherwise the tracks sorted by
      distance from the anchor are taken in order, skipping repeats, until
      there are `n` of them; the check comes after the first append, so
      `n == 0` still yields one track. */
  method PickCloseTracks(tracks: seq<Track>, n: nat, mode: string, anchorDraw: nat)
    returns (chosen: seq<Track>)
    ensures |tracks| <= n ==> chosen == tracks
    ensures forall t :: t in chosen ==> t in tracks
    ensures NoDup(tracks) ==> NoDup(chosen)
    ensures |tracks| > n ==>
      var k := CloseKey(mode, Choice(tracks, anchorDraw));
      && NoDup(chosen)
      && 0 < |chosen| <= Max(n, 1)
      && SortedBy(chosen, Key(k))
      // No track left out is strictly closer to the anchor than one taken.
      && (forall t, c :: t in tracks && t !in chosen && c in chosen ==> KeyOf(k, c) <= KeyOf(k, t))
      && (NoDup(tracks) ==> |chosen| == Max(n, 1))
  {
    if |tracks| <= n {
      return tracks;
    }
    var anchor := Choice(tracks, anchorDraw);
    var k := CloseKey(mode, anchor);
    var sorted := SortBy(tracks, Key(k));
    if NoDup(tracks) {
      NoDupPermutation(tracks, sorted);
    }
    ghost var pos;
    chosen, pos := TakeDistinct(sorted, n);
    CloseFacts(tracks, sorted, chosen, pos, k);
  }

  /** What the sorted walk gives: every track taken is from the list, they
      are in order of distance, and none left out is closer. */
  lemma CloseFacts(tracks: seq<Track>, sorted: seq<Track>, chosen: seq<Track>, pos: seq<nat>, k: SortKey)
    requires multiset(sorted) == multiset(tracks) && SortedBy(sorted, Key(k))
    requires |pos| == |chosen|
    requires forall m :: 0 <= m < |chosen| ==> pos[m] < |sorted| && chosen[m] == sorted[pos[m]]
    requires forall m1, m2 :: 0 <= m1 < m2 < |chosen| ==> pos[m1] < pos[m2]
    requires forall j, m :: 0 <= j < |sorted| && sorted[j] !in chosen && 0 <= m < |chosen| ==> pos[m] < j
    ensures forall t :: t in chosen ==> t in tracks
    ensures SortedBy(chosen, Key(k))
    ensures forall t, c :: t in tracks && t !in chosen && c in chosen ==> KeyOf(k, c) <= KeyOf(k, t)
  {
    forall c | c in chosen ensures c in tracks {
      assert c in multiset(sorted);
    }
    forall a, b | 0 <= a < b < |chosen| ensures KeyOf(k, chosen[a]) <= KeyOf(k, chosen[b]) {
      assert Key(k)(sorted[pos[a]]) <= Key(k)(sorted[pos[b]]);
    }
    forall t, c | t in tracks && t !in chosen && c in chosen ensures KeyOf(k, c) <= KeyOf(k, t) {
      assert t in multiset(sorted);
      var j :| 0 <= j < |sorted| && sorted[j] == t;
      var m :| 0 <= m < |chosen| && chosen[m] == c;
      assert Key(k)(sorted[pos[m]]) <= Key(k)(sorted[j]);
    }
  }

  // ---------------------------------------------------------------------
  // Spread tracks ("easy")
  // ---------------------------------------------------------------------

  /** The order `pick_spread_tracks` takes from: by year in the timeline
      mode, by popularity in any other. */
  function SpreadKey(mode: string): SortKey
  {
    if mode == "timeline" then ByYear else ByPopularity
  }

  /** `step = max(1, len(sorted_all) // (n + 1))`. */
  function SpreadStep(len: nat, n: nat): nat
  {
    Max(1, len / (n + 1))
  }

  /** With more tracks than wanted the step is the quotient itself, at least
      one, and `n` steps stay inside the list. */
  lemma SpreadStepFits(len: nat, n: nat)
    requires len > n
    ensures SpreadStep(len, n) == len / (n + 1) >= 1
    ensures n * SpreadStep(len, n) < len
  {
    var q := len / (n + 1);
    assert q * (n + 1) == len - len % (n + 1);
    assert len - len % (n + 1) > 0;
    assert q >= 1;
    assert n * q < q * (n + 1);
  }

  /** The position of the `m`-th track the stride loop takes. */
  function Stride(m: nat, step: nat): nat
  {
    (m + 1) * step
  }

  /** The positions step, 2 step, ... advance by `step` and the first `n` fit. */
  lemma StrideFacts(m: nat, n: nat, step: nat, len: nat)
    requires step >= 1 && n * step < len
    ensures Stride(m + 1, step) == Stride(m, step) + step
    ensures m < n ==> Stride(m, step) < len
    ensures m + 1 >= n ==> n * step <= Stride(m, step)
  {
    if m < n {
      assert (m + 1) * step <= n * step;
    }
  }

  lemma StrideIncreasing(a: nat, b: nat, step: nat)
    requires a < b && step >= 1
    ensures Stride(a, step) < Stride(b, step)
  {
    assert (b + 1) * step == (a + 1) * step + (b - a) * step;
  }

  /** The stride loop of `pick_spread_tracks`: from `idx = step`, append
      `s[idx]` and advance by `step` while inside `s` and fewer than `n`. */
  method TakeStride<T>(s: seq<T>, n: nat, step: nat) returns (chosen: seq<T>)
    requires step >= 1 && n * step < |s|
    ensures |chosen| == n
    ensures forall m :: 0 <= m < n ==> Stride(m, step) < |s| && chosen[m] == s[Stride(m, step)]
  {
    chosen := [];
    var idx := step;
    while idx < |s| && |chosen| < n
      invariant idx == Stride(|chosen|, step)
      invariant |chosen| <= n
      invariant forall m :: 0 <= m < |chosen| ==> Stride(m, step) < |s| && chosen[m] == s[Stride(m, step)]
    {
      StrideFacts(|chosen|, n, step, |s|);
      chosen := chosen + [s[idx]];
      idx := idx + step;
    }
    StrideFacts(|chosen|, n, step, |s|);
  }

  /** Tracks taken at increasing positions of a sorted permutation are from
      the list, stay sorted, and are distinct when the list is. */
  lemma SpreadFacts(tracks: seq<Track>, sorted: seq<Track>, chosen: seq<Track>, step: nat, k: SortKey)
    requires multiset(sorted) == multiset(tracks) && SortedBy(sorted, Key(k)) && step >= 1
    requires forall m :: 0 <= m < |chosen| ==> Stride(m, step) < |sorted| && chosen[m] == sorted[Stride(m, step)]
    ensures forall t :: t in chosen ==> t in tracks
    ensures SortedBy(chosen, Key(k))
    ensures NoDup(tracks) ==> NoDup(chosen)
  {
    forall c | c in chosen ensures c in tracks {
      assert c in multiset(sorted);
    }
    if NoDup(tracks) {
      NoDupPermutation(tracks, sorted);
    }
    forall a, b | 0 <= a < b < |chosen|
      ensures KeyOf(k, chosen[a]) <= KeyOf(k, chosen[b]) && (NoDup(sorted) ==> chosen[a] != chosen[b])
    {
      StrideIncreasing(a, b, step);
      assert chosen[a] == sorted[Stride(a, step)] && chosen[b] == sorted[Stride(b, step)];
      assert Key(k)(sorted[Stride(a, step)]) <= Key(k)(sorted[Stride(b, step)]);
    }
  }

  /** `pick_spread_tracks`.  A list of at most `n` tracks comes back whole.
      Otherwise the stride loop takes the sorted tracks at positions step,
      2 step, ..., n step, which always gives `n` tracks, so the random
      top-up that follows it never runs. */
  method PickSpreadTracks(tracks: seq<Track>, n: nat, mode: string) returns (chosen: seq<Track>)
    ensures |tracks| <= n ==> chosen == tracks
    ensures forall t :: t in chosen ==> t in tracks
    ensures |tracks| > n ==>
      var sorted := SortBy(tracks, Key(SpreadKey(mode)));
      var step := SpreadStep(|tracks|, n);
      && |chosen| == n
      && (forall m :: 0 <= m < n ==> Stride(m, step) < |tracks| && chosen[m] == sorted[Stride(m, step)])
      && SortedBy(chosen, Key(SpreadKey(mode)))
      && (NoDup(tracks) ==> NoDup(chosen))
  {
    if |tracks| <= n {
      return tracks;
    }
    var sorted := SortBy(tracks, Key(SpreadKey(mode)));
    var step := SpreadStep(|sorted|, n);
    SpreadStepFits(|sorted|, n);
    chosen := TakeStride(sorted, n, step);
    SpreadFacts(tracks, sorted, chosen, step, SpreadKey(mode));
  }

  // ---------------------------------------------------------------------
  // The ground-truth order
  // ---------------------------------------------------------------------

  /** Which round a submission belongs to. */
  datatype Approach = RandomRound | PersonalizedRound

  /** `[get_track(tid) for tid in track_ids if get_track(tid)]`: the offered
      ids the catalog still has, as tracks, in the offered order. */
  function ValidTracks(catalog: seq<Track>, ids: seq<string>): (r: seq<Track>)
    ensures |r| <= |ids|
    ensures forall t :: t in r ==> t in catalog
    ensures forall t :: t in r ==> t.id in ids
    ensures forall x :: x in ids && FindTrack(catalog, x).Some? ==> exists t :: t in r && t.id == x
    decreases |ids|
  {
    if ids == [] then []
    else
      var rest := ValidTracks(catalog, ids[1..]);
      match FindTrack(catalog, ids[0])
      case Some(t) => [t] + rest
      case None => rest
  }

  /** The lookup keeps the offered order and repetitions: the tracks of a
      concatenation of ids are the tracks of each part, one after the other. */
  lemma {:induction false} ValidTracksConcat(catalog: seq<Track>, a: seq<string>, b: seq<string>)
    ensures ValidTracks(catalog, a + b) == ValidTracks(catalog, a) + ValidTracks(catalog, b)
    decreases |a|
  {
    if a == [] {
      assert a + b == b;
    } else {
      var head := match FindTrack(catalog, a[0]) case Some(t) => [t] case None => [];
      assert (a + b)[0] == a[0] && (a + b)[1..] == a[1..] + b;
      assert ValidTracks(catalog, a + b) == head + ValidTracks(catalog, a[1..] + b);
      assert ValidTracks(catalog, a) == head + ValidTracks(catalog, a[1..]);
      ValidTracksConcat(catalog, a[1..], b);
      ConcatAssoc(head, ValidTracks(catalog, a[1..]), ValidTracks(catalog, b));
    }
  }

  /** Timeline rounds sort by year; popularity rounds sort by popularity,
      descending in the random round (`reverse=True`) and ascending in the
      personalized one. */
  function TruthKey(approach: Approach, mode: string): SortKey
  {
    if mode == "timeline" then ByYear
    else if approach == RandomRound then ByPopularityDesc
    else ByPopularity
  }

  /** `correct_ordered`: the valid tracks, stably sorted. */
  function GroundTruthTracks(catalog: seq<Track>, ids: seq<string>, approach: Approach, mode: string): (r: seq<Track>)
    ensures multiset(r) == multiset(ValidTracks(catalog, ids))
    ensures SortedBy(r, Key(TruthKey(approach, mode)))
  {
    SortBy(ValidTracks(catalog, ids), Key(TruthKey(approach, mode)))
  }

  /** `correct_ids_in_order`. */
  function GroundTruth(catalog: seq<Track>, ids: seq<string>, approach: Approach, mode: string): seq<string>
  {
    IdsOf(GroundTruthTracks(catalog, ids, approach, mode))
  }

  /** The order each round promises: years ascending in the timeline mode;
      otherwise popularity descending in the random round and ascending in
      the personalized round. */
  lemma GroundTruthOrder(catalog: seq<Track>, ids: seq<string>, approach: Approach, mode: string, a: nat, b: nat)
    requires a < b < |GroundTruthTracks(catalog, ids, approach, mode)|
    ensures var g := GroundTruthTracks(catalog, ids, approach, mode);
      && (mode == "timeline" ==> g[a].year <= g[b].year)
      && (mode != "timeline" && approach == RandomRound ==> g[a].popularity >= g[b].popularity)
      && (mode != "timeline" && approach == PersonalizedRound ==> g[a].popularity <= g[b].popularity)
  {
    var g := GroundTruthTracks(catalog, ids, approach, mode);
    assert Key(TruthKey(approach, mode))(g[a]) <= Key(TruthKey(approach, mode))(g[b]);
  }

  /** Tracks that tie on the sort key keep the offered order. */
  lemma GroundTruthStable(catalog: seq<Track>, ids: seq<string>, approach: Approach, mode: string, v: int)
    ensures WithKey(GroundTruthTracks(catalog, ids, approach, mode), Key(TruthKey(approach, mode)), v)
         == WithKey(ValidTracks(catalog, ids), Key(TruthKey(approach, mode)), v)
  {
    SortByStable(ValidTracks(catalog, ids), Key(TruthKey(approach, mode)), v);
  }

  /** Every id the catalog still has is somewhere in the ground truth. */
  lemma {:induction false} GroundTruthCovers(catalog: seq<Track>, ids: seq<string>, approach: Approach, mode: string, x: string)
    requires x in ids && FindTrack(catalog, x).Some?
    ensures x in GroundTruth(catalog, ids, approach, mode)
  {
    var v := ValidTracks(catalog, ids);
    var g := GroundTruthTracks(catalog, ids, approach, mode);
    var t :| t in v && t.id == x;
    assert t in multiset(g);
    var m :| 0 <= m < |g| && g[m] == t;
    assert IdsOf(g)[m] == x;
  }

  // ---------------------------------------------------------------------
  // Pairwise score
  // ---------------------------------------------------------------------

  predicate AllIn(order: seq<string>, truth: seq<string>)
  {
    forall x :: x in order ==> x in truth
  }

  /** The `.index` lookups of `count_correct_pairs` all succeed: with fewer
      than two ids there is no pair and so no lookup at all; otherwise every
      id is part of some pair and has to be in the ground truth. */
  predicate Scorable(order: seq<string>, truth: seq<string>)
  {
    |order| < 2 || AllIn(order, truth)
  }

  /** How many later entries of `rest` the ground truth also puts after `x`. */
  function Row(x: string, rest: seq<string>, truth: seq<string>): (c: nat)
    requires x in truth && AllIn(rest, truth)
    ensures c <= |rest|
    decreases |rest|
  {
    if rest == [] then 0
    else (if IndexOf(truth, x) < IndexOf(truth, rest[0]) then 1 else 0) + Row(x, rest[1..], truth)
  }

  /** The number of pairs `i < j` of `order` in the same order as in `truth`. */
  function CorrectPairs(order: seq<string>, truth: seq<string>): nat
    requires AllIn(order, truth)
    decreases |order|
  {
    if order == [] then 0 else Row(order[0], order[1..], truth) + CorrectPairs(order[1..], truth)
  }

  /** The number of pairs `i < j` of a list of length `n`. */
  function Pairs(n: nat): (p: nat)
    ensures p == 0 <==> n < 2
  {
    if n == 0 then 0 else (n - 1) + Pairs(n - 1)
  }

  lemma {:induction false} PairsFormula(n: nat)
    ensures 2 * Pairs(n) == n * (n - 1)
  {
    if n > 0 {
      PairsFormula(n - 1);
    }
  }

  /** `count_correct_pairs`: the fraction of pairs in the right order, and 1
      when there is no pair at all. */
  function Correctness(order: seq<string>, truth: seq<string>): real
    requires Scorable(order, truth)
  {
    if Pairs(|order|) == 0 then 1.0
    else CorrectPairs(order, truth) as real / Pairs(|order|) as real
  }

  /** The nested loops of `count_correct_pairs`.  The requirement is the
      source's own: `.index` raises for an id of a pair that the ground
      truth lacks. */
  method CountCorrectPairs(order: seq<string>, truth: seq<string>) returns (fraction: real)
    requires Scorable(order, truth)
    ensures fraction == Correctness(order, truth)
  {
    var correctCount := 0;
    var totalPairs := 0;
    for i := 0 to |order|
      invariant AllIn(order, truth) ==> correctCount + CorrectPairs(order[i..], truth) == CorrectPairs(order, truth)
      invariant totalPairs + Pairs(|order| - i) == Pairs(|order|)
    {
      assert order[i..][1..] == order[i + 1..];
      for j := i + 1 to |order|
        invariant AllIn(order, truth) ==>
          correctCount + Row(order[i], order[j..], truth) + CorrectPairs(order[i + 1..], truth)
          == CorrectPairs(order, truth)
        invariant totalPairs + (|order| - j) + Pairs(|order| - i - 1) == Pairs(|order|)
      {
        assert order[j..][1..] == order[j + 1..];
        totalPairs := totalPairs + 1;
        var idxI := IndexOf(truth, order[i]);
        var idxJ := IndexOf(truth, order[j]);
        if idxI < idxJ {
          correctCount := correctCount + 1;
        }
      }
    }
    assert order[|order|..] == [];
    if totalPairs == 0 {
      fraction := 1.0;
    } else {
      fraction := correctCount as real / totalPairs as real;
    }
  }

  lemma {:induction false} CorrectPairsBounded(order: seq<string>, truth: seq<string>)
    requires AllIn(order, truth)
    ensures CorrectPairs(order, truth) <= Pairs(|order|)
    decreases |order|
  {
    if order != [] {
      CorrectPairsBounded(order[1..], truth);
    }
  }

  /** The score is a fraction in [0, 1], and 1 for fewer than two ids. */
  lemma CorrectnessBounds(order: seq<string>, truth: seq<string>)
    requires Scorable(order, truth)
    ensures 0.0 <= Correctness(order, truth) <= 1.0
    ensures |order| < 2 ==> Correctness(order, truth) == 1.0
  {
    if Pairs(|order|) > 0 {
      CorrectPairsBounded(order, truth);
      FractionBounds(CorrectPairs(order, truth), Pairs(|order|));
    }
  }

  lemma FractionBounds(c: nat, p: nat)
    requires 0 < p && c <= p
    ensures 0.0 <= c as real / p as real <= 1.0
  {
    assert c as real / p as real * p as real == c as real;
  }

  /** Positions in `truth` increasing along `order`. */
  predicate Agrees(order: seq<string>, truth: seq<string>)
    requires AllIn(order, truth)
  {
    forall a, b :: 0 <= a < b < |order| ==> IndexOf(truth, order[a]) < IndexOf(truth, order[b])
  }

  /** Positions in `truth` never increasing along `order`. */
  predicate Opposes(order: seq<string>, truth: seq<string>)
    requires AllIn(order, truth)
  {
    forall a, b :: 0 <= a < b < |order| ==> IndexOf(truth, order[a]) >= IndexOf(truth, order[b])
  }

  lemma {:induction false} RowAll(x: string, rest: seq<string>, truth: seq<string>)
    requires x in truth && AllIn(rest, truth)
    requires forall k :: 0 <= k < |rest| ==> IndexOf(truth, x) < IndexOf(truth, rest[k])
    ensures Row(x, rest, truth) == |rest|
    decreases |rest|
  {
    if rest != [] {
      RowAll(x, rest[1..], truth);
    }
  }

  lemma {:induction false} RowNone(x: string, rest: seq<string>, truth: seq<string>)
    requires x in truth && AllIn(rest, truth)
    requires forall k :: 0 <= k < |rest| ==> IndexOf(truth, x) >= IndexOf(truth, rest[k])
    ensures Row(x, rest, truth) == 0
    decreases |rest|
  {
    if rest != [] {
      RowNone(x, rest[1..], truth);
    }
  }

  lemma {:induction false} AgreesAllCorrect(order: seq<string>, truth: seq<string>)
    requires AllIn(order, truth) && Agrees(order, truth)
    ensures CorrectPairs(order, truth) == Pairs(|order|)
    decreases |order|
  {
    if order != [] {
      var rest := order[1..];
      assert forall k :: 0 <= k < |rest| ==> rest[k] == order[k + 1];
      RowAll(order[0], rest, truth);
      AgreesAllCorrect(rest, truth);
    }
  }

  lemma {:induction false} OpposesNoneCorrect(order: seq<string>, truth: seq<string>)
    requires AllIn(order, truth) && Opposes(order, truth)
    ensures CorrectPairs(order, truth) == 0
    decreases |order|
  {
    if order != [] {
      var rest := order[1..];
      assert forall k :: 0 <= k < |rest| ==> rest[k] == order[k + 1];
      RowNone(order[0], rest, truth);
      OpposesNoneCorrect(rest, truth);
    }
  }

  /** Without repetitions every id is found at its own position. */
  lemma NoDupAgreesWithItself(truth: seq<string>)
    requires NoDup(truth)
    ensures AllIn(truth, truth) && Agrees(truth, truth)
  {
    forall a, b | 0 <= a < b < |truth| ensures IndexOf(truth, truth[a]) < IndexOf(truth, truth[b]) {
      IndexOfNoDup(truth, a);
      IndexOfNoDup(truth, b);
    }
  }

  /** Submitting the ground truth itself scores 1. */
  lemma IdentityScoresOne(truth: seq<string>)
    requires NoDup(truth)
    ensures Correctness(truth, truth) == 1.0
  {
    NoDupAgreesWithItself(truth);
    AgreesAllCorrect(truth, truth);
    if Pairs(|truth|) > 0 {
      FractionOne(Pairs(|truth|));
    }
  }

  lemma FractionOne(p: nat)
    requires 0 < p
    ensures p as real / p as real == 1.0
  {
  }

  function Reversed(s: seq<string>): (r: seq<string>)
    ensures |r| == |s| && forall k :: 0 <= k < |s| ==> r[k] == s[|s| - 1 - k]
  {
    seq(|s|, k requires 0 <= k < |s| => s[|s| - 1 - k])
  }

  /** Submitting the exact reverse of at least two distinct ids scores 0. */
  lemma ReverseScoresZero(truth: seq<string>)
    requires NoDup(truth) && |truth| >= 2
    ensures AllIn(Reversed(truth), truth)
    ensures Correctness(Reversed(truth), truth) == 0.0
  {
    var r := Reversed(truth);
    forall a, b | 0 <= a < b < |r| ensures IndexOf(truth, r[a]) >= IndexOf(truth, r[b]) {
      IndexOfNoDup(truth, |truth| - 1 - a);
      IndexOfNoDup(truth, |truth| - 1 - b);
    }
    OpposesNoneCorrect(r, truth);
    PairsFormula(|r|);
  }

  // ---------------------------------------------------------------------
  // Self-reported difficulty and the outcome
  // ---------------------------------------------------------------------

  /** `int(request.form.get("difficulty", "3"))`, 3 when that raises,
      clamped to [1, 5]. */
  function DifficultyRating(field: Option<string>): (d: int)
    ensures 1 <= d <= 5
    ensures ParseInt(GetOr(field, "3")).None? ==> d == 3
    ensures ParseInt(GetOr(field, "3")).Some? ==> d == Max(1, Min(ParseInt(GetOr(field, "3")).value, 5))
  {
    var parsed := ParseInt(GetOr(field, "3"));
    var raw := if parsed.Some? then parsed.value else 3;
    Max(1, Min(raw, 5))
  }

  /** Each of the five ratings the form offers reads back as itself, and an
      absent field reads as 3. */
  lemma DifficultyRoundTrip(d: nat)
    requires 1 <= d <= 5
    ensures DifficultyRating(Some(Decimal(d))) == d
    ensures DifficultyRating(None) == 3
  {
    ParseIntRoundTrip(d);
    ParseIntRoundTrip(3);
    assert Decimal(3) == "3";
  }

  /** A grouped numeral such as `"1_0"` is a number to `int`, so it is
      clamped rather than replaced by the default: 10 becomes 5, not 3. */
  lemma DifficultyGroupedClamped()
    ensures DifficultyRating(Some("1_0")) == 5
  {
    ParseIntGrouped();
  }

  /** `(difficulty_rating - 1) / 4`. */
  function RatingFraction(d: int): real
  {
    (d - 1) as real / 4.0
  }

  /** `0.7 * correctness_fraction + 0.3 * rating_fraction`. */
  function Outcome(correctness: real, d: int): real
  {
    0.7 * correctness + 0.3 * RatingFraction(d)
  }

  /** The outcome always lies in [0, 1], grows with both inputs, and reaches
      its ends at a perfect hard round and a fully wrong easy one. */
  lemma OutcomeBounds(c: real, d: int)
    requires 0.0 <= c <= 1.0 && 1 <= d <= 5
    ensures 0.0 <= Outcome(c, d) <= 1.0
    ensures Outcome(1.0, 5) == 1.0 && Outcome(0.0, 1) == 0.0
  {
  }

  lemma OutcomeMonotone(c1: real, c2: real, d1: int, d2: int)
    requires c1 <= c2 && d1 <= d2
    ensures Outcome(c1, d1) <= Outcome(c2, d2)
  {
  }

  // ---------------------------------------------------------------------
  // The personalized subset
  // ---------------------------------------------------------------------

  /** How many tracks `personalized_rank` aims for: 3 below a rating of
      1100, 5 above 1400, 4 in between. */
  function BaseCount(elo: int): (n: nat)
    ensures 3 <= n <= 5
  {
    if elo < 1100 then 3 else if elo > 1400 then 5 else 4
  }

  /** The tiers spelled out, and a higher rating never asks for fewer tracks. */
  lemma BaseCountTiers(elo: int, higher: int)
    requires elo <= higher
    ensures BaseCount(elo) == 3 <==> elo < 1100
    ensures BaseCount(elo) == 5 <==> elo > 1400
    ensures BaseCount(elo) <= BaseCount(higher)
  {
  }

  /** `max(1, base_count // 2)`: how many missed tracks may come first. */
  function MissedQuota(base: nat): (q: nat)
    ensures 1 <= q
    ensures base >= 2 ==> q < base
    ensures base >= 2 ==> 2 * q <= base
  {
    Max(1, base / 2)
  }

  /** Taking `k` elements out of `pool` at random positions, one at a time:
      `random.shuffle` followed by `pop`, and `random.sample`, both come to
      this.  `draw(i)` is the random number behind the `i`-th pick. */
  method TakeRandom<T>(pool: seq<T>, k: nat, draw: nat -> nat) returns (taken: seq<T>, ghost rest: seq<T>)
    ensures |taken| == Min(k, |pool|)
    ensures multiset(taken) + multiset(rest) == multiset(pool)
    ensures forall x :: x in taken ==> x in pool
    ensures NoDup(pool) ==> NoDup(taken)
  {
    taken := [];
    var left := pool;
    while |taken| < k && left != []
      invariant multiset(taken) + multiset(left) == multiset(pool)
      invariant |taken| + |left| == |pool| && |taken| <= k
      decreases |left|
    {
      var j := draw(|taken|) % |left|;
      assert left == left[..j] + [left[j]] + left[j + 1..];
      taken := taken + [left[j]];
      left := left[..j] + left[j + 1..];
    }
    rest := left;
    TakeRandomFacts(pool, taken, rest);
  }

  /** What taking out of a pool preserves: membership, and no repetition
      when the pool had none. */
  lemma TakeRandomFacts<T>(pool: seq<T>, taken: seq<T>, rest: seq<T>)
    requires multiset(taken) + multiset(rest) == multiset(pool)
    ensures forall x :: x in taken ==> x in pool
    ensures NoDup(pool) ==> NoDup(taken)
  {
    assert multiset(taken + rest) == multiset(pool);
    forall x | x in taken ensures x in pool {
      assert x in multiset(taken);
      assert multiset(pool)[x] >= multiset(taken)[x];
    }
    if NoDup(pool) {
      NoDupPermutation(pool, taken + rest);
      NoDupConcat(taken, rest);
    }
  }

  /** What filling `needed` places from `leftover` promises: tracks of the
      leftover, at most `needed` of them, the whole leftover when it is
      short, and otherwise by difficulty: when hard, tracks in order of
      distance from the anchor with none left out closer; when easy, the
      tracks at the stride positions of the leftover sorted by key; and
      otherwise a sample of exactly `needed`. */
  predicate FilledAsAsked(leftover: seq<Track>, needed: nat, difficulty: string, mode: string,
                          anchorDraw: nat, extra: seq<Track>)
  {
    && (forall t :: t in extra ==> t in leftover)
    && |extra| <= needed
    && (|leftover| <= needed ==> extra == leftover)
    && (|leftover| > needed ==>
          if difficulty == "hard" then ClosestFirst(leftover, extra, CloseKey(mode, Choice(leftover, anchorDraw)))
          else if difficulty == "easy" then EvenlySpread(leftover, needed, extra, SpreadKey(mode))
          else |extra| == needed)
  }

  /** `extra` is in order of the key, and nothing of `pool` left out has a
      smaller key than a track taken. */
  predicate ClosestFirst(pool: seq<Track>, extra: seq<Track>, k: SortKey)
  {
    && SortedBy(extra, Key(k))
    && forall t, c :: t in pool && t !in extra && c in extra ==> KeyOf(k, c) <= KeyOf(k, t)
  }

  /** `extra` holds the `n` tracks at the stride positions of `pool` sorted by the key. */
  predicate EvenlySpread(pool: seq<Track>, n: nat, extra: seq<Track>, k: SortKey)
  {
    var sorted := SortBy(pool, Key(k));
    var step := SpreadStep(|pool|, n);
    && |extra| == n
    && forall m :: 0 <= m < n ==> Stride(m, step) < |pool| && extra[m] == sorted[Stride(m, step)]
  }

  /** `extra` is at most `needed` tracks of `leftover`, without repetitions
      when it has none, and exactly `needed` when it also has that many. */
  predicate FillFits(leftover: seq<Track>, needed: nat, extra: seq<Track>)
  {
    && (forall t :: t in extra ==> t in leftover)
    && |extra| <= needed
    && (NoDup(leftover) ==> NoDup(extra))
    && (NoDup(leftover) && |leftover| >= needed ==> |extra| == needed)
  }

  /** The branch of `personalized_rank` that fills the `needed` places left:
      the nearest neighbours when hard, an even spread when easy, and
      otherwise the whole leftover when it has no more than `needed`
      tracks and a random sample of `needed` when it has more. */
  method FillRemaining(leftover: seq<Track>, needed: nat, difficulty: string, mode: string,
                       anchorDraw: nat, sampleDraw: nat -> nat)
    returns (extra: seq<Track>)
    requires needed > 0
    ensures FilledAsAsked(leftover, needed, difficulty, mode, anchorDraw, extra)
    ensures FillFits(leftover, needed, extra)
  {
    if difficulty == "hard" {
      extra := PickCloseTracks(leftover, needed, mode, anchorDraw);
    } else if difficulty == "easy" {
      extra := PickSpreadTracks(leftover, needed, mode);
    } else if |leftover| <= needed {
      extra := leftover;
    } else {
      ghost var unused;
      extra, unused := TakeRandom(leftover, needed, sampleDraw);
    }
  }

  /** The first half of `personalized_rank`: behind the coin, up to
      `MissedQuota(base)` of the catalog tracks whose id was missed, drawn
      without replacement; nothing otherwise. */
  method MissedFirst(catalog: seq<Track>, missedIds: seq<string>, base: nat, coinBelowHalf: bool,
                     shuffleDraw: nat -> nat)
    returns (first: seq<Track>)
    requires base >= 2
    ensures
      var candidates := QuizPersonalized.MissedCandidates(catalog, missedIds);
      |first| == (if coinBelowHalf && candidates != [] then Min(MissedQuota(base), |candidates|) else 0)
    ensures |first| < base
    ensures forall t :: t in first ==> t in catalog && t.id in missedIds
    ensures NoDup(catalog) ==> NoDup(first)
  {
    var candidates := QuizPersonalized.MissedCandidates(catalog, missedIds);
    first := [];
    if candidates != [] && coinBelowHalf {
      ghost var unused;
      first, unused := TakeRandom(candidates, MissedQuota(base), shuffleDraw);
    }
  }

  /** Fewer than `base` tracks come `first`, and `extra` fills the
      `base - |first|` places left from the catalog tracks not among them. */
  predicate FillsRest(catalog: seq<Track>, first: seq<Track>, base: nat, difficulty: string, mode: string,
                      anchorDraw: nat, extra: seq<Track>)
  {
    |first| < base && FilledAsAsked(Without(catalog, first), base - |first|, difficulty, mode, anchorDraw, extra)
  }

  /** The second half of `personalized_rank`: the `base - |first|` places
      left (never a negative number, as fewer than `base` come first) filled
      from the catalog tracks not chosen yet, after the tracks chosen. */
  method FillAfter(catalog: seq<Track>, first: seq<Track>, base: nat, difficulty: string, mode: string,
                   anchorDraw: nat, sampleDraw: nat -> nat)
    returns (chosen: seq<Track>, ghost extra: seq<Track>)
    requires |first| < base
    requires forall t :: t in first ==> t in catalog
    requires NoDup(catalog) ==> NoDup(first)
    ensures chosen == first + extra
    ensures FilledAsAsked(Without(catalog, first), base - |first|, difficulty, mode, anchorDraw, extra)
    ensures ChosenFromCatalog(catalog, base, chosen)
  {
    // Fewer than `base` come first, so the source's `needed > 0` always holds.
    var needed: nat := base - |first|;
    var leftover := Without(catalog, first);
    var fill := FillRemaining(leftover, needed, difficulty, mode, anchorDraw, sampleDraw);
    FirstThenFill(catalog, first, base, fill);
    chosen := first + fill;
    extra := fill;
  }

  /** At most `base` tracks of the catalog, without repetitions when it has
      none, and exactly `base` when it also has that many. */
  predicate ChosenFromCatalog(catalog: seq<Track>, base: nat, chosen: seq<Track>)
  {
    && (forall t :: t in chosen ==> t in catalog)
    && |chosen| <= base
    && (NoDup(catalog) ==> NoDup(chosen))
    && (NoDup(catalog) && |catalog| >= base ==> |chosen| == base)
  }

  /** Tracks of the catalog followed by a fill from the catalog without them
      are tracks of the catalog, without repetitions when it has none, and
      the full base count when the catalog has that many. */
  lemma FirstThenFill(catalog: seq<Track>, first: seq<Track>, base: nat, fill: seq<Track>)
    requires |first| < base
    requires forall t :: t in first ==> t in catalog
    requires NoDup(catalog) ==> NoDup(first)
    requires FillFits(Without(catalog, first), base - |first|, fill)
    ensures ChosenFromCatalog(catalog, base, first + fill)
  {
    NoDupConcat(first, fill);
    if NoDup(catalog) {
      WithoutSize(catalog, first);
    }
  }

  /** `FillsRest` from the fill of the leftover, the catalog without `first`. */
  lemma FillsRestOf(catalog: seq<Track>, first: seq<Track>, base: nat, difficulty: string, mode: string,
                    anchorDraw: nat, leftover: seq<Track>, extra: seq<Track>)
    requires |first| < base && leftover == Without(catalog, first)
    requires FilledAsAsked(leftover, base - |first|, difficulty, mode, anchorDraw, extra)
    ensures FillsRest(catalog, first, base, difficulty, mode, anchorDraw, extra)
  {
  }

  /** What `personalized_rank` offers: nothing without a catalog, a refusal
      when fewer than two tracks were found, or the tracks to rank. */
  datatype RankOffer = NoCatalog | TooFew | Offered(tracks: seq<Track>)

  /** `personalized_rank` with its random draws passed in: up to
      `MissedQuota` missed tracks first when the coin falls below one half,
      then the remaining places filled from the tracks not chosen yet.  The
      ghost results are those two parts of the offer. */
  method PersonalizedRank(user: User, catalog: seq<Track>, difficulty: Option<string>, mode: Option<string>,
                          coinBelowHalf: bool, shuffleDraw: nat -> nat, anchorDraw: nat, sampleDraw: nat -> nat)
    returns (offer: RankOffer, ghost first: seq<Track>, ghost extra: seq<Track>)
    ensures offer.NoCatalog? <==> catalog == []
    ensures catalog != [] ==> (offer.Offered? <==> |first + extra| >= 2)
    ensures offer.Offered? ==> offer.tracks == first + extra
    // The missed part: exactly min(quota, candidates) of them behind the coin, none otherwise.
    ensures catalog != [] ==>
      var candidates := QuizPersonalized.MissedCandidates(catalog, user.missedSongs);
      |first| == (if coinBelowHalf && candidates != []
                  then Min(MissedQuota(BaseCount(user.personalizedRankElo)), |candidates|) else 0)
    ensures forall t :: t in first ==> t in catalog && t.id in user.missedSongs
    // The rest: the session difficulty's fill of the places left from the tracks not chosen yet.
    ensures catalog != [] ==>
      FillsRest(catalog, first, BaseCount(user.personalizedRankElo),
                GetOr(difficulty, "normal"), GetOr(mode, "popularity"), anchorDraw, extra)
    ensures offer.Offered? ==> 2 <= |offer.tracks| <= BaseCount(user.personalizedRankElo)
    ensures offer.Offered? ==> forall t :: t in offer.tracks ==> t in catalog
    ensures offer.Offered? && NoDup(catalog) ==> NoDup(offer.tracks)
    // With the coin below one half, the round opens with missed tracks.
    ensures offer.Offered? && coinBelowHalf ==>
      var q := Min(MissedQuota(BaseCount(user.personalizedRankElo)),
                   |QuizPersonalized.MissedCandidates(catalog, user.missedSongs)|);
      q <= |offer.tracks| && forall m :: 0 <= m < q ==> offer.tracks[m].id in user.missedSongs
    // A catalog without repetitions that is large enough gives exactly the base count.
    ensures NoDup(catalog) && |catalog| >= BaseCount(user.personalizedRankElo) ==>
      offer.Offered? && |offer.tracks| == BaseCount(user.personalizedRankElo)
  {
    first, extra := [], [];
    if catalog == [] {
      return NoCatalog, first, extra;
    }
    var base := BaseCount(user.personalizedRankElo);
    var missed := MissedFirst(catalog, user.missedSongs, base, coinBelowHalf, shuffleDraw);
    var chosen;
    first := missed;
    chosen, extra := FillAfter(catalog, missed, base, GetOr(difficulty, "normal"), GetOr(mode, "popularity"),
                               anchorDraw, sampleDraw);
    FillsRestOf(catalog, first, base, GetOr(difficulty, "normal"), GetOr(mode, "popularity"), anchorDraw,
                Without(catalog, first), extra);
    if |chosen| < 2 {
      return TooFew, first, extra;
    }
    return Offered(chosen), first, extra;
  }

  // ---------------------------------------------------------------------
  // Reading back the submission
  // ---------------------------------------------------------------------

  /** `[x for x in pieces if x]`. */
  function NonEmpty(pieces: seq<string>): (r: seq<string>)
    ensures forall x :: x in r <==> x in pieces && x != ""
    ensures "" !in pieces ==> r == pieces
    decreases |pieces|
  {
    if pieces == [] then []
    else
      var rest := NonEmpty(pieces[1..]);
      assert pieces == [pieces[0]] + pieces[1..];
      if pieces[0] == "" then rest else [pieces[0]] + rest
  }

  /** Dropping the empty pieces keeps the others in order. */
  lemma {:induction false} NonEmptyConcat(a: seq<string>, b: seq<string>)
    ensures NonEmpty(a + b) == NonEmpty(a) + NonEmpty(b)
    decreases |a|
  {
    if a == [] {
      assert a + b == b;
    } else {
      assert (a + b)[0] == a[0] && (a + b)[1..] == a[1..] + b;
      NonEmptyConcat(a[1..], b);
    }
  }

  /** The ids of a comma-separated form field: stripped, split on commas,
      empty pieces dropped; an absent field reads as empty. */
  function CommaIds(field: Option<string>): (r: seq<string>)
    ensures forall x :: x in r ==> x != "" && ',' !in x
  {
    NonEmpty(SplitComma(Strip(GetOr(field, ""))))
  }

  /** An order of non-empty alphanumeric ids, posted comma-separated as the
      page sends it, reads back as itself. */
  lemma CommaIdsRoundTrip(ids: seq<string>)
    requires ids != []
    requires forall id :: id in ids ==> id != "" && AllAlnum(id)
    ensures CommaIds(Some(JoinComma(ids))) == ids
  {
    AlnumPiecesStripped(ids);
    AlnumPiecesPlain(ids);
    JoinSplitRoundTrip(ids);
  }

  /** The name of the fallback form field that carries the rank of `id`. */
  function RankField(id: string): string
  {
    "rank_" + id
  }

  /** `rank_str and rank_str.isdigit()`. */
  predicate HasRank(fields: map<string, string>, id: string)
  {
    RankField(id) in fields && IsDigits(fields[RankField(id)])
  }

  function RankOf(fields: map<string, string>, id: string): nat
    requires HasRank(fields, id)
  {
    DigitsValue(fields[RankField(id)])
  }

  /** `(tid, int(rank_str))` for each offered id with a rank field of digits,
      in the offered order. */
  function RankedPairs(offered: seq<string>, fields: map<string, string>): (r: seq<(string, int)>)
    ensures forall p :: p in r ==> p.0 in offered && HasRank(fields, p.0) && p.1 == RankOf(fields, p.0)
    ensures forall x :: x in offered && HasRank(fields, x) ==> (x, RankOf(fields, x)) in r
    decreases |offered|
  {
    if offered == [] then []
    else
      var rest := RankedPairs(offered[1..], fields);
      var x := offered[0];
      if HasRank(fields, x) then [(x, RankOf(fields, x) as int)] + rest else rest
  }

  /** The pairs come in the offered order, one per ranked offered id. */
  lemma {:induction false} RankedPairsConcat(a: seq<string>, b: seq<string>, fields: map<string, string>)
    ensures RankedPairs(a + b, fields) == RankedPairs(a, fields) + RankedPairs(b, fields)
    decreases |a|
  {
    if a == [] {
      assert a + b == b;
    } else {
      assert (a + b)[0] == a[0] && (a + b)[1..] == a[1..] + b;
      RankedPairsConcat(a[1..], b, fields);
    }
  }

  function Rank(p: (string, int)): int
  {
    p.1
  }

  function FirstOfEach(ps: seq<(string, int)>): (r: seq<string>)
    ensures |r| == |ps| && forall k :: 0 <= k < |ps| ==> r[k] == ps[k].0
  {
    seq(|ps|, k requires 0 <= k < |ps| => ps[k].0)
  }

  /** The fallback order of the personalized round: the ranked ids stably
      sorted by rank, ties in the offered order. */
  function RankFieldOrder(offered: seq<string>, fields: map<string, string>): (r: seq<string>)
    ensures forall x :: x in r ==> x in offered && HasRank(fields, x)
    ensures forall x :: x in offered && HasRank(fields, x) ==> x in r
    ensures forall a, b :: 0 <= a < b < |r| && HasRank(fields, r[a]) && HasRank(fields, r[b]) ==>
      RankOf(fields, r[a]) <= RankOf(fields, r[b])
  {
    var sorted := SortBy(RankedPairs(offered, fields), Rank);
    RankFieldOrderFacts(offered, fields, sorted);
    FirstOfEach(sorted)
  }

  /** Ids given the same rank keep the offered order: the sort behind
      `RankFieldOrder` lists the pairs of each rank as `RankedPairs` does. */
  lemma RankFieldOrderStable(offered: seq<string>, fields: map<string, string>, v: int)
    ensures WithKey(SortBy(RankedPairs(offered, fields), Rank), Rank, v) == WithKey(RankedPairs(offered, fields), Rank, v)
  {
    SortByStable(RankedPairs(offered, fields), Rank, v);
  }

  /** The sorted pairs are the ranked pairs: each carries its id's rank,
      and every ranked id has one. */
  lemma RankFieldOrderFacts(offered: seq<string>, fields: map<string, string>, sorted: seq<(string, int)>)
    requires multiset(sorted) == multiset(RankedPairs(offered, fields))
    ensures forall k :: 0 <= k < |sorted| ==>
      sorted[k].0 in offered && HasRank(fields, sorted[k].0) && sorted[k].1 == RankOf(fields, sorted[k].0)
    ensures forall x :: x in offered && HasRank(fields, x) ==> exists k :: 0 <= k < |sorted| && sorted[k].0 == x
  {
    var pairs := RankedPairs(offered, fields);
    forall k | 0 <= k < |sorted|
      ensures sorted[k].0 in offered && HasRank(fields, sorted[k].0) && sorted[k].1 == RankOf(fields, sorted[k].0)
    {
      assert sorted[k] in multiset(pairs);
    }
    forall x | x in offered && HasRank(fields, x) ensures exists k :: 0 <= k < |sorted| && sorted[k].0 == x {
      var p := (x, RankOf(fields, x) as int);
      assert p in multiset(sorted);
      var k :| 0 <= k < |sorted| && sorted[k] == p;
    }
  }

  /** The fields a ranking round posts. */
  datatype RankForm = RankForm(finalOrder: Option<string>, dragOrder: Option<string>,
                               rankFields: map<string, string>, difficulty: Option<string>)

  /** The order as submitted: the random round reads `final_order`; the
      personalized round reads `drag_order` when it is non-empty after
      stripping and the rank fields otherwise. */
  function SubmittedIds(approach: Approach, form: RankForm, offered: seq<string>): seq<string>
  {
    if approach == RandomRound then CommaIds(form.finalOrder)
    else if Strip(GetOr(form.dragOrder, "")) != "" then CommaIds(form.dragOrder)
    else RankFieldOrder(offered, form.rankFields)
  }

  /** The submitted ids kept when offered, in the submitted order; the whole
      offered list when none survives. */
  function FinalIds(submitted: seq<string>, offered: seq<string>): (r: seq<string>)
    ensures forall x :: x in r ==> x in offered
    ensures offered != [] ==> r != []
    ensures (exists x :: x in submitted && x in offered) ==> r == Within(submitted, offered)
    ensures (forall x :: x in submitted ==> x !in offered) ==> r == offered
  {
    var kept := Within(submitted, offered);
    assert forall x :: x in submitted && x in offered ==> x in kept;
    assert kept != [] ==> kept[0] in kept;
    if kept == [] then offered else kept
  }

  /** A submission made only of offered ids is scored as submitted. */
  lemma FinalIdsKeepsOffered(submitted: seq<string>, offered: seq<string>)
    requires submitted != [] && forall x :: x in submitted ==> x in offered
    ensures FinalIds(submitted, offered) == submitted
  {
    assert submitted[0] in submitted;
  }

  // ---------------------------------------------------------------------
  // Scoring a submission
  // ---------------------------------------------------------------------

  /** What a submission handler did: nothing to rank, `.index` raising for a
      submitted id the ground truth lacks (only reached when at least two ids
      are kept, since a single id forms no pair), or the score it committed. */
  datatype RankResult =
    | NoTracks
    | LookupFailed
    | Scored(finalIds: seq<string>, truth: seq<string>, correctness: real, difficulty: int, outcome: real)

  function ApproachName(approach: Approach): string
  {
    if approach == RandomRound then "random" else "personalized"
  }

  /** `submit_random_rank` and `submit_personalized_rank`: the submitted
      order filtered to the offered ids, scored pair by pair against the
      ground truth, blended with the self-reported difficulty, and the
      round's ranking rating moved by the outcome.  `offeredAfter` is the
      offer the session holds afterwards: a scored personalized ranking
      clears it, so posting the same form again finds nothing to rank, while
      the random round keeps its offer. */
  method SubmitRank(user: User, catalog: seq<Track>, approach: Approach, offered: seq<string>,
                    mode: Option<string>, form: RankForm)
    returns (result: RankResult, offeredAfter: seq<string>)
    modifies user
    ensures result.Scored? && approach == PersonalizedRound ==> offeredAfter == []
    ensures !(result.Scored? && approach == PersonalizedRound) ==> offeredAfter == offered
    ensures offered == [] ==> result == NoTracks && unchanged(user)
    ensures offered != [] ==>
      var final := FinalIds(SubmittedIds(approach, form, offered), offered);
      var truth := GroundTruth(catalog, offered, approach, GetOr(mode, "popularity"));
      (!Scorable(final, truth) ==> result == LookupFailed && unchanged(user))
      && (Scorable(final, truth) ==>
            result == Scored(final, truth, Correctness(final, truth), DifficultyRating(form.difficulty),
                             Outcome(Correctness(final, truth), DifficultyRating(form.difficulty))))
    ensures result.Scored? ==>
      && 0.0 <= result.correctness <= 1.0 && 1 <= result.difficulty <= 5 && 0.0 <= result.outcome <= 1.0
      && RankCommitted(user, approach, result.outcome)
    // The rating moves by at most 16 either way.
    ensures result.Scored? ==>
      && old(user.randomRankElo) - 16 <= user.randomRankElo <= old(user.randomRankElo) + 16
      && old(user.personalizedRankElo) - 16 <= user.personalizedRankElo <= old(user.personalizedRankElo) + 16
  {
    offeredAfter := offered;
    if offered == [] {
      return NoTracks, offeredAfter;
    }
    var final := FinalIds(SubmittedIds(approach, form, offered), offered);
    var truth := GroundTruth(catalog, offered, approach, GetOr(mode, "popularity"));
    if !Scorable(final, truth) {
      return LookupFailed, offeredAfter;
    }
    result := ScoreRanking(user, approach, final, truth, form);
    if approach == PersonalizedRound {
      offeredAfter := [];
    }
  }

  /** The user after a scored ranking: the guess counters, the missed list
      and both guess ratings as they were, the round's ranking rating moved
      by the outcome and the other ranking rating as it was. */
  twostate predicate RankCommitted(user: User, approach: Approach, outcome: real)
    reads user
  {
    && user.totalCorrect == old(user.totalCorrect) && user.totalAttempts == old(user.totalAttempts)
    && user.missedSongs == old(user.missedSongs)
    && user.randomGuessElo == old(user.randomGuessElo)
    && user.personalizedGuessElo == old(user.personalizedGuessElo)
    && (approach == RandomRound ==>
          user.randomRankElo == NewElo(old(user.randomRankElo), outcome)
          && user.personalizedRankElo == old(user.personalizedRankElo))
    && (approach == PersonalizedRound ==>
          user.personalizedRankElo == NewElo(old(user.personalizedRankElo), outcome)
          && user.randomRankElo == old(user.randomRankElo))
  }

  /** The scoring once every kept id has a place in the ground truth: the
      pair score, the blended outcome and the rating update. */
  method ScoreRanking(user: User, approach: Approach, final: seq<string>, truth: seq<string>, form: RankForm)
    returns (result: RankResult)
    requires Scorable(final, truth)
    modifies user
    ensures result == Scored(final, truth, Correctness(final, truth), DifficultyRating(form.difficulty),
                             Outcome(Correctness(final, truth), DifficultyRating(form.difficulty)))
    ensures 0.0 <= result.correctness <= 1.0 && 1 <= result.difficulty <= 5 && 0.0 <= result.outcome <= 1.0
    ensures RankCommitted(user, approach, result.outcome)
    ensures old(user.randomRankElo) - 16 <= user.randomRankElo <= old(user.randomRankElo) + 16
    ensures old(user.personalizedRankElo) - 16 <= user.personalizedRankElo <= old(user.personalizedRankElo) + 16
  {
    var correctness := CountCorrectPairs(final, truth);
    var rating := DifficultyRating(form.difficulty);
    CorrectnessBounds(final, truth);
    var outcome := Outcome(correctness, rating);
    OutcomeBounds(correctness, rating);
    NewEloBounded(user.randomRankElo, outcome);
    NewEloBounded(user.personalizedRankElo, outcome);
    ColumnNamesDistinct();
    user.UpdateElo(ApproachName(approach), "rank", outcome);
    result := Scored(final, truth, correctness, rating, outcome);
  }

  /** The lookup cannot fail while the catalog still has every offered id:
      every id that survives the filter is in the ground truth. */
  lemma SubmissionAlwaysScored(catalog: seq<Track>, approach: Approach, offered: seq<string>,
                               mode: string, form: RankForm)
    requires forall x :: x in offered ==> FindTrack(catalog, x).Some?
    ensures AllIn(FinalIds(SubmittedIds(approach, form, offered), offered),
                  GroundTruth(catalog, offered, approach, mode))
  {
    var final := FinalIds(SubmittedIds(approach, form, offered), offered);
    forall x | x in final ensures x in GroundTruth(catalog, offered, approach, mode) {
      GroundTruthCovers(catalog, offered, approach, mode, x);
    }
  }

  // ---------------------------------------------------------------------
  // The results screen
  // ---------------------------------------------------------------------

  /** `ranking_results`: the submitted and the correct order looked up in
      the catalog, side by side, the shorter one padded with `None`. */
  method RankingResults(catalog: seq<Track>, finalIds: seq<string>, correctIds: seq<string>)
    returns (combined: seq<(Option<Track>, Option<Track>)>)
    ensures |combined| == Max(|finalIds|, |correctIds|)
    ensures forall i :: 0 <= i < |combined| ==>
      combined[i].0 == (if i < |finalIds| then FindTrack(catalog, finalIds[i]) else None)
    ensures forall i :: 0 <= i < |combined| ==>
      combined[i].1 == (if i < |correctIds| then FindTrack(catalog, correctIds[i]) else None)
  {
    var length := Max(|finalIds|, |correctIds|);
    var finalList := seq(|finalIds|, k requires 0 <= k < |finalIds| => FindTrack(catalog, finalIds[k]));
    var correctList := seq(|correctIds|, k requires 0 <= k < |correctIds| => FindTrack(catalog, correctIds[k]));
    finalList := finalList + Repeat(None, length - |finalList|);
    correctList := correctList + Repeat(None, length - |correctList|);
    combined := [];
    for i := 0 to length
      invariant |combined| == i
      invariant forall k :: 0 <= k < i ==> combined[k] == (finalList[k], correctList[k])
    {
      combined := combined + [(finalList[i], correctList[i])];
    }
  }

  // ---------------------------------------------------------------------
  // The random round's size and the buddy's rank line
  // ---------------------------------------------------------------------

  /** `[2, 3, 4][:max_n]` with `max_n = min(len(ALL_TRACKS), 4)`, as
      written: the sizes `random_rank` draws from. */
  function RankSizeChoicesAsWritten(catalogSize: nat): (r: seq<nat>)
    ensures |r| == Min(catalogSize, 3)
    ensures forall k :: 0 <= k < |r| ==> r[k] == k + 2
  {
    [2, 3, 4][..Min(Min(catalogSize, 4), 3)]
  }

  /** With two or three tracks the size drawn can exceed the catalog, and
      then the selection loop, which only ever adds a track it does not hold
      yet, can never reach it. */
  lemma RankSizeExceedsCatalog(catalog: seq<Track>, sample: seq<Track>)
    requires 2 <= |catalog| <= 3
    requires NoDup(sample) && forall t :: t in sample ==> t in catalog
    ensures var choices := RankSizeChoicesAsWritten(|catalog|);
      choices[|choices| - 1] == |catalog| + 1 && |sample| < choices[|choices| - 1]
  {
    SubsetNoLonger(sample, catalog);
  }

  /** The sizes the round can actually fill: 2 up to `max_n`. */
  function RankSizeChoices(catalogSize: nat): (r: seq<nat>)
    ensures catalogSize >= 2 ==> |r| == Min(catalogSize, 4) - 1
    ensures catalogSize < 2 ==> r == []
    ensures forall k :: 0 <= k < |r| ==> r[k] == k + 2 && r[k] <= catalogSize
  {
    if catalogSize < 2 then [] else [2, 3, 4][..Min(catalogSize, 4) - 1]
  }

  /** Every size the corrected choice draws is one a catalog of that many
      distinct tracks can supply, and the largest is `min(len, 4)`. */
  lemma RankSizeChoicesFit(catalogSize: nat)
    requires catalogSize >= 2
    ensures var choices := RankSizeChoices(catalogSize);
      choices != [] && choices[|choices| - 1] == Min(catalogSize, 4)
      && forall k :: 0 <= k < |choices| ==> 2 <= choices[k] <= catalogSize
  {
  }

  /** How many lines `random.choice(lines['rank'])` picks from, with the
      table of `quiz_main`, which has the category: there is always a line
      to pick.  The table of `quiz_base` that the module imports has none
      (`QuizBase.BuddyLinesLackRank`). */
  function RankLineCount(personality: Option<string>): (r: nat)
    ensures r >= 1
  {
    QuizMain.BuddyLinesComplete(personality, "rank");
    QuizMain.BuddyLines(personality)["rank"]
  }
}
