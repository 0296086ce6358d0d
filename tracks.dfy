/**
 * The catalog of tracks (the global `ALL_TRACKS` list of dictionaries held
 * by each route module) and Python's stable `sorted(..., key=...)` over it.
 */
module Tracks {
  import opened Prelude

  /** One catalog entry: `{"id", "title", "artist", "year", "popularity"}`. */
  datatype Track = Track(id: string, title: string, artist: string, year: int, popularity: int)

  // ---------------------------------------------------------------------
  // Stable sort by an integer key
  // ---------------------------------------------------------------------

  predicate SortedBy<T>(s: seq<T>, key: T -> int)
  {
    forall a, b :: 0 <= a < b < |s| ==> key(s[a]) <= key(s[b])
  }

  /** Puts `x` in front of the first element whose key is not smaller. */
  function Insert<T>(x: T, s: seq<T>, key: T -> int): (r: seq<T>)
    ensures |r| == |s| + 1
    ensures forall i :: 0 <= i < |r| ==> r[i] == x || r[i] in s
    ensures SortedBy(s, key) ==> SortedBy(r, key)
    decreases |s|
  {
    if s == [] || key(x) <= key(s[0]) then [x] + s
    else
      var rest := Insert(x, s[1..], key);
      var r := [s[0]] + rest;
      assert forall i :: 1 <= i < |r| ==> r[i] == rest[i - 1];
      r
  }

  lemma {:induction false} InsertMultiset<T>(x: T, s: seq<T>, key: T -> int)
    ensures multiset(Insert(x, s, key)) == multiset(s) + multiset{x}
    decreases |s|
  {
    if s != [] && key(x) > key(s[0]) {
      assert s == [s[0]] + s[1..];
      InsertMultiset(x, s[1..], key);
    }
  }

  /** Python's `sorted(s, key=key)`: ascending, ties kept in input order. */
  function SortBy<T>(s: seq<T>, key: T -> int): (r: seq<T>)
    ensures |r| == |s|
    ensures multiset(r) == multiset(s)
    ensures SortedBy(r, key)
    decreases |s|
  {
    if s == [] then []
    else
      assert s == [s[0]] + s[1..];
      InsertMultiset(s[0], SortBy(s[1..], key), key);
      Insert(s[0], SortBy(s[1..], key), key)
  }

  /** The elements of `s` whose key is `v`, in order. */
  function WithKey<T>(s: seq<T>, key: T -> int, v: int): seq<T>
    decreases |s|
  {
    if s == [] then []
    else (if key(s[0]) == v then [s[0]] else []) + WithKey(s[1..], key, v)
  }

  lemma {:induction false} InsertWithKey<T>(x: T, s: seq<T>, key: T -> int, v: int)
    ensures WithKey(Insert(x, s, key), key, v) == (if key(x) == v then [x] else []) + WithKey(s, key, v)
    decreases |s|
  {
    if s == [] || key(x) <= key(s[0]) {
      assert ([x] + s)[1..] == s;
    } else {
      var rest := Insert(x, s[1..], key);
      assert ([s[0]] + rest)[1..] == rest;
      InsertWithKey(x, s[1..], key, v);
    }
  }

  /** Stability: for every key value, the tracks with that key come out in
      the order they went in. */
  lemma {:induction false} SortByStable<T>(s: seq<T>, key: T -> int, v: int)
    ensures WithKey(SortBy(s, key), key, v) == WithKey(s, key, v)
    decreases |s|
  {
    if s != [] {
      SortByStable(s[1..], key, v);
      InsertWithKey(s[0], SortBy(s[1..], key), key, v);
    }
  }

  // ---------------------------------------------------------------------
  // The sort keys the handlers use
  // ---------------------------------------------------------------------

  /** `key=lambda t: ...` as used by the route handlers; `ByPopularityDesc`
      is `key=popularity, reverse=True`, which Python keeps stable. */
  datatype SortKey =
    | ByYear
    | ByPopularity
    | ByPopularityDesc
    | ByYearDistance(anchorYear: int)
    | ByPopularityDistance(anchorPopularity: int)

  function KeyOf(k: SortKey, t: Track): int
  {
    match k
    case ByYear => t.year
    case ByPopularity => t.popularity
    case ByPopularityDesc => -t.popularity
    case ByYearDistance(a) => Abs(t.year - a)
    case ByPopularityDistance(a) => Abs(t.popularity - a)
  }

  function Key(k: SortKey): Track -> int
  {
    t => KeyOf(k, t)
  }

  // ---------------------------------------------------------------------
  // Lookups
  // ---------------------------------------------------------------------

  /** `next((t for t in ALL_TRACKS if t['id'] == tid), None)`: a track of
      the catalog with that id, and `None` exactly when there is none. */
  function FindTrack(catalog: seq<Track>, id: string): (r: Option<Track>)
    ensures r.Some? ==> r.value in catalog && r.value.id == id
    ensures r.None? <==> forall t :: t in catalog ==> t.id != id
    decreases |catalog|
  {
    if catalog == [] then None
    else if catalog[0].id == id then Some(catalog[0])
    else
      assert forall t :: t in catalog ==> t == catalog[0] || t in catalog[1..];
      FindTrack(catalog[1..], id)
  }

  /** The track found is the first one with the id: no earlier track has it. */
  lemma {:induction false} FindTrackFirst(catalog: seq<Track>, id: string)
    ensures FindTrack(catalog, id).Some? ==>
      exists i :: 0 <= i < |catalog| && catalog[i] == FindTrack(catalog, id).value
                  && forall j :: 0 <= j < i ==> catalog[j].id != id
    decreases |catalog|
  {
    if catalog != [] && catalog[0].id != id {
      FindTrackFirst(catalog[1..], id);
      var r := FindTrack(catalog[1..], id);
      if r.Some? {
        var i :| 0 <= i < |catalog[1..]| && catalog[1..][i] == r.value
                 && forall j :: 0 <= j < i ==> catalog[1..][j].id != id;
        assert catalog[i + 1] == r.value;
        assert forall j :: 0 <= j < i + 1 ==> catalog[j].id != id by {
          forall j | 0 <= j < i + 1 ensures catalog[j].id != id {
            if j > 0 {
              assert catalog[j] == catalog[1..][j - 1];
            }
          }
        }
      }
    } else if catalog != [] {
      assert catalog[0] == FindTrack(catalog, id).value;
    }
  }

  /** `[t['id'] for t in ts]`. */
  function IdsOf(ts: seq<Track>): (ids: seq<string>)
    ensures |ids| == |ts| && forall i :: 0 <= i < |ts| ==> ids[i] == ts[i].id
  {
    seq(|ts|, i requires 0 <= i < |ts| => ts[i].id)
  }
}
