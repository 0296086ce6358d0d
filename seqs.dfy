/** List operations the handlers perform on Python lists. */
module Seqs {

  /** No element occurs twice. */
  predicate NoDup<T(==)>(s: seq<T>)
  {
    forall i, j :: 0 <= i < j < |s| ==> s[i] != s[j]
  }

  /** Python's `s.count(x)`. */
  function Count<T(==)>(s: seq<T>, x: T): nat
  {
    multiset(s)[x]
  }

  lemma NoDupCount<T>(s: seq<T>, x: T)
    requires NoDup(s)
    ensures Count(s, x) <= 1
    decreases |s|
  {
    if s != [] {
      assert s == [s[0]] + s[1..];
      NoDupCount(s[1..], x);
      if s[0] == x {
        assert x !in s[1..];
      }
    }
  }

  /** A list in which no element is counted twice has no repetitions. */
  lemma CountNoDup<T>(s: seq<T>)
    requires forall x :: Count(s, x) <= 1
    ensures NoDup(s)
  {
    forall i, j | 0 <= i < j < |s| ensures s[i] != s[j] {
      assert s == s[..j] + s[j..];
      assert multiset(s) == multiset(s[..j]) + multiset(s[j..]);
      assert s[i] in s[..j] && s[j] in s[j..];
      assert multiset(s[..j])[s[i]] >= 1 && multiset(s[j..])[s[j]] >= 1;
      assert multiset(s)[s[i]] <= 1 by {
        assert Count(s, s[i]) <= 1;
      }
    }
  }

  /** A permutation of a list without repetitions has none either. */
  lemma NoDupPermutation<T>(a: seq<T>, b: seq<T>)
    requires multiset(a) == multiset(b) && NoDup(a)
    ensures NoDup(b)
  {
    forall x ensures Count(b, x) <= 1 {
      NoDupCount(a, x);
    }
    CountNoDup(b);
  }

  /** Python's `s.index(x)`: the first position holding `x`. */
  function IndexOf<T(==)>(s: seq<T>, x: T): (i: nat)
    requires x in s
    ensures i < |s| && s[i] == x
    ensures forall k :: 0 <= k < i ==> s[k] != x
  {
    if s[0] == x then 0 else 1 + IndexOf(s[1..], x)
  }

  /** In a list without repetitions every element's first position is its position. */
  lemma IndexOfNoDup<T>(s: seq<T>, k: nat)
    requires NoDup(s) && k < |s|
    ensures IndexOf(s, s[k]) == k
  {
  }

  /** Python's `s.remove(x)` guarded by `if x in s`: drops the first occurrence. */
  function RemoveFirst<T(==)>(s: seq<T>, x: T): (r: seq<T>)
    ensures x !in s ==> r == s
    ensures x in s ==> |r| == |s| - 1
    ensures forall i :: 0 <= i < |r| ==> r[i] in s
    decreases |s|
  {
    if s == [] then []
    else if s[0] == x then s[1..]
    else
      assert s == [s[0]] + s[1..];
      [s[0]] + RemoveFirst(s[1..], x)
  }

  /** Removal takes away exactly one copy of `x` and nothing else. */
  lemma {:induction false} RemoveFirstMultiset<T>(s: seq<T>, x: T)
    ensures multiset(RemoveFirst(s, x)) == multiset(s) - multiset{x}
    decreases |s|
  {
    if s != [] {
      assert s == [s[0]] + s[1..];
      RemoveFirstMultiset(s[1..], x);
    }
  }

  /** Removing from a duplicate-free list leaves it duplicate-free and without `x`. */
  lemma {:induction false} RemoveFirstNoDup<T>(s: seq<T>, x: T)
    requires NoDup(s)
    ensures NoDup(RemoveFirst(s, x)) && x !in RemoveFirst(s, x)
    decreases |s|
  {
    if s != [] && s[0] != x {
      var rest := RemoveFirst(s[1..], x);
      RemoveFirstNoDup(s[1..], x);
      assert s[0] !in s[1..];
      var r := [s[0]] + rest;
      assert RemoveFirst(s, x) == r;
      forall i, j | 0 <= i < j < |r| ensures r[i] != r[j] {
        if i > 0 {
          assert r[i] == rest[i - 1] && r[j] == rest[j - 1];
        } else {
          assert r[j] == rest[j - 1] && r[j] in s[1..];
        }
      }
    }
  }

  /** `if x not in s: s.append(x)`. */
  function AddIfAbsent<T(==)>(s: seq<T>, x: T): (r: seq<T>)
    ensures x in r
    ensures |s| <= |r| && r[..|s|] == s
    ensures forall i :: 0 <= i < |r| ==> r[i] in s || r[i] == x
    ensures NoDup(s) ==> NoDup(r)
  {
    if x in s then s else s + [x]
  }

  /** `random.choice(s)` with the random draw passed in. */
  function Choice<T>(s: seq<T>, draw: nat): (x: T)
    requires |s| > 0
    ensures x in s
  {
    s[draw % |s|]
  }

  /** Python's `[x] * n`. */
  function Repeat<T>(x: T, n: nat): (r: seq<T>)
    ensures |r| == n
    ensures forall i :: 0 <= i < n ==> r[i] == x
  {
    seq(n, _ => x)
  }

  lemma RepeatCount<T>(x: T, n: nat, y: T)
    ensures Count(Repeat(x, n), y) == if x == y then n else 0
    decreases n
  {
    if n > 0 {
      assert Repeat(x, n) == [x] + Repeat(x, n - 1);
      RepeatCount(x, n - 1, y);
    }
  }

  /** A list is duplicate-free exactly when both halves are and they share nothing. */
  lemma NoDupConcat<T>(a: seq<T>, b: seq<T>)
    ensures NoDup(a + b) <==> NoDup(a) && NoDup(b) && forall x :: x in a ==> x !in b
  {
    var c := a + b;
    if NoDup(c) {
      forall x | x in a ensures x !in b {
        var i :| 0 <= i < |a| && a[i] == x;
        forall j | 0 <= j < |b| ensures b[j] != x {
          assert c[i] == a[i] && c[|a| + j] == b[j];
        }
      }
      assert forall i, j :: 0 <= i < j < |a| ==> a[i] == c[i] && a[j] == c[j];
      assert forall i, j :: 0 <= i < j < |b| ==> b[i] == c[|a| + i] && b[j] == c[|a| + j];
    }
    if NoDup(a) && NoDup(b) && forall x :: x in a ==> x !in b {
      forall i, j | 0 <= i < j < |c| ensures c[i] != c[j] {
        if j < |a| {
          assert c[i] == a[i] && c[j] == a[j];
        } else if i >= |a| {
          assert c[i] == b[i - |a|] && c[j] == b[j - |a|];
        } else {
          assert c[i] == a[i] && c[j] == b[j - |a|];
          assert a[i] in a && b[j - |a|] in b;
        }
      }
    }
  }

  /** Without repetitions the head does not recur, and the tail has none either. */
  lemma NoDupTail<T>(s: seq<T>)
    requires s != [] && NoDup(s)
    ensures s[0] !in s[1..] && NoDup(s[1..])
  {
    assert forall i, j :: 0 <= i < j < |s[1..]| ==> s[1..][i] == s[i + 1] && s[1..][j] == s[j + 1];
  }

  /** The set of a list's elements has at most as many members as the list
      has entries, and exactly as many when there are no repetitions. */
  lemma {:induction false} SetCard<T>(s: seq<T>)
    ensures |set x | x in s| <= |s|
    ensures NoDup(s) ==> |set x | x in s| == |s|
    decreases |s|
  {
    if s != [] {
      SetCard(s[1..]);
      assert (set x | x in s) == {s[0]} + (set x | x in s[1..]);
      if NoDup(s) {
        NoDupTail(s);
      }
    }
  }

  /** A duplicate-free list whose elements all occur in `b` is no longer than `b`. */
  lemma SubsetNoLonger<T>(a: seq<T>, b: seq<T>)
    requires NoDup(a) && forall x :: x in a ==> x in b
    ensures |a| <= |b|
  {
    SetCard(a);
    SetCard(b);
    var sa := set x | x in a;
    var sb := set x | x in b;
    assert sa <= sb;
    assert sb == sa + (sb - sa);
    assert sa * (sb - sa) == {};
  }

  /** `[t for t in s if t not in c]`. */
  function Without<T(==,!new)>(s: seq<T>, c: seq<T>): (r: seq<T>)
    ensures forall x :: x in r <==> x in s && x !in c
    ensures |r| <= |s|
    ensures NoDup(s) ==> NoDup(r)
    decreases |s|
  {
    if s == [] then []
    else
      var rest := Without(s[1..], c);
      assert NoDup(s) ==> s[0] !in s[1..] && NoDup(s[1..]) by {
        if NoDup(s) { NoDupTail(s); }
      }
      if s[0] in c then rest
      else
        NoDupConcat([s[0]], rest);
        [s[0]] + rest
  }

  /** `[t for t in s if t in c]`. */
  function Within<T(==,!new)>(s: seq<T>, c: seq<T>): (r: seq<T>)
    ensures forall x :: x in r <==> x in s && x in c
    ensures |r| + |Without(s, c)| == |s|
    ensures NoDup(s) ==> NoDup(r)
    ensures (forall x :: x in s ==> x in c) ==> r == s
    decreases |s|
  {
    if s == [] then []
    else
      var rest := Within(s[1..], c);
      assert NoDup(s) ==> s[0] !in s[1..] && NoDup(s[1..]) by {
        if NoDup(s) { NoDupTail(s); }
      }
      if s[0] in c then
        NoDupConcat([s[0]], rest);
        [s[0]] + rest
      else rest
  }

  lemma ConcatAssoc<T>(x: seq<T>, y: seq<T>, z: seq<T>)
    ensures x + (y + z) == (x + y) + z
  {
  }

  /** One element in front: each filter decides it alone and then goes on. */
  lemma FiltersCons<T(!new)>(x: T, s: seq<T>, c: seq<T>)
    ensures Within([x] + s, c) == (if x in c then [x] else []) + Within(s, c)
    ensures Without([x] + s, c) == (if x in c then [] else [x]) + Without(s, c)
  {
    assert ([x] + s)[0] == x && ([x] + s)[1..] == s;
  }

  /** Both filters keep order and repetitions: they work element by
      element, so filtering a concatenation concatenates the filtered parts. */
  lemma {:induction false} FiltersConcat<T(!new)>(a: seq<T>, b: seq<T>, c: seq<T>)
    ensures Within(a + b, c) == Within(a, c) + Within(b, c)
    ensures Without(a + b, c) == Without(a, c) + Without(b, c)
    decreases |a|
  {
    if a == [] {
      assert a + b == b;
    } else {
      assert a + b == [a[0]] + (a[1..] + b) && a == [a[0]] + a[1..];
      FiltersCons(a[0], a[1..] + b, c);
      FiltersCons(a[0], a[1..], c);
      FiltersConcat(a[1..], b, c);
      var inHead, outHead := if a[0] in c then [a[0]] else [], if a[0] in c then [] else [a[0]];
      ConcatAssoc(inHead, Within(a[1..], c), Within(b, c));
      ConcatAssoc(outHead, Without(a[1..], c), Without(b, c));
    }
  }

  /** Taking a duplicate-free `c` out of a duplicate-free `s` leaves at least
      `|s| - |c|` elements. */
  lemma WithoutSize<T(!new)>(s: seq<T>, c: seq<T>)
    requires NoDup(s)
    ensures |Without(s, c)| >= |s| - |c|
  {
    SubsetNoLonger(Within(s, c), c);
  }
}
