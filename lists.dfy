/** `Array.prototype.filter` and `map` on fresh arrays, as functions on sequences,
    with the facts every caller relies on: what is kept, in what order, and that the
    input is not touched (values cannot be). */
module Lists {
  import opened Wrappers

  /** `s.filter(p)` */
  function Filter<T>(s: seq<T>, p: T -> bool): (r: seq<T>)
    ensures |r| <= |s|
    ensures forall i | 0 <= i < |r| :: r[i] in s && p(r[i])
    ensures forall i | 0 <= i < |s| && p(s[i]) :: s[i] in r
  {
    if s == [] then []
    else (if p(s[0]) then [s[0]] else []) + Filter(s[1..], p)
  }

  /** `r` is `s` with some elements left out, the rest in their order. */
  predicate Subsequence<T(==)>(r: seq<T>, s: seq<T>)
    decreases |s|
  {
    if r == [] then true
    else if s == [] then false
    else if r[0] == s[0] then Subsequence(r[1..], s[1..])
    else Subsequence(r, s[1..])
  }

  lemma {:induction false} FilterSubsequence<T>(s: seq<T>, p: T -> bool)
    ensures Subsequence(Filter(s, p), s)
  {
    if s != [] {
      FilterSubsequence(s[1..], p);
      var r := Filter(s, p);
      if p(s[0]) {
        assert r[0] == s[0] && r[1..] == Filter(s[1..], p);
      } else {
        assert r == Filter(s[1..], p);
        SubsequenceSkip(r, s);
      }
    }
  }

  /** Every sequence is a subsequence of itself. */
  lemma {:induction false} SubsequenceRefl<T>(s: seq<T>)
    ensures Subsequence(s, s)
  {
    if s != [] {
      SubsequenceRefl(s[1..]);
    }
  }

  /** Leaving out the first element of `s` keeps a subsequence one. */
  lemma SubsequenceSkip<T>(r: seq<T>, s: seq<T>)
    requires s != [] && Subsequence(r, s[1..])
    ensures Subsequence(r, s)
    decreases |s|, 0
  {
    if r != [] && r[0] == s[0] {
      SubsequenceTail(r, s[1..]);
    }
  }

  /** Dropping the head of a subsequence keeps a subsequence. */
  lemma {:induction false} SubsequenceTail<T>(r: seq<T>, s: seq<T>)
    requires r != [] && Subsequence(r, s)
    ensures Subsequence(r[1..], s)
    decreases |s|, 1
  {
    if r[0] == s[0] {
      SubsequenceSkip(r[1..], s);
    } else {
      SubsequenceTail(r, s[1..]);
      SubsequenceSkip(r[1..], s);
    }
  }

  /** A filter that keeps every element returns the list itself. */
  lemma {:induction false} FilterAll<T>(s: seq<T>, p: T -> bool)
    requires forall i | 0 <= i < |s| :: p(s[i])
    ensures Filter(s, p) == s
  {
    if s != [] {
      FilterAll(s[1..], p);
    }
  }

  /** `s.map(f)` */
  function Map<T, U>(s: seq<T>, f: T -> U): (r: seq<U>)
    ensures |r| == |s|
    ensures forall i | 0 <= i < |s| :: r[i] == f(s[i])
  {
    seq(|s|, i requires 0 <= i < |s| => f(s[i]))
  }

  /** Mapping one more element appends its image. */
  lemma MapStep<T, U>(s: seq<T>, f: T -> U, k: nat)
    requires k < |s|
    ensures Map(s[..k + 1], f) == Map(s[..k], f) + [f(s[k])]
  {
    var a, b := Map(s[..k + 1], f), Map(s[..k], f) + [f(s[k])];
    assert forall j | 0 <= j < k + 1 :: a[j] == b[j];
  }

  /** `s.filter(Boolean)` after a map that returns `null` for what it drops. */
  function Collect<T>(s: seq<Option<T>>): (r: seq<T>)
    ensures |r| <= |s|
    ensures forall k | 0 <= k < |r| :: Some(r[k]) in s
    ensures forall i | 0 <= i < |s| && s[i].Some? :: s[i].value in r
  {
    if s == [] then []
    else (if s[0].Some? then [s[0].value] else []) + Collect(s[1..])
  }

  /** A map that drops nothing is collected whole. */
  lemma {:induction false} CollectAll<T>(s: seq<Option<T>>)
    requires forall i | 0 <= i < |s| :: s[i].Some?
    ensures |Collect(s)| == |s|
  {
    if s != [] {
      CollectAll(s[1..]);
    }
  }

  /** No element occurs twice. */
  predicate NoDups<T(==)>(s: seq<T>) {
    forall i, j | 0 <= i < j < |s| :: s[i] != s[j]
  }

  lemma {:induction false} NoDupsCount<T>(s: seq<T>, x: T)
    requires NoDups(s)
    ensures multiset(s)[x] <= 1
  {
    if s != [] {
      var n := |s| - 1;
      assert s == s[..n] + [s[n]];
      NoDupsCount(s[..n], x);
      if s[n] == x {
        assert x !in s[..n];
      }
    }
  }

  /** An element at two positions is counted twice. */
  lemma TwoOccurrences<T>(r: seq<T>, i: nat, j: nat)
    requires i < j < |r|
    ensures r[i] != r[j] || multiset(r)[r[i]] >= 2
  {
    assert r == r[..j] + [r[j]] + r[j + 1..];
    assert r[..j][i] == r[i];
  }

  /** A permutation of a sequence without duplicates has none. */
  lemma PermutationNoDups<T>(r: seq<T>, s: seq<T>)
    requires NoDups(s) && multiset(r) == multiset(s)
    ensures NoDups(r)
  {
    forall i, j | 0 <= i < j < |r| ensures r[i] != r[j] {
      NoDupsCount(s, r[i]);
      TwoOccurrences(r, i, j);
    }
  }

  /** The values `f` gives on `s`, in order, leaving out the `None`s: a loop that
      pushes what it keeps. */
  function Kept<T, U>(s: seq<T>, f: T -> Option<U>): (r: seq<U>)
    ensures |r| <= |s|
  {
    if s == [] then []
    else Kept(s[..|s| - 1], f) + (if f(s[|s| - 1]).Some? then [f(s[|s| - 1]).value] else [])
  }

  /** Everything kept is some element's value. */
  lemma {:induction false} KeptFrom<T, U>(s: seq<T>, f: T -> Option<U>)
    ensures forall k | 0 <= k < |Kept(s, f)| :: exists i | 0 <= i < |s| :: f(s[i]) == Some(Kept(s, f)[k])
  {
    if s != [] {
      var init := s[..|s| - 1];
      KeptFrom(init, f);
      var r, prev := Kept(s, f), Kept(init, f);
      forall k | 0 <= k < |r| ensures exists i | 0 <= i < |s| :: f(s[i]) == Some(r[k]) {
        if k < |prev| {
          assert r[k] == prev[k];
          var i :| 0 <= i < |init| && f(init[i]) == Some(prev[k]);
          assert s[i] == init[i];
        } else {
          assert f(s[|s| - 1]) == Some(r[k]);
        }
      }
    } else {
      assert Kept(s, f) == [];
    }
  }

  /** Every element's value is kept. */
  lemma {:induction false} KeptComplete<T, U>(s: seq<T>, f: T -> Option<U>)
    ensures forall i | 0 <= i < |s| && f(s[i]).Some? :: f(s[i]).value in Kept(s, f)
  {
    if s != [] {
      var init := s[..|s| - 1];
      KeptComplete(init, f);
      forall i | 0 <= i < |s| && f(s[i]).Some? ensures f(s[i]).value in Kept(s, f) {
        if i < |init| {
          assert s[i] == init[i];
        }
      }
    }
  }

  /** How many elements of `s` are `x`. */
  function Count<T(==)>(s: seq<T>, x: T): nat {
    if s == [] then 0 else Count(s[..|s| - 1], x) + (if s[|s| - 1] == x then 1 else 0)
  }

  /** The value of the first entry of `t` with key `k`: a string-valued object literal's
      property, looked up in its list of entries. */
  function Find(t: seq<(string, string)>, k: string): (r: Option<string>)
    ensures r.Some? ==> (k, r.value) in t
    ensures r.Some? ==> exists i | 0 <= i < |t| :: t[i] == (k, r.value) && forall j | 0 <= j < i :: t[j].0 != k
    ensures r.None? <==> forall i | 0 <= i < |t| :: t[i].0 != k
  {
    if t == [] then None
    else if t[0].0 == k then Some(t[0].1)
    else Find(t[1..], k)
  }
}
