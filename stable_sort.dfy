/** `Array.prototype.sort` with a comparator, which ECMAScript (since 2019) requires
    to be stable.  Given a total preorder `le` (standing for `cmp(a, b) <= 0`), the
    stable sort of a sequence is unique, and insertion sort computes it. */
module StableSort {

  /** `le` is total and transitive: what a consistent comparator provides. */
  ghost predicate TotalPreorder<T(!new)>(le: (T, T) -> bool) {
    (forall a, b :: le(a, b) || le(b, a))
    && (forall a, b, c :: le(a, b) && le(b, c) ==> le(a, c))
  }

  predicate Sorted<T>(s: seq<T>, le: (T, T) -> bool) {
    forall i, j | 0 <= i < j < |s| :: le(s[i], s[j])
  }

  /** Puts `x` in front of the first element it does not exceed. */
  function Insert<T>(x: T, s: seq<T>, le: (T, T) -> bool): (r: seq<T>)
    ensures multiset(r) == multiset(s) + multiset{x}
    ensures |r| == |s| + 1
  {
    if s == [] then [x]
    else if le(x, s[0]) then [x] + s
    else
      assert s == [s[0]] + s[1..];
      [s[0]] + Insert(x, s[1..], le)
  }

  /** The stable sort of `s` under `le`. */
  function Sort<T>(s: seq<T>, le: (T, T) -> bool): (r: seq<T>)
    ensures multiset(r) == multiset(s)
    ensures |r| == |s|
  {
    if s == [] then []
    else
      assert s == [s[0]] + s[1..];
      Insert(s[0], Sort(s[1..], le), le)
  }

  lemma {:induction false} InsertSorted<T(!new)>(x: T, s: seq<T>, le: (T, T) -> bool)
    requires TotalPreorder(le) && Sorted(s, le)
    ensures Sorted(Insert(x, s, le), le)
  {
    if s != [] && !le(x, s[0]) {
      InsertSorted(x, s[1..], le);
      var r := Insert(x, s[1..], le);
      forall e | e in multiset(r) ensures le(s[0], e) {
        assert e in multiset(s[1..]) + multiset{x};
        if e in multiset(s[1..]) {
          var k :| 0 <= k < |s[1..]| && s[1..][k] == e;
          assert s[k + 1] == e;
        }
      }
      forall j | 0 < j < |[s[0]] + r| ensures le(([s[0]] + r)[0], ([s[0]] + r)[j]) {
        assert ([s[0]] + r)[j] == r[j - 1];
        assert r[j - 1] in multiset(r);
      }
    }
  }

  /** The result is in order. */
  lemma {:induction false} SortSorted<T(!new)>(s: seq<T>, le: (T, T) -> bool)
    requires TotalPreorder(le)
    ensures Sorted(Sort(s, le), le)
  {
    if s != [] {
      SortSorted(s[1..], le);
      InsertSorted(s[0], Sort(s[1..], le), le);
    }
  }

  /** Equivalent under `le`: neither sorts before the other. */
  predicate Tied<T>(a: T, b: T, le: (T, T) -> bool) { le(a, b) && le(b, a) }

  /** The elements of `s` tied with `p`, in their order in `s`. */
  function TiedWith<T>(s: seq<T>, p: T, le: (T, T) -> bool): (r: seq<T>)
    ensures |r| <= |s|
  {
    if s == [] then []
    else (if Tied(s[0], p, le) then [s[0]] else []) + TiedWith(s[1..], p, le)
  }

  function TiedHead<T>(x: T, p: T, le: (T, T) -> bool): seq<T> {
    if Tied(x, p, le) then [x] else []
  }

  lemma TiedWithCons<T>(x: T, s: seq<T>, p: T, le: (T, T) -> bool)
    ensures TiedWith([x] + s, p, le) == TiedHead(x, p, le) + TiedWith(s, p, le)
  {
    assert ([x] + s)[1..] == s;
  }

  lemma {:induction false} TiedWithInsert<T(!new)>(x: T, s: seq<T>, p: T, le: (T, T) -> bool)
    requires TotalPreorder(le)
    ensures TiedWith(Insert(x, s, le), p, le) == TiedWith([x] + s, p, le)
  {
    if s != [] && !le(x, s[0]) {
      var i := Insert(x, s[1..], le);
      TiedWithInsert(x, s[1..], p, le);
      TiedWithCons(s[0], i, p, le);
      TiedWithCons(x, s[1..], p, le);
      TiedWithCons(x, s, p, le);
      TiedWithCons(s[0], s[1..], p, le);
      assert s == [s[0]] + s[1..];
      OneTied(x, s[0], p, le);
    }
  }

  /** Of two elements in strict order at most one is tied with `p`. */
  lemma OneTied<T(!new)>(x: T, y: T, p: T, le: (T, T) -> bool)
    requires TotalPreorder(le) && !le(x, y)
    ensures TiedHead(x, p, le) == [] || TiedHead(y, p, le) == []
  {
    assert le(x, p) && le(p, y) ==> le(x, y);
  }

  /** Stability: among tied elements the input order is kept. */
  lemma {:induction false} SortStable<T(!new)>(s: seq<T>, p: T, le: (T, T) -> bool)
    requires TotalPreorder(le)
    ensures TiedWith(Sort(s, le), p, le) == TiedWith(s, p, le)
  {
    if s != [] {
      SortStable(s[1..], p, le);
      TiedWithInsert(s[0], Sort(s[1..], le), p, le);
      assert ([s[0]] + Sort(s[1..], le))[1..] == Sort(s[1..], le);
    }
  }

  /** JavaScript `s.slice(0, n)`: a negative `n` counts from the end. */
  function Slice<T>(s: seq<T>, n: int): (r: seq<T>)
    ensures 0 <= n ==> |r| == if n < |s| then n else |s|
    ensures |r| <= |s| && r == s[..|r|]
  {
    if n < 0 then (if |s| + n <= 0 then [] else s[..|s| + n])
    else if n < |s| then s[..n] else s
  }

  /** The first `n` of the sorted scores as every match route returns them. */
  function TopK<T>(s: seq<T>, le: (T, T) -> bool, n: int): (r: seq<T>)
    ensures 0 <= n ==> |r| == if n < |s| then n else |s|
    ensures multiset(r) <= multiset(s)
  {
    var t := Sort(s, le);
    var r := Slice(t, n);
    assert t == r + t[|r|..];
    r
  }

  /** What a match route promises: the kept entries are in order, none of the dropped
      ones sorts strictly before any kept one, and tied entries keep pool order. */
  lemma TopKOrdered<T(!new)>(s: seq<T>, le: (T, T) -> bool, n: int)
    requires TotalPreorder(le)
    ensures Sorted(TopK(s, le, n), le)
    ensures forall x, y | x in TopK(s, le, n) && y in multiset(s) - multiset(TopK(s, le, n)) :: le(x, y)
  {
    var t := Sort(s, le);
    var r := TopK(s, le, n);
    SortSorted(s, le);
    assert t == r + t[|r|..];
    forall x, y | x in r && y in multiset(s) - multiset(r) ensures le(x, y) {
      var i :| 0 <= i < |r| && r[i] == x;
      assert multiset(t) == multiset(r) + multiset(t[|r|..]);
      assert y in multiset(t[|r|..]);
      var j :| 0 <= j < |t[|r|..]| && t[|r|..][j] == y;
      assert t[i] == x && t[|r| + j] == y;
    }
  }
}
