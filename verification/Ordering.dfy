/** Ordering vocabulary shared by the models: Python's `sorted` on a set of instants, its stable
    `sorted(..., key=...)` on a list, and order-preserving filters. */
module Ordering {

  datatype Option<+T> = None | Some(value: T)

  function Lookup<K, V>(m: map<K, V>, k: K): Option<V> { if k in m then Some(m[k]) else None }

  predicate Increasing(s: seq<int>) {
    forall i, j :: 0 <= i < j < |s| ==> s[i] < s[j]
  }

  lemma {:induction false} LeastExists(s: set<int>)
    requires s != {}
    ensures exists m :: m in s && forall x :: x in s ==> m <= x
    decreases |s|
  {
    assert (forall x :: x !in s) ==> s == {};
    var x :| x in s;
    var rest := s - {x};
    if rest == {} {
      assert s == {x};
      assert x in s && forall y :: y in s ==> x <= y;
    } else {
      LeastExists(rest);
      var m :| m in rest && forall y :: y in rest ==> m <= y;
      var k := if m <= x then m else x;
      assert k in s && forall y :: y in s ==> k <= y by { assert s == rest + {x}; }
    }
  }

  function Least(s: set<int>): (m: int)
    requires s != {}
    ensures m in s && forall x :: x in s ==> m <= x
  {
    LeastExists(s);
    var m :| m in s && forall x :: x in s ==> m <= x;
    m
  }

  function Greatest(s: set<int>): (m: int)
    requires s != {}
    ensures m in s && forall x :: x in s ==> x <= m
  {
    assert (forall x :: x !in s) ==> s == {};
    var negated := set x | x in s :: -x;
    assert forall x :: x in s ==> -x in negated;
    -Least(negated)
  }

  /** `sorted({...})`: the members of a set of instants, each once, in increasing order. */
  function Ascending(s: set<int>): (r: seq<int>)
    ensures Increasing(r)
    ensures forall x :: x in r <==> x in s
    ensures |r| == |s|
  {
    if s == {} then [] else
      var m := Least(s);
      [m] + Ascending(s - {m})
  }

  /** An increasing sequence is determined by its members. */
  lemma {:induction false} IncreasingUnique(a: seq<int>, b: seq<int>)
    requires Increasing(a) && Increasing(b)
    requires forall x :: x in a <==> x in b
    ensures a == b
  {
    assert |a| > 0 ==> a[0] in a;
    assert |b| > 0 ==> b[0] in b;
    if |a| > 0 {
      assert a[0] in b && b[0] in a;
      var i :| 0 <= i < |b| && b[i] == a[0];
      var j :| 0 <= j < |a| && a[j] == b[0];
      assert a[0] == b[0];
      forall x ensures x in a[1..] <==> x in b[1..] {
        if x in a[1..] {
          var k :| 0 <= k < |a[1..]| && a[1..][k] == x;
          assert a[k + 1] == x && x in b && x != b[0];
          var l :| 0 <= l < |b| && b[l] == x;
          assert b[1..][l - 1] == x;
        }
        if x in b[1..] {
          var k :| 0 <= k < |b[1..]| && b[1..][k] == x;
          assert b[k + 1] == x && x in a && x != a[0];
          var l :| 0 <= l < |a| && a[l] == x;
          assert a[1..][l - 1] == x;
        }
      }
      IncreasingUnique(a[1..], b[1..]);
    }
  }

  lemma IncreasingConcat(a: seq<int>, b: seq<int>)
    requires Increasing(a) && Increasing(b) && forall i, j :: 0 <= i < |a| && 0 <= j < |b| ==> a[i] < b[j]
    ensures Increasing(a + b)
  {}

  function Filter<T(!new)>(s: seq<T>, p: T -> bool): (r: seq<T>)
    ensures |r| <= |s|
    ensures forall x :: x in r <==> x in s && p(x)
  {
    if s == [] then [] else
      (if p(s[0]) then [s[0]] else []) + Filter(s[1..], p)
  }

  lemma FilterCons<T(!new)>(s: seq<T>, p: T -> bool)
    requires s != []
    ensures Filter(s, p) == if p(s[0]) then [s[0]] + Filter(s[1..], p) else Filter(s[1..], p)
  {}

  lemma {:induction false} FilterConcat<T(!new)>(a: seq<T>, b: seq<T>, p: T -> bool)
    ensures Filter(a + b, p) == Filter(a, p) + Filter(b, p)
  {
    if a == [] {
      assert a + b == b;
    } else {
      assert (a + b)[1..] == a[1..] + b;
      FilterConcat(a[1..], b, p);
    }
  }

  lemma FilterSnoc<T(!new)>(s: seq<T>, k: nat, p: T -> bool)
    requires k < |s|
    ensures Filter(s[..k + 1], p) == if p(s[k]) then Filter(s[..k], p) + [s[k]] else Filter(s[..k], p)
  {
    assert s[..k + 1] == s[..k] + [s[k]];
    FilterConcat(s[..k], [s[k]], p);
  }

  lemma FilterWhole<T(!new)>(s: seq<T>, p: T -> bool)
    ensures Filter(s[..|s|], p) == Filter(s, p)
  {
    assert s[..|s|] == s;
  }

  lemma {:induction false} FilterAll<T(!new)>(s: seq<T>, p: T -> bool)
    requires forall x :: x in s ==> p(x)
    ensures Filter(s, p) == s
  {
    if s != [] { FilterAll(s[1..], p); }
  }

  lemma {:induction false} FilterNone<T(!new)>(s: seq<T>, p: T -> bool)
    requires forall x :: x in s ==> !p(x)
    ensures Filter(s, p) == []
  {
    if s != [] { FilterNone(s[1..], p); }
  }

  /** Filtering twice keeps what passes both tests; a wider outer test is no test at all. */
  lemma {:induction false} FilterFilter<T(!new)>(s: seq<T>, p: T -> bool, q: T -> bool)
    requires forall x :: x in s && q(x) ==> p(x)
    ensures Filter(Filter(s, p), q) == Filter(s, q)
  {
    if s != [] {
      FilterFilter(s[1..], p, q);
      FilterConcat(if p(s[0]) then [s[0]] else [], Filter(s[1..], p), q);
    }
  }

  lemma {:induction false} FilterSame<T(!new)>(s: seq<T>, p: T -> bool, q: T -> bool)
    requires forall x :: x in s ==> p(x) == q(x)
    ensures Filter(s, p) == Filter(s, q)
  {
    if s != [] { FilterSame(s[1..], p, q); }
  }

  /** Stable insertion: `x` goes in front of the first member it does not exceed. */
  function Insert<T>(x: T, s: seq<T>, leq: (T, T) -> bool): (r: seq<T>)
    ensures multiset(r) == multiset{x} + multiset(s)
  {
    if s == [] then [x]
    else if leq(x, s[0]) then [x] + s
    else
      assert s == [s[0]] + s[1..];
      [s[0]] + Insert(x, s[1..], leq)
  }

  /** `sorted(s, key=...)`: stable, so members with equal keys keep their order. */
  function StableSort<T>(s: seq<T>, leq: (T, T) -> bool): (r: seq<T>)
    ensures multiset(r) == multiset(s)
    ensures |r| == |s|
  {
    if s == [] then [] else
      assert s == [s[0]] + s[1..];
      var r := Insert(s[0], StableSort(s[1..], leq), leq);
      assert |multiset(r)| == |r| && |multiset(s)| == |s|;
      r
  }

  predicate SortedBy<T>(s: seq<T>, leq: (T, T) -> bool) {
    forall i, j :: 0 <= i < j < |s| ==> leq(s[i], s[j])
  }

  ghost predicate TotalPreorder<T(!new)>(leq: (T, T) -> bool) {
    && (forall x, y :: leq(x, y) || leq(y, x))
    && (forall x, y, z :: leq(x, y) && leq(y, z) ==> leq(x, z))
  }

  lemma {:induction false} InsertSorted<T(!new)>(x: T, s: seq<T>, leq: (T, T) -> bool)
    requires TotalPreorder(leq) && SortedBy(s, leq)
    ensures SortedBy(Insert(x, s, leq), leq)
  {
    if s != [] && !leq(x, s[0]) {
      InsertSorted(x, s[1..], leq);
      var r := Insert(x, s[1..], leq);
      forall y | y in r ensures leq(s[0], y) {
        assert y in multiset(r);
      }
    }
  }

  lemma {:induction false} StableSortSorted<T(!new)>(s: seq<T>, leq: (T, T) -> bool)
    requires TotalPreorder(leq)
    ensures SortedBy(StableSort(s, leq), leq)
  {
    if s != [] {
      StableSortSorted(s[1..], leq);
      InsertSorted(s[0], StableSort(s[1..], leq), leq);
    }
  }

  lemma {:induction false} StableSortId<T>(s: seq<T>, leq: (T, T) -> bool)
    requires SortedBy(s, leq)
    ensures StableSort(s, leq) == s
  {
    if s != [] {
      StableSortId(s[1..], leq);
      if |s| > 1 { assert leq(s[0], s[1]); }
    }
  }

  /** Membership is preserved by sorting. */
  lemma StableSortMembers<T(!new)>(s: seq<T>, leq: (T, T) -> bool)
    ensures forall x :: x in StableSort(s, leq) <==> x in s
  {
    forall x ensures x in StableSort(s, leq) <==> x in s {
      assert x in StableSort(s, leq) <==> x in multiset(StableSort(s, leq));
      assert x in s <==> x in multiset(s);
    }
  }

  lemma {:induction false} FilterInsert<T(!new)>(x: T, s: seq<T>, leq: (T, T) -> bool, p: T -> bool)
    requires TotalPreorder(leq) && SortedBy(s, leq)
    ensures Filter(Insert(x, s, leq), p) == if p(x) then Insert(x, Filter(s, p), leq) else Filter(s, p)
  {
    if s == [] {
    } else if leq(x, s[0]) {
      InFront(x, s, leq, p);
    } else {
      FilterInsert(x, s[1..], leq, p);
      FilterCons(s, p);
      var r := Insert(x, s[1..], leq);
      assert Insert(x, s, leq)[1..] == r;
      FilterCons(Insert(x, s, leq), p);
      if p(s[0]) && p(x) { InsertBehind(x, s[0], Filter(s[1..], p), leq); }
    }
  }

  lemma InFront<T(!new)>(x: T, s: seq<T>, leq: (T, T) -> bool, p: T -> bool)
    requires TotalPreorder(leq) && SortedBy(s, leq) && s != [] && leq(x, s[0])
    ensures Filter([x] + s, p) == if p(x) then Insert(x, Filter(s, p), leq) else Filter(s, p)
  {
    var f := Filter(s, p);
    assert |f| > 0 ==> f[0] in f && f[0] in s;
    assert |f| > 0 ==> leq(x, f[0]);
    assert ([x] + s)[1..] == s;
    FilterCons([x] + s, p);
  }

  lemma InsertBehind<T>(x: T, y: T, s: seq<T>, leq: (T, T) -> bool)
    requires !leq(x, y)
    ensures Insert(x, [y] + s, leq) == [y] + Insert(x, s, leq)
  {
    assert ([y] + s)[1..] == s;
  }

  /** What passes a test comes in the same order whether one sorts before or after testing. */
  lemma {:induction false} FilterSort<T(!new)>(s: seq<T>, leq: (T, T) -> bool, p: T -> bool)
    requires TotalPreorder(leq)
    ensures Filter(StableSort(s, leq), p) == StableSort(Filter(s, p), leq)
  {
    if s != [] {
      FilterSort(s[1..], leq, p);
      StableSortSorted(s[1..], leq);
      FilterInsert(s[0], StableSort(s[1..], leq), leq, p);
      FilterCons(s, p);
      if p(s[0]) {
        var f := [s[0]] + Filter(s[1..], p);
        assert f[1..] == Filter(s[1..], p);
        assert StableSort(f, leq) == Insert(s[0], StableSort(f[1..], leq), leq);
      }
    }
  }

  lemma MiddleMultiset<T>(a: seq<T>, x: T, b: seq<T>)
    ensures multiset(a + [x] + b) == multiset(a + b) + multiset{x}
  {}

  lemma Rejoin<T>(s: seq<T>, k: nat)
    requires k < |s|
    ensures s == s[..k] + [s[k]] + s[k + 1..]
  {}

  /** Every two members at different places are related. */
  ghost predicate Pairwise<T>(s: seq<T>, rel: (T, T) -> bool) {
    forall i, j :: 0 <= i < j < |s| ==> rel(s[i], s[j])
  }

  lemma {:induction false} TwoPlaces<T>(s: seq<T>, x: T) returns (i: nat, j: nat)
    requires multiset(s)[x] >= 2
    ensures i < j < |s| && s[i] == x && s[j] == x
  {
    assert s != [] && s == [s[0]] + s[1..];
    if s[0] == x {
      assert x in multiset(s[1..]);
      i := 0;
      j :| 1 <= j < |s| && s[j] == x;
    } else {
      i, j := TwoPlaces(s[1..], x);
      i, j := i + 1, j + 1;
    }
  }

  lemma TwoOf<T>(s: seq<T>, i: nat, j: nat)
    requires i < j < |s| && s[i] == s[j]
    ensures multiset(s)[s[i]] >= 2
  {
    Rejoin(s, i);
    MiddleMultiset(s[..i], s[i], s[i + 1..]);
    assert s[j] == s[i + 1..][j - i - 1];
    assert s[j] in s[i + 1..];
    assert s[j] in multiset(s[..i] + s[i + 1..]);
  }

  lemma PlaceOf<T>(a: seq<T>, b: seq<T>, i: nat) returns (p: nat)
    requires multiset(a) == multiset(b) && i < |b|
    ensures p < |a| && a[p] == b[i]
  {
    assert b[i] in multiset(a);
    p :| 0 <= p < |a| && a[p] == b[i];
  }

  /** A symmetric relation between every two members does not depend on their order. */
  lemma PairwisePermuted<T(!new)>(a: seq<T>, b: seq<T>, rel: (T, T) -> bool)
    requires multiset(a) == multiset(b) && Pairwise(a, rel) && forall x, y :: rel(x, y) ==> rel(y, x)
    ensures Pairwise(b, rel)
  {
    forall i, j | 0 <= i < j < |b| ensures rel(b[i], b[j]) {
      var p, q;
      if b[i] == b[j] {
        TwoOf(b, i, j);
        p, q := TwoPlaces(a, b[i]);
      } else {
        p := PlaceOf(a, b, i);
        q := PlaceOf(a, b, j);
      }
    }
  }

  lemma HeadSame<T(!new)>(a: seq<T>, b: seq<T>, leq: (T, T) -> bool)
    requires SortedBy(a, leq) && SortedBy(b, leq) && a != [] && b != [] && a[0] in b && b[0] in a
    requires forall x, y :: x in a && y in a && leq(x, y) && leq(y, x) ==> x == y
    ensures a[0] == b[0]
  {
    var i :| 0 <= i < |b| && b[i] == a[0];
    var j :| 0 <= j < |a| && a[j] == b[0];
    assert i > 0 && j > 0 ==> leq(b[0], b[i]) && leq(a[0], a[j]);
  }

  lemma TailMultiset<T>(s: seq<T>)
    requires s != []
    ensures multiset(s[1..]) == multiset(s) - multiset{s[0]}
  {
    assert s == [s[0]] + s[1..];
  }

  /** Two ordered lists of the same members are equal when no two different members tie. */
  lemma {:induction false} SortedUnique<T(!new)>(a: seq<T>, b: seq<T>, leq: (T, T) -> bool)
    requires SortedBy(a, leq) && SortedBy(b, leq) && multiset(a) == multiset(b)
    requires forall x, y :: x in a && y in a && leq(x, y) && leq(y, x) ==> x == y
    ensures a == b
  {
    assert |multiset(a)| == |a| && |multiset(b)| == |b|;
    if a != [] {
      assert a[0] in multiset(b) && b[0] in multiset(a);
      HeadSame(a, b, leq);
      TailMultiset(a);
      TailMultiset(b);
      SortedUnique(a[1..], b[1..], leq);
    }
  }

  /** The members whose key is at most `cut`. */
  function UpTo<T>(key: T -> int, cut: int): T -> bool { x => key(x) <= cut }

  /** The list is ordered by a key. */
  ghost predicate KeyOrdered<T>(s: seq<T>, key: T -> int) {
    forall i, j :: 0 <= i < j < |s| ==> key(s[i]) <= key(s[j])
  }

  /** The members up to `cut` are the first `m`. */
  ghost predicate CutsAt<T>(s: seq<T>, key: T -> int, cut: int, m: nat) {
    m <= |s| && (forall i :: 0 <= i < m ==> key(s[i]) <= cut) && forall i :: m <= i < |s| ==> key(s[i]) > cut
  }

  lemma {:induction false} CutExists<T>(s: seq<T>, key: T -> int, cut: int) returns (m: nat)
    requires KeyOrdered(s, key)
    ensures CutsAt(s, key, cut, m)
  {
    if s == [] || key(s[|s| - 1]) <= cut {
      m := |s|;
    } else {
      m := CutExists(s[..|s| - 1], key, cut);
    }
  }

  /** In a list ordered by a key, those up to a cut come first. */
  lemma UpToIsPrefix<T(!new)>(s: seq<T>, key: T -> int, cut: int, m: nat)
    requires CutsAt(s, key, cut, m)
    ensures Filter(s, UpTo(key, cut)) == s[..m]
  {
    var p := UpTo(key, cut);
    assert s == s[..m] + s[m..];
    FilterConcat(s[..m], s[m..], p);
    FilterAll(s[..m], p);
    FilterNone(s[m..], p);
  }

  /** The order of texts, character by character. */
  predicate TextLeq(a: string, b: string) {
    a == "" || (b != "" && (a[0] < b[0] || (a[0] == b[0] && TextLeq(a[1..], b[1..]))))
  }

  lemma {:induction false} TextTotal(a: string, b: string)
    ensures TextLeq(a, b) || TextLeq(b, a)
    ensures TextLeq(a, b) && TextLeq(b, a) ==> a == b
  {
    if a != "" && b != "" && a[0] == b[0] {
      TextTotal(a[1..], b[1..]);
      assert a == [a[0]] + a[1..] && b == [b[0]] + b[1..];
    }
  }

  lemma {:induction false} TextTransitive(a: string, b: string, c: string)
    requires TextLeq(a, b) && TextLeq(b, c)
    ensures TextLeq(a, c)
  {
    if a != "" && b != "" && c != "" && a[0] == b[0] == c[0] { TextTransitive(a[1..], b[1..], c[1..]); }
  }

  /** The order of tuples of texts, component by component. */
  predicate ListLeq(a: seq<string>, b: seq<string>) {
    a == [] || (b != [] && (if a[0] == b[0] then ListLeq(a[1..], b[1..]) else TextLeq(a[0], b[0])))
  }

  lemma {:induction false} ListTotal(a: seq<string>, b: seq<string>)
    ensures ListLeq(a, b) || ListLeq(b, a)
    ensures ListLeq(a, b) && ListLeq(b, a) ==> a == b
  {
    if a != [] && b != [] {
      if a[0] == b[0] {
        ListTotal(a[1..], b[1..]);
        assert a == [a[0]] + a[1..] && b == [b[0]] + b[1..];
      } else {
        TextTotal(a[0], b[0]);
      }
    }
  }

  lemma {:induction false} ListTransitive(a: seq<string>, b: seq<string>, c: seq<string>)
    requires ListLeq(a, b) && ListLeq(b, c)
    ensures ListLeq(a, c)
  {
    if a != [] && b != [] && c != [] {
      if a[0] == b[0] == c[0] {
        ListTransitive(a[1..], b[1..], c[1..]);
      } else if a[0] != b[0] && b[0] != c[0] {
        TextTransitive(a[0], b[0], c[0]);
        TextTotal(a[0], b[0]);
      }
    }
  }

  /** What orders two tuples strictly orders them whatever is appended. */
  lemma {:induction false} ListExtend(a: seq<string>, b: seq<string>, x: seq<string>, y: seq<string>)
    requires |a| == |b| && !ListLeq(b, a)
    ensures ListLeq(a + x, b + y)
  {
    if a == [] {
      assert false;
    } else {
      assert (a + x)[1..] == a[1..] + x && (b + y)[1..] == b[1..] + y;
      if a[0] == b[0] { ListExtend(a[1..], b[1..], x, y); } else { TextTotal(a[0], b[0]); }
    }
  }
}
