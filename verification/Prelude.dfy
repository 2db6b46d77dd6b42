/** Shared vocabulary: optional values and the one notion of ordering used by every
    `ORDER BY`, `sorted` and `.sort` of the repository. */
module Prelude {

  datatype Option<+T> = None | Some(value: T)

  /** A sort key of up to three columns, compared column by column. */
  datatype Rank = Rank(major: int, middle: int, minor: int)

  predicate Below(x: Rank, y: Rank) {
    x.major < y.major
    || (x.major == y.major
        && (x.middle < y.middle || (x.middle == y.middle && x.minor < y.minor)))
  }

  ghost function Elements<T>(s: seq<T>): set<T> {
    set x | x in s
  }

  ghost predicate Distinct<T>(s: seq<T>) {
    forall i, j :: 0 <= i < j < |s| ==> s[i] != s[j]
  }

  ghost predicate Ascending<T>(s: seq<T>, rank: T -> Rank) {
    forall i, j :: 0 <= i < j < |s| ==> Below(rank(s[i]), rank(s[j]))
  }

  /** No two members share a sort key. */
  ghost predicate Separated<T>(s: set<T>, rank: T -> Rank) {
    forall x, y :: x in s && y in s && x != y ==> rank(x) != rank(y)
  }

  ghost predicate IsLeast<T>(m: T, s: set<T>, rank: T -> Rank) {
    m in s && forall x :: x in s && x != m ==> Below(rank(m), rank(x))
  }

  lemma LeastExists<T>(s: set<T>, rank: T -> Rank)
    requires s != {} && Separated(s, rank)
    ensures exists m :: IsLeast(m, s, rank)
  {
    var x :| x in s;
    if s == {x} {
      assert IsLeast(x, s, rank);
    } else {
      LeastExists(s - {x}, rank);
      var m :| IsLeast(m, s - {x}, rank);
      assert rank(x) != rank(m);
      assert IsLeast(if Below(rank(m), rank(x)) then m else x, s, rank);
    }
  }

  lemma PrependElements<T>(x: T, s: seq<T>)
    ensures Elements([x] + s) == {x} + Elements(s)
    ensures forall y :: y in s ==> y in Elements(s)
  {
    forall y ensures y in [x] + s <==> y == x || y in s {}
  }

  lemma PrependLeast<T>(m: T, s: set<T>, rest: seq<T>, rank: T -> Rank)
    requires IsLeast(m, s, rank)
    requires Ascending(rest, rank) && Elements(rest) == s - {m} && |rest| == |s| - 1
    ensures Ascending([m] + rest, rank) && Elements([m] + rest) == s && |[m] + rest| == |s|
  {
    PrependElements(m, rest);
    forall i | 0 <= i < |rest| ensures Below(rank(m), rank(rest[i])) {
      assert rest[i] in Elements(rest);
    }
  }

  /** The members of `s` in ascending order of their sort keys. */
  ghost function Arranged<T>(s: set<T>, rank: T -> Rank): (r: seq<T>)
    requires Separated(s, rank)
    ensures Ascending(r, rank) && Elements(r) == s && |r| == |s|
  {
    if s == {} then []
    else
      LeastExists(s, rank);
      var m :| IsLeast(m, s, rank);
      var rest := Arranged(s - {m}, rank);
      PrependLeast(m, s, rest, rank);
      [m] + rest
  }

  /** An ascending listing of a set is unique. */
  lemma {:induction false} AscendingUnique<T>(s: seq<T>, t: seq<T>, rank: T -> Rank)
    requires Ascending(s, rank) && Ascending(t, rank)
    requires Elements(s) == Elements(t)
    ensures s == t
  {
    assert t != [] ==> t[0] in Elements(t);
    if s == [] {
    } else {
      assert s[0] in Elements(s);
      assert t != [];
      assert t[0] in Elements(t);
      var i :| 0 <= i < |t| && t[i] == s[0];
      var j :| 0 <= j < |s| && s[j] == t[0];
      assert s[0] == t[0];
      forall x ensures x in Elements(s[1..]) <==> x in Elements(t[1..]) {
        if x in s[1..] {
          assert x in Elements(s) && x != s[0];
          assert x in t;
        }
        if x in t[1..] {
          assert x in Elements(t) && x != t[0];
          assert x in s;
        }
      }
      AscendingUnique(s[1..], t[1..], rank);
    }
  }

  lemma AppendGreatest<T>(s: seq<T>, x: T, rank: T -> Rank)
    requires Ascending(s, rank) && forall y :: y in Elements(s) ==> Below(rank(y), rank(x))
    ensures Ascending(s + [x], rank) && Elements(s + [x]) == Elements(s) + {x}
  {
    forall i | 0 <= i < |s| ensures Below(rank(s[i]), rank(x)) { assert s[i] in Elements(s); }
  }

  lemma InsertedElements<T>(s: seq<T>, i: nat, x: T)
    requires i <= |s|
    ensures Elements(s[..i] + [x] + s[i..]) == Elements(s) + {x}
  {
    var r := s[..i] + [x] + s[i..];
    forall y | y in s ensures y in r {
      var j :| 0 <= j < |s| && s[j] == y;
      assert r[if j < i then j else j + 1] == y;
    }
    assert r[i] == x;
  }

  /** Insertion into an ascending list, scanning from the front. */
  method InsertRanked<T>(s: seq<T>, x: T, rank: T -> Rank) returns (r: seq<T>)
    requires Ascending(s, rank)
    requires forall y :: y in s ==> rank(y) != rank(x)
    ensures Ascending(r, rank) && |r| == |s| + 1
    ensures Elements(r) == Elements(s) + {x}
  {
    var i := 0;
    while i < |s| && Below(rank(s[i]), rank(x))
      invariant 0 <= i <= |s|
      invariant forall j :: 0 <= j < i ==> Below(rank(s[j]), rank(x))
    {
      i := i + 1;
    }
    r := s[..i] + [x] + s[i..];
    InsertedElements(s, i, x);
    assert i < |s| ==> s[i] in s;
  }

  /** `sorted`: the list arranged by its sort keys. */
  method SortRanked<T>(s: seq<T>, rank: T -> Rank) returns (r: seq<T>)
    requires Separated(Elements(s), rank)
    requires Distinct(s)
    ensures r == Arranged(Elements(s), rank)
  {
    r := [];
    for i := 0 to |s|
      invariant Ascending(r, rank)
      invariant Elements(r) == Elements(s[..i])
    {
      forall y | y in r ensures rank(y) != rank(s[i]) {
        assert y in Elements(r);
        var j :| 0 <= j < i && s[j] == y;
        assert y in Elements(s) && s[i] in Elements(s);
      }
      r := InsertRanked(r, s[i], rank);
      assert s[..i + 1] == s[..i] + [s[i]];
    }
    assert s[..|s|] == s;
    AscendingUnique(r, Arranged(Elements(s), rank), rank);
  }

  /** Any member of a set that is not empty. */
  method Pick<T(==)>(s: set<T>) returns (x: T)
    requires s != {}
    ensures x in s
  {
    x :| x in s;
  }

  /** `SELECT ... ORDER BY`: the rows of a table, each once, in key order. */
  method SelectOrdered<T(==)>(s: set<T>, rank: T -> Rank) returns (r: seq<T>)
    requires Separated(s, rank)
    ensures r == Arranged(s, rank)
  {
    r := [];
    var rest := s;
    while rest != {}
      invariant rest <= s
      invariant Ascending(r, rank) && Elements(r) == s - rest
      decreases |rest|
    {
      var x :| x in rest;
      forall y | y in r ensures rank(y) != rank(x) { assert y in Elements(r); }
      r := InsertRanked(r, x, rank);
      rest := rest - {x};
    }
    AscendingUnique(r, Arranged(s, rank), rank);
  }

  lemma AscendingDistinct<T>(s: seq<T>, rank: T -> Rank)
    requires Ascending(s, rank)
    ensures Distinct(s)
  {
    forall i, j | 0 <= i < j < |s| ensures s[i] != s[j] {
      assert Below(rank(s[i]), rank(s[j]));
    }
  }

  lemma SameSize<T>(a: set<T>, b: set<T>)
    requires a <= b && |a| == |b|
    ensures a == b
  {
    if a != b {
      var x :| x in b && x !in a;
      assert a <= b - {x};
      SubsetSize(a, b - {x});
    }
  }

  lemma {:induction false} SubsetSize<T>(a: set<T>, b: set<T>)
    requires a <= b
    ensures |a| <= |b|
  {
    if a != {} {
      var x :| x in a;
      SubsetSize(a - {x}, b - {x});
    }
  }
}
