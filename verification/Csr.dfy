/** The growable row-sparse matrix: compressed rows with an index origin of 1. */
module Csr {
  import opened Common
  import Types

  const Origin := 1
  const Growth := 1000

  type Elements = map<(nat, int), real>

  // ---------------------------------------------------------------- what the arrays represent

  /** The contents of the three arrays, and how much of them is in use. */
  datatype Rep = Rep(ia: seq<int>, ja: seq<int>, a: seq<real>, nonzeros: nat, current: nat)

  ghost predicate Layout(r: Rep) {
    && r.current < |r.ia|
    && |r.ja| == |r.a| && r.nonzeros <= |r.ja|
    && r.ia[0] == Origin && r.ia[r.current] == r.nonzeros + Origin
    && Rising(r)
  }

  /** No row starts before the one above it. */
  ghost predicate Rising(r: Rep)
    requires r.current < |r.ia|
  {
    forall i, j :: 0 <= i <= j <= r.current ==> r.ia[i] <= r.ia[j]
  }

  /** Position p belongs to row i. */
  ghost predicate InRow(r: Rep, i: nat, p: int)
    requires i + 1 < |r.ia|
  {
    r.ia[i] - Origin <= p < r.ia[i + 1] - Origin
  }

  ghost predicate Position(r: Rep, i: nat, p: int) {
    i < r.current && i + 1 < |r.ia| && InRow(r, i, p) && 0 <= p < r.nonzeros
  }

  /** The column and the value at a position. */
  function Col(r: Rep, p: int): int { if 0 <= p < |r.ja| then r.ja[p] else 0 }

  function Val(r: Rep, p: int): real { if 0 <= p < |r.a| then r.a[p] else 0.0 }

  lemma RowInside(r: Rep, i: nat)
    requires Layout(r) && i < r.current
    ensures 0 <= r.ia[i] - Origin <= r.ia[i + 1] - Origin <= r.nonzeros
  {
    assert r.ia[0] <= r.ia[i] <= r.ia[i + 1] <= r.ia[r.current];
  }

  lemma RowsInOrder(r: Rep, i: nat, j: nat)
    requires Layout(r) && i < r.current && j < r.current
    ensures i < j ==> r.ia[i + 1] <= r.ia[j]
  {}

  lemma RowsApart(r: Rep, i: nat, j: nat, p: int)
    requires Layout(r) && Position(r, i, p) && Position(r, j, p)
    ensures i == j
  {
    hide Rising;
    RowsInOrder(r, i, j);
    RowsInOrder(r, j, i);
  }

  ghost predicate Stored(r: Rep, i: nat, j: int) {
    exists p :: Position(r, i, p) && Col(r, p) - Origin == j
  }

  /** Position p is the first in row i with its column: the one that find_element finds. */
  ghost predicate First(r: Rep, i: nat, p: int) {
    Position(r, i, p) && forall q :: q < p && Position(r, i, q) ==> Col(r, q) != Col(r, p)
  }

  /** Each position that can be found holds the value of an element. */
  ghost predicate Sound(r: Rep, e: Elements) {
    forall i: nat, p :: First(r, i, p) ==> (i, Col(r, p) - Origin) in e && e[(i, Col(r, p) - Origin)] == Val(r, p)
  }

  /** Each element has a position in its row. */
  ghost predicate Complete(r: Rep, e: Elements) {
    forall k :: k in e ==> Stored(r, k.0, k.1)
  }

  /** No row has a column twice. */
  ghost predicate Single(r: Rep) {
    forall i: nat, p, q :: Position(r, i, p) && Position(r, i, q) && p != q ==> Col(r, p) != Col(r, q)
  }

  ghost predicate Agrees(r: Rep, e: Elements, doubled: bool) {
    Sound(r, e) && Complete(r, e) && (!doubled ==> Single(r))
  }

  lemma FirstOnce(r: Rep, i: nat, p: int, q: int)
    requires First(r, i, p) && First(r, i, q) && Col(r, p) == Col(r, q)
    ensures p == q
  {
    hide Position, Col;
  }

  lemma SingleIsFirst(r: Rep, i: nat, p: int)
    requires Single(r) && Position(r, i, p)
    ensures First(r, i, p)
  {
    hide Position, Col;
  }

  /** Whatever has the same positions with the same columns and values agrees with the same elements. */
  lemma SamePositions(r: Rep, s: Rep, e: Elements, doubled: bool)
    requires Agrees(r, e, doubled)
    requires forall k: nat, q :: Position(s, k, q) <==> Position(r, k, q)
    requires forall k: nat, q :: Position(r, k, q) ==> Col(s, q) == Col(r, q) && Val(s, q) == Val(r, q)
    ensures Agrees(s, e, doubled)
  {
    hide Layout, Position, Col, Val, Stored;
    assert forall i: nat, p :: First(s, i, p) ==> First(r, i, p);
    forall k | k in e
      ensures Stored(s, k.0, k.1)
    {
      StoredToo(r, s, k.0, k.1);
    }
  }

  lemma StoredToo(r: Rep, s: Rep, i: nat, j: int)
    requires Stored(r, i, j)
    requires forall q :: Position(r, i, q) ==> Position(s, i, q) && Col(s, q) == Col(r, q)
    ensures Stored(s, i, j)
  {
    hide Layout, Position, Col, Val;
    var q :| Position(r, i, q) && Col(r, q) - Origin == j;
    assert Position(s, i, q);
  }

  lemma ValueSame(r: Rep, i: nat, p: int, v: real)
    requires Layout(r) && Position(r, i, p)
    ensures var s := r.(a := r.a[p := v]);
      && Layout(s)
      && (forall k: nat, q :: Position(s, k, q) <==> Position(r, k, q))
      && (forall q :: Col(s, q) == Col(r, q))
      && forall k: nat, q :: Position(r, k, q) ==> Val(s, q) == if q == p then v else Val(r, q)
  {
    hide Rising;
    assert Rising(r.(a := r.a[p := v])) by { RisingSame(r, r.(a := r.a[p := v])); }
  }

  lemma RisingSame(r: Rep, s: Rep)
    requires r.current < |r.ia| && Rising(r) && s.ia == r.ia && s.current == r.current
    ensures Rising(s)
  {}

  lemma ValueSound(r: Rep, e: Elements, i: nat, p: int, v: real)
    requires Layout(r) && Sound(r, e) && First(r, i, p)
    ensures Sound(r.(a := r.a[p := v]), e[(i, Col(r, p) - Origin) := v])
  {
    var s := r.(a := r.a[p := v]);
    var e' := e[(i, Col(r, p) - Origin) := v];
    ValueSame(r, i, p, v);
    hide Layout, Position, Col, Val;
    forall k: nat, q | First(s, k, q)
      ensures (k, Col(s, q) - Origin) in e' && e'[(k, Col(s, q) - Origin)] == Val(s, q)
    {
      assert First(r, k, q);
      if q == p {
        RowsApart(r, i, k, p);
      } else if k == i && Col(s, q) == Col(r, p) {
        FirstOnce(r, i, p, q);
      }
    }
  }

  lemma ValueComplete(r: Rep, e: Elements, i: nat, p: int, v: real)
    requires Layout(r) && Complete(r, e) && Position(r, i, p)
    ensures Complete(r.(a := r.a[p := v]), e[(i, Col(r, p) - Origin) := v])
  {
    var s := r.(a := r.a[p := v]);
    var e' := e[(i, Col(r, p) - Origin) := v];
    ValueSame(r, i, p, v);
    hide Layout, Position, Col, Val, Stored;
    forall k | k in e'
      ensures Stored(s, k.0, k.1)
    {
      if k in e {
        StoredToo(r, s, k.0, k.1);
      } else {
        StoredAt(s, i, p);
      }
    }
  }

  lemma ValueSingle(r: Rep, i: nat, p: int, v: real)
    requires Layout(r) && Single(r) && Position(r, i, p)
    ensures Single(r.(a := r.a[p := v]))
  {
    ValueSame(r, i, p, v);
    hide Layout, Position, Col, Val;
  }

  lemma ValueKeeps(r: Rep, e: Elements, doubled: bool, i: nat, p: int, v: real)
    requires Layout(r) && Agrees(r, e, doubled) && First(r, i, p)
    ensures var s := r.(a := r.a[p := v]); Layout(s) && Agrees(s, e[(i, Col(r, p) - Origin) := v], doubled)
  {
    hide Position, Rising, Col, Val, Sound, Complete, Single;
    ValueSame(r, i, p, v);
    ValueSound(r, e, i, p, v);
    ValueComplete(r, e, i, p, v);
    if !doubled {
      ValueSingle(r, i, p, v);
    }
  }

  lemma StoredAt(r: Rep, i: nat, p: int)
    requires Position(r, i, p)
    ensures Stored(r, i, Col(r, p) - Origin)
  {
    hide Position, Col;
  }

  function WithRow(r: Rep): Rep
    requires r.current + 1 < |r.ia|
  {
    r.(ia := r.ia[r.current + 1 := r.ia[r.current]], current := r.current + 1)
  }

  lemma RowSame(r: Rep)
    requires Layout(r) && r.current + 1 < |r.ia|
    ensures Layout(WithRow(r))
    ensures forall k: nat, q :: Position(WithRow(r), k, q) <==> Position(r, k, q)
    ensures forall q :: Col(WithRow(r), q) == Col(r, q) && Val(WithRow(r), q) == Val(r, q)
  {}

  lemma RowKeeps(r: Rep, e: Elements, doubled: bool)
    requires Layout(r) && Agrees(r, e, doubled) && r.current + 1 < |r.ia|
    ensures Layout(WithRow(r)) && Agrees(WithRow(r), e, doubled)
  {
    hide Layout, Agrees, Position, Col, Val;
    RowSame(r);
    SamePositions(r, WithRow(r), e, doubled);
  }

  /** The arrays behind an insertion into the last row. */
  function Inserted(r: Rep, j: int, v: real): Rep
    requires 0 < r.current < |r.ia| && r.nonzeros < |r.ja| == |r.a|
  {
    Rep(r.ia[r.current := r.ia[r.current] + 1], r.ja[r.nonzeros := j + Origin], r.a[r.nonzeros := v],
        r.nonzeros + 1, r.current)
  }

  lemma InsertSame(r: Rep, j: int, v: real)
    requires Layout(r) && 0 < r.current && r.nonzeros < |r.ja|
    ensures var s := Inserted(r, j, v);
      && Layout(s) && Position(s, r.current - 1, r.nonzeros)
      && Col(s, r.nonzeros) == j + Origin && Val(s, r.nonzeros) == v
      && (forall k: nat, q :: Position(s, k, q) <==> Position(r, k, q) || (k == r.current - 1 && q == r.nonzeros))
      && forall k: nat, q :: Position(r, k, q) ==> q != r.nonzeros && Col(s, q) == Col(r, q) && Val(s, q) == Val(r, q)
  {
    var s := Inserted(r, j, v);
    forall k: nat, q
      ensures Position(s, k, q) <==> Position(r, k, q) || (k == r.current - 1 && q == r.nonzeros)
    {
      if k < r.current {
        RowInside(r, k);
      }
    }
  }

  /** The elements behind it: what was there before is found before it. */
  function WithNew(e: Elements, i: nat, j: int, v: real): Elements { if (i, j) in e then e else e[(i, j) := v] }

  lemma InsertKeeps(r: Rep, e: Elements, doubled: bool, j: int, v: real)
    requires Layout(r) && Agrees(r, e, doubled) && 0 < r.current && r.nonzeros < |r.ja|
    ensures Layout(Inserted(r, j, v))
    ensures Agrees(Inserted(r, j, v), WithNew(e, r.current - 1, j, v), doubled || (r.current - 1, j) in e)
  {
    hide Position, Inserted, Rising, Col, Val, Stored, First, Sound, Single;
    var s, last := Inserted(r, j, v), r.current - 1;
    InsertSame(r, j, v);
    InsertSound(r, e, j, v);
    assert Complete(s, WithNew(e, last, j, v)) by {
      forall k | k in WithNew(e, last, j, v)
        ensures Stored(s, k.0, k.1)
      {
        if k in e {
          StoredToo(r, s, k.0, k.1);
        } else {
          StoredAt(s, last, r.nonzeros);
        }
      }
    }
    if !doubled && (last, j) !in e {
      SingleAfterInsert(r, e, j, v);
    }
  }

  lemma InsertSound(r: Rep, e: Elements, j: int, v: real)
    requires Layout(r) && Sound(r, e) && Complete(r, e) && 0 < r.current && r.nonzeros < |r.ja|
    ensures Sound(Inserted(r, j, v), WithNew(e, r.current - 1, j, v))
  {
    hide Position, Inserted, Rising, Col, Val, Complete;
    var s, last := Inserted(r, j, v), r.current - 1;
    var e' := WithNew(e, last, j, v);
    InsertSame(r, j, v);
    forall k: nat, q | First(s, k, q)
      ensures (k, Col(s, q) - Origin) in e' && e'[(k, Col(s, q) - Origin)] == Val(s, q)
    {
      if q != r.nonzeros {
        assert First(r, k, q);
      } else if (last, j) in e {
        var p := CompleteAt(r, e, last, j);
        assert p < r.nonzeros by { PositionInUse(r, last, p); }
      } else {
        NewRow(r, j, v, k);
      }
    }
  }

  lemma PositionInUse(r: Rep, i: nat, p: int)
    requires Position(r, i, p)
    ensures 0 <= p < r.nonzeros
  {}

  lemma NewRow(r: Rep, j: int, v: real, k: nat)
    requires Layout(r) && 0 < r.current && r.nonzeros < |r.ja| && Position(Inserted(r, j, v), k, r.nonzeros)
    ensures k == r.current - 1
  {
    hide Inserted, Rising;
    InsertSame(r, j, v);
  }

  lemma CompleteAt(r: Rep, e: Elements, i: nat, j: int) returns (p: int)
    requires Complete(r, e) && (i, j) in e
    ensures Position(r, i, p) && Col(r, p) - Origin == j
  {
    hide Position, Col;
    assert Stored(r, (i, j).0, (i, j).1);
    p :| Position(r, i, p) && Col(r, p) - Origin == j;
  }

  lemma SingleAfterInsert(r: Rep, e: Elements, j: int, v: real)
    requires Layout(r) && Sound(r, e) && Single(r) && 0 < r.current && r.nonzeros < |r.ja|
    requires (r.current - 1, j) !in e
    ensures Layout(Inserted(r, j, v)) && Single(Inserted(r, j, v))
  {
    hide Position, Inserted, Rising, Col, Val;
    InsertSame(r, j, v);
    var s := Inserted(r, j, v);
    forall k: nat, p, q | Position(s, k, p) && Position(s, k, q) && p != q
      ensures Col(s, p) != Col(s, q)
    {
      assert p != r.nonzeros ==> First(r, k, p) && (k, Col(r, p) - Origin) in e;
      assert q != r.nonzeros ==> First(r, k, q) && (k, Col(r, q) - Origin) in e;
    }
  }

  lemma SameContents(r: Rep, s: Rep)
    requires r.nonzeros <= |r.ja| && |r.ja| == |r.a| && r.nonzeros <= |s.ja| && |s.ja| == |s.a|
    requires forall q :: 0 <= q < r.nonzeros ==> s.ja[q] == r.ja[q] && s.a[q] == r.a[q]
    ensures forall q :: 0 <= q < r.nonzeros ==> Col(s, q) == Col(r, q) && Val(s, q) == Val(r, q)
  {}

  /** Other contents beyond the positions in use, in arrays of whatever length, make no difference. */
  lemma RestKeeps(r: Rep, s: Rep, e: Elements, doubled: bool)
    requires Layout(r) && Agrees(r, e, doubled) && |s.ja| == |s.a| >= r.nonzeros
    requires s == r.(ja := s.ja, a := s.a)
    requires forall q :: 0 <= q < r.nonzeros ==> Col(s, q) == Col(r, q) && Val(s, q) == Val(r, q)
    ensures Layout(s) && Agrees(s, e, doubled)
  {
    hide Agrees, Rising;
    RisingSame(r, s);
    SamePositions(r, s, e, doubled);
  }

  // ---------------------------------------------------------------- sorting a row

  /** matrix_element: a column as stored, and its value. */
  datatype Entry = Entry(column: int, value: real)

  function InsertEntry(sorted: seq<Entry>, e: Entry): (r: seq<Entry>)
    ensures |r| == |sorted| + 1
  {
    if sorted == [] || e.column < sorted[0].column then [e] + sorted
    else [sorted[0]] + InsertEntry(sorted[1..], e)
  }

  /** qsort by column. */
  function SortEntries(entries: seq<Entry>): (r: seq<Entry>)
    ensures |r| == |entries|
  {
    if entries == [] then [] else InsertEntry(SortEntries(entries[..|entries| - 1]), entries[|entries| - 1])
  }

  ghost predicate Ordered(s: seq<Entry>) { forall p, q :: 0 <= p < q < |s| ==> s[p].column <= s[q].column }

  ghost predicate Distinct(s: seq<Entry>) { forall p, q :: 0 <= p < q < |s| ==> s[p].column != s[q].column }

  lemma {:induction false} InsertPermutes(sorted: seq<Entry>, e: Entry)
    ensures multiset(InsertEntry(sorted, e)) == multiset(sorted) + multiset{e}
  {
    if sorted != [] && e.column >= sorted[0].column {
      InsertPermutes(sorted[1..], e);
      assert sorted == [sorted[0]] + sorted[1..];
    }
  }

  lemma {:induction false} InsertOrders(sorted: seq<Entry>, e: Entry)
    requires Ordered(sorted)
    ensures Ordered(InsertEntry(sorted, e))
  {
    if sorted != [] && e.column >= sorted[0].column {
      InsertOrders(sorted[1..], e);
      InsertPermutes(sorted[1..], e);
      var r := InsertEntry(sorted[1..], e);
      forall q | 0 <= q < |r|
        ensures sorted[0].column <= r[q].column
      {
        assert r[q] in multiset(r);
      }
    }
  }

  /** Sorting puts the same entries in order of column. */
  lemma {:induction false} SortOrders(entries: seq<Entry>)
    ensures Ordered(SortEntries(entries)) && multiset(SortEntries(entries)) == multiset(entries)
  {
    if entries != [] {
      var n := |entries| - 1;
      SortOrders(entries[..n]);
      InsertOrders(SortEntries(entries[..n]), entries[n]);
      InsertPermutes(SortEntries(entries[..n]), entries[n]);
      assert entries == entries[..n] + [entries[n]];
    }
  }

  /** Entries with different columns keep them under every reordering. */
  lemma {:induction false} DistinctToo(s: seq<Entry>, t: seq<Entry>)
    requires Distinct(s) && multiset(s) == multiset(t)
    ensures Distinct(t)
  {
    forall p, q | 0 <= p < q < |t|
      ensures t[p].column != t[q].column
    {
      if t[p].column == t[q].column {
        assert t[p] in multiset(s) && t[q] in multiset(s);
        var x :| 0 <= x < |s| && s[x] == t[p];
        var y :| 0 <= y < |s| && s[y] == t[q];
        Twice(t, p, q);
        if multiset(s)[t[p]] >= 2 {
          var u, v := TwoPlaces(s, t[p]);
        }
      }
    }
  }

  lemma Twice(t: seq<Entry>, p: nat, q: nat)
    requires p < q < |t| && t[p] == t[q]
    ensures multiset(t)[t[p]] >= 2
  {
    assert t == t[..q] + [t[q]] + t[q + 1..];
    assert t[p] in t[..q];
  }

  lemma {:induction false} TwoPlaces(s: seq<Entry>, e: Entry) returns (u: nat, v: nat)
    requires multiset(s)[e] >= 2
    ensures u < v < |s| && s[u] == s[v] == e
  {
    var n := |s| - 1;
    assert s == s[..n] + [s[n]];
    if s[n] == e {
      assert e in multiset(s[..n]);
      u :| 0 <= u < n && s[u] == e;
      v := n;
    } else {
      u, v := TwoPlaces(s[..n], e);
    }
  }

  /** The entries of row i. */
  function RowOf(r: Rep, i: nat): seq<Entry>
    requires i + 1 < |r.ia| && 0 <= r.ia[i] - Origin <= r.ia[i + 1] - Origin <= |r.ja| == |r.a|
  {
    seq(r.ia[i + 1] - r.ia[i], p requires 0 <= p < r.ia[i + 1] - r.ia[i] =>
      Entry(r.ja[r.ia[i] - Origin + p], r.a[r.ia[i] - Origin + p]))
  }

  lemma RowIsDistinct(r: Rep, i: nat)
    requires Layout(r) && Single(r) && i < r.current
    ensures 0 <= r.ia[i] - Origin <= r.ia[i + 1] - Origin <= r.nonzeros && Distinct(RowOf(r, i))
  {
    hide Rising;
    RowInside(r, i);
    var start, row := r.ia[i] - Origin, RowOf(r, i);
    forall p, q | 0 <= p < q < |row|
      ensures row[p].column != row[q].column
    {
      assert Position(r, i, start + p) && Position(r, i, start + q);
    }
  }

  /** Only row i differs, and it has the same entries in order. */
  ghost predicate RowSorted(r: Rep, s: Rep, i: nat)
    requires Layout(r) && i < r.current
  {
    && s == r.(ja := s.ja, a := s.a) && |s.ja| == |s.a| == |r.ja|
    && (forall q :: 0 <= q < |r.ja| && !InRow(r, i, q) ==> Col(s, q) == Col(r, q) && Val(s, q) == Val(r, q))
    && 0 <= r.ia[i] - Origin <= r.ia[i + 1] - Origin <= r.nonzeros
    && Ordered(RowOf(s, i))
    && multiset(RowOf(s, i)) == multiset(RowOf(r, i))
  }

  /** Every position of the other rows, and of the sorted row in the other order, has a partner with its contents. */
  lemma Partner(r: Rep, s: Rep, i: nat, k: nat, p: int) returns (q: int)
    requires Layout(r) && Layout(s) && i < r.current && RowSorted(r, s, i) && Position(s, k, p)
    ensures Position(r, k, q) && Col(r, q) == Col(s, p) && Val(r, q) == Val(s, p)
  {
    hide Rising;
    if k == i {
      var start := r.ia[i] - Origin;
      assert RowOf(s, i)[p - start] in multiset(RowOf(s, i));
      var m :| 0 <= m < |RowOf(r, i)| && RowOf(r, i)[m] == RowOf(s, i)[p - start];
      q := start + m;
    } else {
      q := p;
      if InRow(r, i, p) {
        RowsApart(r, i, k, p);
      }
    }
  }

  lemma BackPartner(r: Rep, s: Rep, i: nat, k: nat, q: int) returns (p: int)
    requires Layout(r) && Layout(s) && i < r.current && RowSorted(r, s, i) && Position(r, k, q)
    ensures Position(s, k, p) && Col(r, q) == Col(s, p)
  {
    hide Rising;
    if k == i {
      var start := r.ia[i] - Origin;
      assert RowOf(r, i)[q - start] in multiset(RowOf(r, i));
      var m :| 0 <= m < |RowOf(s, i)| && RowOf(s, i)[m] == RowOf(r, i)[q - start];
      p := start + m;
    } else {
      p := q;
      if InRow(r, i, q) {
        RowsApart(r, i, k, q);
      }
    }
  }

  /** Sorting a row changes no element. */
  lemma SortKeeps(r: Rep, s: Rep, e: Elements, i: nat)
    requires Layout(r) && Agrees(r, e, false) && i < r.current && RowSorted(r, s, i)
    ensures Layout(s) && Agrees(s, e, false)
  {
    SortLayout(r, s, i);
    hide RowSorted, Layout, Sound, Complete, Single;
    SortSound(r, s, e, i);
    SortComplete(r, s, e, i);
    SortSingle(r, s, i);
  }

  lemma SortSound(r: Rep, s: Rep, e: Elements, i: nat)
    requires Layout(r) && Layout(s) && Sound(r, e) && Single(r) && i < r.current && RowSorted(r, s, i)
    ensures Sound(s, e)
  {
    hide RowSorted, Layout, Position, Col, Val, Single;
    forall k: nat, p | First(s, k, p)
      ensures (k, Col(s, p) - Origin) in e && e[(k, Col(s, p) - Origin)] == Val(s, p)
    {
      var q := Partner(r, s, i, k, p);
      SingleIsFirst(r, k, q);
    }
  }

  lemma SortComplete(r: Rep, s: Rep, e: Elements, i: nat)
    requires Layout(r) && Layout(s) && Complete(r, e) && i < r.current && RowSorted(r, s, i)
    ensures Complete(s, e)
  {
    hide RowSorted, Layout, Position, Col, Val, Stored;
    forall k | k in e
      ensures Stored(s, k.0, k.1)
    {
      var q := PlaceOf(r, k.0, k.1);
      var p := BackPartner(r, s, i, k.0, q);
      StoredAt(s, k.0, p);
    }
  }

  lemma SortSingle(r: Rep, s: Rep, i: nat)
    requires Layout(r) && Layout(s) && Single(r) && i < r.current && RowSorted(r, s, i)
    ensures Single(s)
  {
    hide RowSorted, Layout, Position, Col;
    forall k: nat, p, q | Position(s, k, p) && Position(s, k, q) && p != q
      ensures Col(s, p) != Col(s, q)
    {
      StillDistinct(r, s, i, k, p, q);
    }
  }

  lemma PlaceOf(r: Rep, i: nat, j: int) returns (q: int)
    requires Stored(r, i, j)
    ensures Position(r, i, q) && Col(r, q) - Origin == j
  {
    q :| Position(r, i, q) && Col(r, q) - Origin == j;
  }

  lemma SortLayout(r: Rep, s: Rep, i: nat)
    requires Layout(r) && i < r.current && RowSorted(r, s, i)
    ensures Layout(s)
  {
    hide Ordered, Rising;
    RisingSame(r, s);
  }

  lemma StillDistinct(r: Rep, s: Rep, i: nat, k: nat, p: int, q: int)
    requires Layout(r) && Layout(s) && Single(r) && i < r.current && RowSorted(r, s, i)
    requires Position(s, k, p) && Position(s, k, q) && p != q
    ensures Col(s, p) != Col(s, q)
  {
    hide Rising;
    if k == i {
      var start, row := r.ia[i] - Origin, RowOf(s, i);
      RowIsDistinct(r, i);
      DistinctToo(RowOf(r, i), row);
      assert row[p - start].column == Col(s, p) && row[q - start].column == Col(s, q);
    } else {
      assert Position(r, k, p) && Position(r, k, q);
      if InRow(r, i, p) {
        RowsApart(r, i, k, p);
      }
      if InRow(r, i, q) {
        RowsApart(r, i, k, q);
      }
    }
  }

  /** Some position of the row holds this column and value. */
  ghost predicate HasValue(r: Rep, i: nat, j: int, v: real) {
    exists p :: Position(r, i, p) && Col(r, p) - Origin == j && Val(r, p) == v
  }

  ghost predicate NothingNew(r: Rep, s: Rep) { forall i: nat, j, v :: HasValue(s, i, j, v) ==> HasValue(r, i, j, v) }

  lemma SortAddsNothing(r: Rep, s: Rep, i: nat)
    requires Layout(r) && Layout(s) && i < r.current && RowSorted(r, s, i)
    ensures NothingNew(r, s)
  {
    hide Layout, RowSorted, Position, Col, Val;
    forall k: nat, j, v | HasValue(s, k, j, v)
      ensures HasValue(r, k, j, v)
    {
      var p :| Position(s, k, p) && Col(s, p) - Origin == j && Val(s, p) == v;
      var q := Partner(r, s, i, k, p);
    }
  }

  /** The value that find_element finds. */
  ghost function ValueAt(r: Rep, i: nat, j: int): real
    requires exists p :: First(r, i, p) && Col(r, p) - Origin == j
  {
    var p :| First(r, i, p) && Col(r, p) - Origin == j;
    Val(r, p)
  }

  lemma {:induction false} FirstOf(r: Rep, i: nat, p: int) returns (q: int)
    requires Position(r, i, p)
    ensures First(r, i, q) && q <= p && Col(r, q) == Col(r, p)
    decreases p
  {
    assert p >= 0 by { PositionInUse(r, i, p); }
    hide Position, Col;
    if q0 :| q0 < p && Position(r, i, q0) && Col(r, q0) == Col(r, p) {
      assert q0 >= 0 by { PositionInUse(r, i, q0); }
      q := FirstOf(r, i, q0);
    } else {
      q := p;
    }
  }

  lemma EachIsFound(r: Rep, e: Elements)
    requires Complete(r, e)
    ensures forall k :: k in e ==> exists p :: First(r, k.0, p) && Col(r, p) - Origin == k.1
  {
    hide Position, Col;
    forall k | k in e
      ensures exists p :: First(r, k.0, p) && Col(r, p) - Origin == k.1
    {
      var p := CompleteAt(r, e, k.0, k.1);
      var q := FirstOf(r, k.0, p);
    }
  }

  /** What is found of the same elements in other arrays. */
  ghost function FoundIn(r: Rep, e: Elements): (f: Elements)
    requires Complete(r, e)
    ensures f.Keys == e.Keys
  {
    EachIsFound(r, e);
    map k | k in e :: ValueAt(r, k.0, k.1)
  }

  lemma FoundAt(r: Rep, i: nat, p: int)
    requires First(r, i, p)
    ensures ValueAt(r, i, Col(r, p) - Origin) == Val(r, p)
  {
    hide Position, Col, Val;
    var j := Col(r, p) - Origin;
    var q :| First(r, i, q) && Col(r, q) - Origin == j && ValueAt(r, i, j) == Val(r, q);
    FirstOnce(r, i, p, q);
  }

  lemma FoundAgrees(r: Rep, e: Elements)
    requires Complete(r, e) && forall i: nat, p :: First(r, i, p) ==> (i, Col(r, p) - Origin) in e
    ensures Agrees(r, FoundIn(r, e), true)
  {
    hide First, Position, Col, Val, Stored;
    EachIsFound(r, e);
    var f := FoundIn(r, e);
    forall i: nat, p | First(r, i, p)
      ensures f[(i, Col(r, p) - Origin)] == Val(r, p)
    {
      FoundAt(r, i, p);
    }
  }

  /** Sorting a row with doubled elements: the same elements are found, each with one of the values it had there. */
  lemma SortFinds(r: Rep, s: Rep, e: Elements, i: nat)
    requires Layout(r) && Agrees(r, e, true) && i < r.current && RowSorted(r, s, i)
    ensures Layout(s) && Complete(s, e) && Agrees(s, FoundIn(s, e), true)
  {
    SortLayout(r, s, i);
    hide RowSorted, Layout, Position, Complete, Col, Val;
    SortComplete(r, s, e, i);
    forall k: nat, p | First(s, k, p)
      ensures (k, Col(s, p) - Origin) in e
    {
      var q := Partner(r, s, i, k, p);
      var m := FirstOf(r, k, q);
    }
    FoundAgrees(s, e);
  }

  lemma FoundHasValue(r: Rep, e: Elements, doubled: bool)
    requires Agrees(r, e, doubled)
    ensures forall k :: k in e ==> HasValue(r, k.0, k.1, e[k])
  {
    hide Position, Col, Val;
    forall k | k in e
      ensures HasValue(r, k.0, k.1, e[k])
    {
      var p := CompleteAt(r, e, k.0, k.1);
      var q := FirstOf(r, k.0, p);
    }
  }

  // ---------------------------------------------------------------- the matrix

  /** The element at position 0, if there is one. */
  ghost predicate Leads(r: Rep, leading: Option<(nat, int)>) {
    && (leading.None? <==> r.nonzeros == 0)
    && (leading.Some? ==> Position(r, leading.value.0, 0) && Col(r, 0) - Origin == leading.value.1)
  }

  /** The row starts ever written lie within the arrays. */
  ghost predicate StartsInside(r: Rep, defined: nat) {
    && r.current <= defined < |r.ia|
    && forall k :: 0 <= k <= defined ==> Origin <= r.ia[k] <= |r.ja| + Origin
  }

  class Jacobian {
    const rows: nat
    const ia: array<int>
    var ja: array<int>
    var a: array<real>
    var nonzeros: nat
    var currentRows: nat
    /** The explicitly stored elements by row and column. */
    ghost var elements: Elements
    /** Since the matrix was last empty, an element has been inserted that was already there. */
    ghost var doubled: bool
    /** The first element inserted since then, or, behind a sort, the least. */
    ghost var leading: Option<(nat, int)>
    /** The row starts 0 to `defined` have been written at some time, if only before zero_matrix. */
    ghost var defined: nat

    ghost function View(): Rep
      reads this, ia, ja, a
    {
      Rep(ia[..], ja[..], a[..], nonzeros, currentRows)
    }

    ghost predicate Valid()
      reads this, ia, ja, a
    {
      && ia.Length == rows + 1 && ia != ja && Layout(View()) && Agrees(View(), elements, doubled)
      && Leads(View(), leading) && StartsInside(View(), defined)
    }

    constructor (rows: nat)
      ensures Valid() && this.rows == rows && elements == map[] && currentRows == 0
      ensures !doubled && leading == None && defined == 0
      ensures fresh(ia) && fresh(ja) && fresh(a)
    {
      this.rows, ia, ja, a := rows, new int[rows + 1](_ => 1), new int[0], new real[0];
      nonzeros, currentRows, elements := 0, 0, map[];
      doubled, leading, defined := false, None, 0;
    }

    /** zero_matrix: the arrays stay as large as they are, and the row starts behind the first as they were. */
    method ZeroMatrix()
      requires Valid()
      modifies this`nonzeros, this`currentRows, this`elements, this`doubled, this`leading, ia
      ensures Valid() && elements == map[] && currentRows == 0 && !doubled && leading == None
      ensures ia[0] == Origin && forall k :: 0 < k <= rows ==> ia[k] == old(ia[k])
    {
      nonzeros, currentRows, elements := 0, 0, map[];
      doubled, leading := false, None;
      ia[0] := 1;
    }

    /** find_element: the position, or -1. */
    method FindElement(i: nat, j: int) returns (p: int)
      requires Valid()
      ensures p == -1 <==> (i, j) !in elements
      ensures p != -1 ==> First(View(), i, p) && ja[p] == j + Origin && elements[(i, j)] == a[p]
    {
      hide Agrees, Rising, Leads, StartsInside;
      ghost var r := View();
      NotFound(r, elements, doubled, i, j);
      if i >= currentRows {
        return -1;
      }
      RowInside(r, i);
      var start, stop := ia[i] - Origin, ia[i + 1] - Origin;
      for posn := start to stop
        invariant forall q :: start <= q < posn ==> ja[q] - Origin != j
      {
        if ja[posn] - Origin == j {
          Found(r, elements, doubled, i, posn);
          return posn;
        }
      }
      p := -1;
    }

    /** element: 0 where nothing is stored. */
    method Element(i: nat, j: int) returns (v: real)
      requires Valid()
      ensures v == if (i, j) in elements then elements[(i, j)] else 0.0
    {
      hide Agrees, Rising, Leads, StartsInside;
      var p := FindElement(i, j);
      v := if p >= 0 then a[p] else 0.0;
    }

    /** is_explicitly_stored, as the header has it: it misses the leading element. */
    method IsExplicitlyStored(i: nat, j: int) returns (yes: bool)
      requires Valid()
      ensures yes <==> (i, j) in elements && leading != Some((i, j))
    {
      hide Agrees, Rising, StartsInside;
      var p := FindElement(i, j);
      yes := p > 0;
      if (i, j) in elements {
        LeadingIsAtZero(View(), leading, i, p);
      }
    }

    /** grow_arrays: half as much again and a thousand more; the positions in use keep their contents. */
    method GrowArrays()
      requires Valid()
      modifies this`ja, this`a
      ensures Valid() && fresh(ja) && fresh(a) && ja.Length == old(ja.Length) + Growth + old(ja.Length) / 2
      ensures View() == old(View()).(ja := ja[..], a := a[..])
    {
      hide Agrees, Rising;
      ghost var r := View();
      var size := ja.Length + 1000 + ja.Length / 2;
      var newJa, newA := new int[size](_ => 0), new real[size](_ => 0.0);
      for posn := 0 to nonzeros
        invariant ja == old(ja) && a == old(a) && ja.Length == a.Length == |r.ja| && nonzeros <= ja.Length <= size
        invariant forall p :: 0 <= p < posn ==> newJa[p] == ja[p] && newA[p] == a[p]
      {
        newJa[posn], newA[posn] := ja[posn], a[posn];
      }
      ja, a := newJa, newA;
      SameContents(r, View());
      RestKeeps(r, View(), elements, doubled);
      LeadsToo(r, View(), leading);
    }

    /** insert_element: only the last row, or the one after it, takes new elements. An element that is already there
        is inserted once more, and the old value is the one that is found. */
    method InsertElement(i: nat, j: int, value: real) returns (ok: bool, p: int)
      requires Valid()
      modifies this`ja, this`a, this`nonzeros, this`currentRows, ia, ja, a
      modifies this`elements, this`doubled, this`leading, this`defined
      ensures Valid() && ok == Insertable(rows, old(currentRows), i)
      ensures ok ==> elements == WithNew(old(elements), i, j, value) && currentRows == i + 1
      ensures ok ==> doubled == (old(doubled) || (i, j) in old(elements))
      ensures ok ==> leading == Leading(old(leading), i, j) && defined == Types.Max(old(defined), i + 1)
      ensures ok ==> p == old(nonzeros) && Position(View(), i, p) && ja[p] == j + Origin && a[p] == value
      ensures !ok ==> elements == old(elements) && currentRows == old(currentRows)
      ensures !ok ==> doubled == old(doubled) && leading == old(leading) && defined == old(defined)
      ensures ja == old(ja) || fresh(ja)
      ensures a == old(a) || fresh(a)
    {
      hide Agrees, Inserted, Rising, Leads, StartsInside;
      if !(i + 1 == currentRows || i == currentRows) || (i == currentRows && currentRows >= rows) {
        return false, -1;
      }
      if i == currentRows {
        StartRow();
      }
      if ia[i + 1] - Origin >= ja.Length {
        GrowArrays();
      }
      DefinedAll(View(), defined);
      p := Append(j, value);
      ok := true;
    }

    /** A new row begins where the last one ends. */
    method StartRow()
      requires Valid() && currentRows < rows
      modifies this`currentRows, this`defined, ia
      ensures Valid() && View().nonzeros == old(View()).nonzeros && currentRows == old(currentRows) + 1
      ensures defined == Types.Max(old(defined), currentRows)
    {
      hide Agrees, Rising;
      ghost var r := View();
      RowKeeps(r, elements, doubled);
      RowSame(r);
      ia[currentRows + 1] := ia[currentRows];
      currentRows := currentRows + 1;
      defined := Types.Max(defined, currentRows);
      assert View() == WithRow(r);
    }

    /** The next free position becomes the last of the last row. */
    method Append(j: int, value: real) returns (posn: int)
      requires Valid() && 0 < currentRows && nonzeros < ja.Length
      modifies this`nonzeros, this`elements, this`doubled, this`leading, ia, ja, a
      ensures Valid() && elements == WithNew(old(elements), currentRows - 1, j, value)
      ensures doubled == (old(doubled) || (currentRows - 1, j) in old(elements))
      ensures leading == Leading(old(leading), currentRows - 1, j)
      ensures posn == old(nonzeros) && Position(View(), currentRows - 1, posn)
      ensures ja[posn] == j + Origin && a[posn] == value
    {
      hide Agrees, Rising, Position, Leads, StartsInside, Inserted;
      ghost var r := View();
      InsertKeeps(r, elements, doubled, j, value);
      InsertSame(r, j, value);
      InsertLeads(r, leading, j, value);
      InsertInside(r, defined, j, value);
      posn := AppendRaw(j, value);
      doubled := doubled || (currentRows - 1, j) in elements;
      elements := WithNew(elements, currentRows - 1, j, value);
      leading := Leading(leading, currentRows - 1, j);
    }

    /** The arrays behind it. */
    method AppendRaw(j: int, value: real) returns (posn: int)
      requires Layout(View()) && ia.Length == rows + 1 && ia != ja && 0 < currentRows && nonzeros < ja.Length
      modifies this`nonzeros, ia, ja, a
      ensures View() == Inserted(old(View()), j, value) && posn == old(nonzeros)
    {
      hide Rising;
      posn := ia[currentRows] - Origin;
      ja[posn] := j + 1;
      a[posn] := value;
      ia[currentRows] := ia[currentRows] + 1;
      nonzeros := nonzeros + 1;
    }

    method PutValue(i: nat, p: int, value: real)
      requires Valid() && First(View(), i, p)
      modifies this`elements, a
      ensures Valid() && elements == old(elements)[(i, ja[p] - Origin) := value]
    {
      hide Agrees, Rising;
      ghost var r := View();
      ValueKeeps(r, elements, doubled, i, p, value);
      elements := elements[(i, ja[p] - Origin) := value];
      a[p] := value;
      LeadsToo(r, View(), leading);
    }

    /** set_element: stores the value, unless the element is new and its row is not the last or the one after it. */
    method SetElement(i: nat, j: int, value: real) returns (ok: bool)
      requires Valid()
      modifies this`ja, this`a, this`nonzeros, this`currentRows, ia, ja, a
      modifies this`elements, this`doubled, this`leading, this`defined
      ensures Valid() && ok == ((i, j) in old(elements) || Insertable(rows, old(currentRows), i))
      ensures elements == if ok then old(elements)[(i, j) := value] else old(elements)
      ensures doubled == old(doubled) && leading == if ok then Leading(old(leading), i, j) else old(leading)
    {
      hide Agrees, Rising, Leads, StartsInside;
      var p := FindElement(i, j);
      if p >= 0 {
        LeadingThere(View(), elements, leading, i, p);
        PutValue(i, p, value);
        ok := true;
      } else {
        ok, p := InsertElement(i, j, value);
      }
    }

    /** sum_into_element: adds to the element, 0 if it is not stored. */
    method SumIntoElement(i: nat, j: int, value: real) returns (ok: bool)
      requires Valid()
      modifies this`ja, this`a, this`nonzeros, this`currentRows, ia, ja, a
      modifies this`elements, this`doubled, this`leading, this`defined
      ensures Valid() && ok == ((i, j) in old(elements) || Insertable(rows, old(currentRows), i))
      ensures ok ==> elements == old(elements)[(i, j) := ValueIn(old(elements), i, j) + value]
      ensures !ok ==> elements == old(elements)
      ensures doubled == old(doubled) && leading == if ok then Leading(old(leading), i, j) else old(leading)
    {
      hide Agrees, Rising, Leads, StartsInside;
      var p := FindElement(i, j);
      if p >= 0 {
        LeadingThere(View(), elements, leading, i, p);
        PutValue(i, p, a[p] + value);
        ok := true;
      } else {
        ok, p := InsertElement(i, j, value);
      }
    }

    /** The entries from a position on, copied to the buffer. */
    method CopyOut(start: nat, n: nat) returns (buffer: seq<Entry>)
      requires start + n <= ja.Length == a.Length
      ensures |buffer| == n && forall p :: 0 <= p < n ==> buffer[p] == Entry(ja[start + p], a[start + p])
    {
      buffer := [];
      for p := 0 to n
        invariant |buffer| == p && forall q :: 0 <= q < p ==> buffer[q] == Entry(ja[start + q], a[start + q])
      {
        buffer := buffer + [Entry(ja[start + p], a[start + p])];
      }
    }

    /** The buffer, copied back. */
    method CopyBack(start: nat, buffer: seq<Entry>)
      requires start + |buffer| <= ja.Length == a.Length
      modifies ja, a
      ensures forall p :: 0 <= p < |buffer| ==> Entry(ja[start + p], a[start + p]) == buffer[p]
      ensures forall q :: 0 <= q < ja.Length && !(start <= q < start + |buffer|) ==>
        ja[q] == old(ja[q]) && a[q] == old(a[q])
    {
      for p := 0 to |buffer|
        invariant forall q :: 0 <= q < p ==> Entry(ja[start + q], a[start + q]) == buffer[q]
        invariant forall q :: 0 <= q < ja.Length && !(start <= q < start + p) ==>
          ja[q] == old(ja[q]) && a[q] == old(a[q])
      {
        ja[start + p], a[start + p] := buffer[p].column, buffer[p].value;
      }
    }


    /** One row of the sort: copied to the buffer, sorted, and copied back. */
    method MoveRow(i: nat)
      requires Valid() && i < currentRows
      modifies ja, a
      ensures Layout(old(View())) && RowSorted(old(View()), View(), i)
    {
      hide Agrees, Rising, Ordered, Leads, StartsInside, RowSorted;
      ghost var r := View();
      RowInside(r, i);
      var start, n := ia[i] - Origin, ia[i + 1] - ia[i];
      var buffer := CopyOut(start, n);
      assert buffer == RowOf(r, i);
      SortOrders(buffer);
      buffer := SortEntries(buffer);
      CopyBack(start, buffer);
      RowIs(r, View(), i, buffer);
    }

    /** The elements behind it. */
    method SortRow(i: nat)
      requires Valid() && i < currentRows
      modifies this`leading, this`elements, ja, a
      ensures Valid() && RowSorted(old(View()), View(), i)
      ensures elements.Keys == old(elements).Keys && (!doubled ==> elements == old(elements))
    {
      hide Agrees, Rising, Leads, StartsInside, RowSorted, Layout, Complete, FoundIn, Position;
      ghost var r := View();
      MoveRow(i);
      if doubled {
        SortFinds(r, View(), elements, i);
        elements := FoundIn(View(), elements);
      } else {
        SortKeeps(r, View(), elements, i);
      }
      LeadsSorted(r, View(), i, leading);
      InsideSorted(r, View(), i, defined);
      leading := if leading.None? then None else Some((leading.value.0, Col(View(), 0) - Origin));
    }

    /** A row that is no longer, or not yet, there: positions beyond those in use are sorted. */
    method SortRest(i: nat)
      requires Valid() && currentRows <= i < rows && nonzeros + Origin <= ia[i] <= ia[i + 1] <= ja.Length + Origin
      modifies ja, a
      ensures Valid() && View() == old(View()).(ja := ja[..], a := a[..])
      ensures forall q :: 0 <= q < nonzeros ==> ja[q] == old(ja[q]) && a[q] == old(a[q])
    {
      hide Agrees, Rising;
      ghost var r := View();
      var start, n := ia[i] - Origin, ia[i + 1] - ia[i];
      var buffer := CopyOut(start, n);
      buffer := SortEntries(buffer);
      CopyBack(start, buffer);
      SameContents(r, View());
      RestKeeps(r, View(), elements, doubled);
      LeadsToo(r, View(), leading);
    }

    /** What the sort demands of the rows that are not there: it reads the start of every row, and the difference of
        neighbours is a size. */
    ghost predicate Sortable()
      requires Valid()
      reads this, ia, ja, a
    {
      defined == rows && forall k :: currentRows <= k < rows ==> ia[k] <= ia[k + 1]
    }

    /** sort_each_row_into_column_order. An element that is there more than once keeps one of its values: qsort does
        not say in which order it leaves equal columns. */
    method SortEachRow()
      requires Valid() && Sortable()
      modifies this`leading, this`elements, ja, a
      ensures Valid() && View() == old(View()).(ja := ja[..], a := a[..])
      ensures elements.Keys == old(elements).Keys && (!doubled ==> elements == old(elements))
      ensures forall k :: k in elements ==> HasValue(old(View()), k.0, k.1, elements[k])
      ensures ja.Length == old(ja.Length)
      ensures RowsSorted(View(), rows)
      ensures leading.None? <==> elements == map[]
      ensures leading.Some? ==> leading.value in elements && forall k :: k in elements ==> NotAfter(leading.value, k)
    {
      hide Agrees, Rising, Leads, StartsInside, RowSorted, RowsSorted, HasValue;
      ghost var r := View();
      NoneSorted(r);
      for i := 0 to rows
        invariant Valid() && View() == r.(ja := ja[..], a := a[..]) && ja.Length == |r.ja|
        invariant RowsSorted(View(), i) && NothingNew(r, View())
        invariant elements.Keys == old(elements).Keys && (!doubled ==> elements == old(elements))
      {
        ghost var before := View();
        if i < currentRows {
          SortRow(i);
          SortedIs(before, View(), i);
          SortAddsNothing(before, View(), i);
          SortedSoFar(before, View(), i);
        } else {
          RestInside(View(), defined, i);
          SortRest(i);
          SortedStill(before, View(), i);
          RestAddsNothing(before, View());
        }
      }
      FoundHasValue(View(), elements, doubled);
      LeadingIsLeast(View(), rows, elements, doubled, leading);
    }
  }

  /** The columns of each of the first n rows are in order. */
  ghost predicate RowsSorted(r: Rep, n: nat) {
    forall i: nat, p, q :: i < n && Position(r, i, p) && Position(r, i, q) && p < q ==> Col(r, p) <= Col(r, q)
  }

  lemma RestAddsNothing(r: Rep, s: Rep)
    requires s == r.(ja := s.ja, a := s.a)
    requires forall q :: 0 <= q < r.nonzeros ==> Col(s, q) == Col(r, q) && Val(s, q) == Val(r, q)
    ensures NothingNew(r, s)
  {
    hide Col, Val;
    forall i: nat, j, v | HasValue(s, i, j, v)
      ensures HasValue(r, i, j, v)
    {
      var p :| Position(s, i, p) && Col(s, p) - Origin == j && Val(s, p) == v;
      assert Position(r, i, p);
    }
  }

  lemma NoneSorted(r: Rep)
    ensures RowsSorted(r, 0)
  {}

  lemma SortedIs(r: Rep, s: Rep, i: nat)
    requires Layout(r) && i < r.current && RowSorted(r, s, i)
    ensures s == r.(ja := s.ja, a := s.a) && |s.ja| == |r.ja|
  {}

  /** The leading element behind an insertion. */
  function Leading(leading: Option<(nat, int)>, i: nat, j: int): Option<(nat, int)> {
    if leading.None? then Some((i, j)) else leading
  }

  /** In the order of rows, and of columns in a row. */
  predicate NotAfter(x: (nat, int), y: (nat, int)) { x.0 < y.0 || (x.0 == y.0 && x.1 <= y.1) }

  lemma OnlyOneIsFirst(x: (nat, int), y: (nat, int))
    ensures NotAfter(x, y) && NotAfter(y, x) <==> x == y
  {}

  /** Where a new element may go. */
  predicate Insertable(rows: nat, current: nat, i: nat) { i + 1 == current || (i == current && current < rows) }

  function ValueIn(e: Elements, i: nat, j: int): real { if (i, j) in e then e[(i, j)] else 0.0 }

  /** A fresh matrix of at least one row: the element that is stored first is not reported. */
  method FirstIsMissed(rows: nat, j: int, value: real) returns (stored: bool, v: real)
    requires rows > 0
    ensures !stored && v == value
  {
    var m := new Jacobian(rows);
    var ok := m.SetElement(0, j, value);
    stored := m.IsExplicitlyStored(0, j);
    v := m.Element(0, j);
  }

  /** A stored element that is found at position 0 is the leading one. */
  lemma LeadingIsAtZero(r: Rep, leading: Option<(nat, int)>, i: nat, p: int)
    requires Layout(r) && Leads(r, leading) && First(r, i, p)
    ensures p == 0 <==> leading == Some((i, Col(r, p) - Origin))
  {
    hide Rising;
    if p == 0 {
      RowsApart(r, i, leading.value.0, 0);
    }
  }

  lemma LeadingThere(r: Rep, e: Elements, leading: Option<(nat, int)>, i: nat, p: int)
    requires Leads(r, leading) && Position(r, i, p)
    ensures leading.Some?
  {}

  lemma LeadsToo(r: Rep, s: Rep, leading: Option<(nat, int)>)
    requires Leads(r, leading) && s == r.(ja := s.ja, a := s.a) && (r.nonzeros > 0 ==> Col(s, 0) == Col(r, 0))
    ensures Leads(s, leading)
  {}

  lemma InsertLeads(r: Rep, leading: Option<(nat, int)>, j: int, v: real)
    requires Layout(r) && Leads(r, leading) && 0 < r.current && r.nonzeros < |r.ja|
    ensures Leads(Inserted(r, j, v), Leading(leading, r.current - 1, j))
  {
    hide Position, Inserted, Rising, Col, Val;
    InsertSame(r, j, v);
    assert Inserted(r, j, v).nonzeros == r.nonzeros + 1 by { InsertedOne(r, j, v); }
  }

  lemma InsertedOne(r: Rep, j: int, v: real)
    requires Layout(r) && 0 < r.current && r.nonzeros < |r.ja|
    ensures Inserted(r, j, v).nonzeros == r.nonzeros + 1
  {}

  lemma InsertInside(r: Rep, defined: nat, j: int, v: real)
    requires Layout(r) && StartsInside(r, defined) && 0 < r.current && r.nonzeros < |r.ja|
    ensures StartsInside(Inserted(r, j, v), defined)
  {}

  /** Sorting moves no position to another row. */
  lemma LeadsSorted(r: Rep, s: Rep, i: nat, leading: Option<(nat, int)>)
    requires Layout(r) && i < r.current && RowSorted(r, s, i) && Leads(r, leading)
    ensures Leads(s, if leading.None? then None else Some((leading.value.0, Col(s, 0) - Origin)))
  {
    hide Rising, Ordered;
  }

  lemma InsideSorted(r: Rep, s: Rep, i: nat, defined: nat)
    requires Layout(r) && i < r.current && RowSorted(r, s, i) && StartsInside(r, defined)
    ensures StartsInside(s, defined)
  {
    hide Rising, Ordered;
  }

  lemma DefinedAll(r: Rep, defined: nat)
    requires StartsInside(r, defined)
    ensures r.current <= defined
  {}

  /** The stale row starts are behind the positions in use. */
  lemma RestInside(r: Rep, defined: nat, i: nat)
    requires Layout(r) && StartsInside(r, defined) && r.current <= i < defined && |r.ia| == defined + 1
    requires forall k :: r.current <= k < defined ==> r.ia[k] <= r.ia[k + 1]
    ensures r.nonzeros + Origin <= r.ia[i] <= r.ia[i + 1] <= |r.ja| + Origin
  {
    hide Rising;
    RisesFrom(r.ia, r.current, i);
  }

  lemma {:induction false} RisesFrom(s: seq<int>, from: nat, i: nat)
    requires from <= i < |s| && forall k :: from <= k < |s| - 1 ==> s[k] <= s[k + 1]
    ensures s[from] <= s[i]
  {
    if from < i {
      RisesFrom(s, from, i - 1);
    }
  }

  /** With all rows in order of column, the leading element is the least. */
  lemma LeadingIsLeast(r: Rep, rows: nat, e: Elements, doubled: bool, leading: Option<(nat, int)>)
    requires Layout(r) && Agrees(r, e, doubled) && Leads(r, leading)
    requires RowsSorted(r, rows) && r.current <= rows
    ensures leading.None? <==> e == map[]
    ensures leading.Some? ==> leading.value in e && forall k :: k in e ==> NotAfter(leading.value, k)
  {
    hide Rising, Col, Val;
    assert forall i: nat, p :: Position(r, i, p) ==> i < rows;
    if leading.Some? {
      assert First(r, leading.value.0, 0);
    }
    forall k | k in e
      ensures leading.Some? && NotAfter(leading.value, k)
    {
      var p := CompleteAt(r, e, k.0, k.1);
      if k.0 < leading.value.0 {
        RowsInOrder(r, k.0, leading.value.0);
      }
    }
  }

  lemma NotFound(r: Rep, e: Elements, doubled: bool, i: nat, j: int)
    requires Layout(r) && Agrees(r, e, doubled)
    ensures (i, j) in e ==> i < r.current && exists p :: Position(r, i, p) && Col(r, p) - Origin == j
  {
    if (i, j) in e {
      assert Stored(r, (i, j).0, (i, j).1);
    }
  }

  lemma Found(r: Rep, e: Elements, doubled: bool, i: nat, p: int)
    requires Layout(r) && Agrees(r, e, doubled) && First(r, i, p)
    ensures (i, Col(r, p) - Origin) in e && e[(i, Col(r, p) - Origin)] == Val(r, p)
  {}

  lemma SortedStill(r: Rep, s: Rep, i: nat)
    requires s == r.(ja := s.ja, a := s.a) && r.current <= i
    requires forall q :: 0 <= q < r.nonzeros ==> Col(s, q) == Col(r, q)
    requires RowsSorted(r, i)
    ensures RowsSorted(s, i + 1)
  {
    hide Col;
    forall k: nat, p, q | k < i + 1 && Position(s, k, p) && Position(s, k, q) && p < q
      ensures Col(s, p) <= Col(s, q)
    {
      assert Position(r, k, p) && Position(r, k, q);
    }
  }

  lemma SortedSoFar(r: Rep, s: Rep, i: nat)
    requires Layout(r) && Layout(s) && i < r.current && RowSorted(r, s, i)
    requires RowsSorted(r, i)
    ensures RowsSorted(s, i + 1)
  {
    hide Rising;
    forall k: nat, p, q | k < i + 1 && Position(s, k, p) && Position(s, k, q) && p < q
      ensures Col(s, p) <= Col(s, q)
    {
      if k == i {
        var start, row := r.ia[i] - Origin, RowOf(s, i);
        assert row[p - start].column == Col(s, p) && row[q - start].column == Col(s, q);
      } else {
        assert Position(r, k, p) && Position(r, k, q);
        if InRow(r, i, p) {
          RowsApart(r, i, k, p);
        }
        if InRow(r, i, q) {
          RowsApart(r, i, k, q);
        }
      }
    }
  }

  /** Arrays that differ in row i only, where they hold the sorted buffer. */
  lemma RowIs(r: Rep, s: Rep, i: nat, buffer: seq<Entry>)
    requires Layout(r) && i < r.current && s == r.(ja := s.ja, a := s.a) && |s.ja| == |s.a| == |r.ja|
    requires 0 <= r.ia[i] - Origin <= r.ia[i + 1] - Origin <= r.nonzeros && |buffer| == r.ia[i + 1] - r.ia[i]
    requires forall p :: 0 <= p < |buffer| ==>
      Entry(s.ja[r.ia[i] - Origin + p], s.a[r.ia[i] - Origin + p]) == buffer[p]
    requires forall q :: 0 <= q < |r.ja| && !InRow(r, i, q) ==> s.ja[q] == r.ja[q] && s.a[q] == r.a[q]
    requires Ordered(buffer) && multiset(buffer) == multiset(RowOf(r, i))
    ensures RowSorted(r, s, i)
  {
    hide Rising, Ordered;
    assert RowOf(s, i) == buffer;
  }
}
