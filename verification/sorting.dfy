/** The column sort of the result grid: `sort_values(by=header,
    kind="mergesort", ignore_index=True)`, ascending or descending
    (main.py:295-296, main.py:303-304).  Cells are compared by a given total
    preorder; a missing cell (no value for that column, or a JSON `null`)
    sorts last in both directions, and the sort is stable.  A stable sort
    has exactly one result, so it is defined here as an insertion sort on
    (row position, cell) pairs ordered by cell and then by position. */
module Sorting {
  import opened Json
  import opened Hits

  datatype Direction = Ascending | Descending

  /** `le` is total and transitive: how the column's cells compare. */
  ghost predicate TotalPreorder(le: (Value, Value) -> bool) {
    && (forall a, b :: le(a, b) || le(b, a))
    && (forall a, b, c :: le(a, b) && le(b, c) ==> le(a, c))
  }

  /** The cell a row has in column `col`, `None` when it is missing. */
  function Cell(row: seq<Member>, col: string): (r: Option<Value>) {
    match Lookup(row, col)
    case Some(Null) => None
    case c => c
  }

  /** A row has a cell exactly when it has the column and its value there
      is not `null`. */
  lemma CellSpec(row: seq<Member>, col: string)
    ensures Cell(row, col).Some? <==> col in Keys(row) && Lookup(row, col) != Some(Null)
    ensures Cell(row, col).Some? ==> Cell(row, col) == Lookup(row, col)
  {
  }

  /** `a` may come before `b` in direction `dir`. */
  predicate Before(le: (Value, Value) -> bool, dir: Direction, a: Value, b: Value) {
    if dir == Ascending then le(a, b) else le(b, a)
  }

  /** A present cell of the sorted column, with the row position it came
      from. */
  datatype Entry = Entry(pos: nat, key: Value)

  /** The order a stable sort puts entries in: by cell, and by original
      position among equivalent cells. */
  predicate Lex(le: (Value, Value) -> bool, dir: Direction, x: Entry, y: Entry) {
    Before(le, dir, x.key, y.key) && (Before(le, dir, y.key, x.key) ==> x.pos <= y.pos)
  }

  lemma LexTotal(le: (Value, Value) -> bool, dir: Direction, x: Entry, y: Entry)
    requires TotalPreorder(le)
    ensures Lex(le, dir, x, y) || Lex(le, dir, y, x)
  {
    assert le(x.key, y.key) || le(y.key, x.key);
  }

  lemma LexTrans(le: (Value, Value) -> bool, dir: Direction, x: Entry, y: Entry, z: Entry)
    requires TotalPreorder(le) && Lex(le, dir, x, y) && Lex(le, dir, y, z)
    ensures Lex(le, dir, x, z)
  {
    var a, b, c := x.key, y.key, z.key;
    if dir == Ascending {
      assert le(a, b) && le(b, c) ==> le(a, c);
      if le(c, a) {
        assert le(c, a) && le(a, b) ==> le(c, b);
        assert le(b, c) && le(c, a) ==> le(b, a);
      }
    } else {
      assert le(c, b) && le(b, a) ==> le(c, a);
      if le(a, c) {
        assert le(b, c) && le(c, a) ==> le(b, a);
        assert le(a, c) && le(c, b) ==> le(a, b);
      }
    }
  }

  predicate SortedEntries(le: (Value, Value) -> bool, dir: Direction, s: seq<Entry>) {
    forall i, j :: 0 <= i < j < |s| ==> Lex(le, dir, s[i], s[j])
  }

  /** Puts `x` before the first entry it precedes. */
  function InsertEntry(le: (Value, Value) -> bool, dir: Direction, x: Entry, s: seq<Entry>): (r: seq<Entry>)
    ensures multiset(r) == multiset(s) + multiset{x} && |r| == |s| + 1
    decreases |s|
  {
    if s == [] then [x]
    else if Lex(le, dir, x, s[0]) then [x] + s
    else
      assert s == [s[0]] + s[1..];
      [s[0]] + InsertEntry(le, dir, x, s[1..])
  }

  function SortEntries(le: (Value, Value) -> bool, dir: Direction, es: seq<Entry>): (r: seq<Entry>)
    ensures multiset(r) == multiset(es) && |r| == |es|
    decreases |es|
  {
    if es == [] then []
    else
      assert es == [es[0]] + es[1..];
      InsertEntry(le, dir, es[0], SortEntries(le, dir, es[1..]))
  }

  lemma InsertFrontSorted(le: (Value, Value) -> bool, dir: Direction, x: Entry, s: seq<Entry>)
    requires TotalPreorder(le) && SortedEntries(le, dir, s)
    requires s != [] && Lex(le, dir, x, s[0])
    ensures SortedEntries(le, dir, [x] + s)
  {
    forall j | 0 < j < |s| ensures Lex(le, dir, x, s[j]) {
      LexTrans(le, dir, x, s[0], s[j]);
    }
  }

  lemma ConsSorted(le: (Value, Value) -> bool, dir: Direction, y: Entry, tail: seq<Entry>)
    requires SortedEntries(le, dir, tail)
    requires forall j :: 0 <= j < |tail| ==> Lex(le, dir, y, tail[j])
    ensures SortedEntries(le, dir, [y] + tail)
  {
  }

  lemma {:induction false} InsertEntrySorted(le: (Value, Value) -> bool, dir: Direction, x: Entry, s: seq<Entry>)
    requires TotalPreorder(le) && SortedEntries(le, dir, s)
    ensures SortedEntries(le, dir, InsertEntry(le, dir, x, s))
    decreases |s|
  {
    if s == [] {
    } else if Lex(le, dir, x, s[0]) {
      InsertFrontSorted(le, dir, x, s);
    } else {
      var tail := InsertEntry(le, dir, x, s[1..]);
      assert SortedEntries(le, dir, s[1..]);
      InsertEntrySorted(le, dir, x, s[1..]);
      LexTotal(le, dir, x, s[0]);
      forall j | 0 <= j < |tail| ensures Lex(le, dir, s[0], tail[j]) {
        assert tail[j] in multiset(tail);
        if tail[j] != x {
          assert tail[j] in multiset(s[1..]);
          var i :| 0 <= i < |s[1..]| && s[1..][i] == tail[j];
          assert s[i + 1] == tail[j];
        }
      }
      ConsSorted(le, dir, s[0], tail);
    }
  }

  /** The sorted entries are in stable order. */
  lemma {:induction false} SortEntriesSorted(le: (Value, Value) -> bool, dir: Direction, es: seq<Entry>)
    requires TotalPreorder(le)
    ensures SortedEntries(le, dir, SortEntries(le, dir, es))
    decreases |es|
  {
    if es != [] {
      SortEntriesSorted(le, dir, es[1..]);
      InsertEntrySorted(le, dir, es[0], SortEntries(le, dir, es[1..]));
    }
  }

  // ---------------------------------------------------------------------
  // From the sorted column to a new row order

  /** The column `col` of the table, one cell per row. */
  function Column(rows: seq<seq<Member>>, col: string): (cells: seq<Option<Value>>)
    ensures |cells| == |rows| && forall k :: 0 <= k < |rows| ==> cells[k] == Cell(rows[k], col)
    decreases |rows|
  {
    if rows == [] then []
    else
      var n := |rows| - 1;
      assert forall k :: 0 <= k < n ==> rows[..n][k] == rows[k];
      Column(rows[..n], col) + [Cell(rows[n], col)]
  }

  /** The present cells, one entry per row that has one, in row order. */
  function Present(cells: seq<Option<Value>>): (r: seq<Entry>)
    ensures forall k :: 0 <= k < |r| ==> r[k].pos < |cells|
    decreases |cells|
  {
    if cells == [] then []
    else
      var n := |cells| - 1;
      match cells[n]
      case Some(v) => Present(cells[..n]) + [Entry(n, v)]
      case None => Present(cells[..n])
  }

  /** The positions of the rows whose cell is missing, in row order. */
  function Missing(cells: seq<Option<Value>>): (r: seq<nat>)
    ensures forall k :: 0 <= k < |r| ==> r[k] < |cells|
    decreases |cells|
  {
    if cells == [] then []
    else
      var n := |cells| - 1;
      if cells[n].None? then Missing(cells[..n]) + [n] else Missing(cells[..n])
  }

  function Positions(es: seq<Entry>): (r: seq<nat>)
    ensures |r| == |es| && forall k :: 0 <= k < |es| ==> r[k] == es[k].pos
    decreases |es|
  {
    if es == [] then [] else [es[0].pos] + Positions(es[1..])
  }

  /** The present cells in stable sorted order. */
  function Sorted(cells: seq<Option<Value>>, dir: Direction, le: (Value, Value) -> bool): (r: seq<Entry>)
    ensures |r| == |Present(cells)|
    ensures forall k :: 0 <= k < |r| ==> r[k].pos < |cells|
  {
    var sorted := SortEntries(le, dir, Present(cells));
    assert forall k :: 0 <= k < |sorted| ==> sorted[k] in multiset(Present(cells));
    sorted
  }

  /** The present rows sorted stably, then the missing ones in their old
      order: the old positions of the rows of the new table. */
  function Order(cells: seq<Option<Value>>, dir: Direction, le: (Value, Value) -> bool): (order: seq<nat>)
    ensures forall k :: 0 <= k < |order| ==> order[k] < |cells|
  {
    Positions(Sorted(cells, dir, le)) + Missing(cells)
  }

  /** The new row order of the table sorted on `col`. */
  function SortOrder(rows: seq<seq<Member>>, col: string, dir: Direction, le: (Value, Value) -> bool): seq<nat> {
    Order(Column(rows, col), dir, le)
  }

  /** `sort_values(by=col, kind="mergesort", ascending=..., ignore_index=True)`
      on the rows: row `k` of the result is old row `SortOrder[k]`, and the
      result is renumbered from 0. */
  function SortRows(rows: seq<seq<Member>>, col: string, dir: Direction, le: (Value, Value) -> bool): seq<seq<Member>> {
    Pick(rows, SortOrder(rows, col, dir, le))
  }

  /** `rows.take(order)`: the rows at the given positions. */
  function Pick<T>(rows: seq<T>, order: seq<nat>): (r: seq<T>)
    requires forall k :: 0 <= k < |order| ==> order[k] < |rows|
    ensures |r| == |order|
    decreases |order|
  {
    if order == [] then [] else [rows[order[0]]] + Pick(rows, order[1..])
  }

  lemma {:induction false} PickAt<T>(rows: seq<T>, order: seq<nat>, k: nat)
    requires forall k :: 0 <= k < |order| ==> order[k] < |rows|
    requires k < |order|
    ensures Pick(rows, order)[k] == rows[order[k]]
    decreases |order|
  {
    if k > 0 {
      PickAt(rows, order[1..], k - 1);
    }
  }

  // ---------------------------------------------------------------------
  // Facts about the present and missing cells

  /** Each present entry carries its row's cell. */
  lemma {:induction false} PresentCell(cells: seq<Option<Value>>, i: nat)
    requires i < |Present(cells)|
    ensures cells[Present(cells)[i].pos] == Some(Present(cells)[i].key)
    decreases |cells|
  {
    var n := |cells| - 1;
    var init := Present(cells[..n]);
    if i < |init| {
      PresentCell(cells[..n], i);
    }
  }

  /** Each sorted entry carries its row's cell. */
  lemma SortedCell(cells: seq<Option<Value>>, dir: Direction, le: (Value, Value) -> bool, k: nat)
    requires k < |Sorted(cells, dir, le)|
    ensures var e := Sorted(cells, dir, le)[k];
      cells[e.pos] == Some(e.key)
  {
    var present := Present(cells);
    var e := Sorted(cells, dir, le)[k];
    assert e in multiset(present);
    var i :| 0 <= i < |present| && present[i] == e;
    PresentCell(cells, i);
  }

  /** The rows listed as missing lack a cell. */
  lemma {:induction false} MissingCell(cells: seq<Option<Value>>, i: nat)
    requires i < |Missing(cells)|
    ensures cells[Missing(cells)[i]].None?
    decreases |cells|
  {
    var n := |cells| - 1;
    if i < |Missing(cells[..n])| {
      MissingCell(cells[..n], i);
    }
  }

  /** The missing rows are listed in their old order. */
  lemma {:induction false} MissingIncreasing(cells: seq<Option<Value>>, k: nat, l: nat)
    requires k < l < |Missing(cells)|
    ensures Missing(cells)[k] < Missing(cells)[l]
    decreases |cells|
  {
    var n := |cells| - 1;
    if l < |Missing(cells[..n])| {
      MissingIncreasing(cells[..n], k, l);
    }
  }

  // ---------------------------------------------------------------------
  // The new order is a permutation

  /** `range(n)`. */
  function Range(n: nat): (r: seq<nat>)
    ensures |r| == n && forall i :: 0 <= i < n ==> r[i] == i
  {
    seq(n, i => i)
  }

  lemma PositionsCons(x: Entry, s: seq<Entry>)
    ensures Positions([x] + s) == [x.pos] + Positions(s)
  {
    assert ([x] + s)[1..] == s;
  }

  lemma PositionsSnoc(s: seq<Entry>, x: Entry)
    ensures Positions(s + [x]) == Positions(s) + [x.pos]
  {
  }

  lemma {:induction false} InsertEntryPositions(le: (Value, Value) -> bool, dir: Direction, x: Entry, s: seq<Entry>)
    ensures multiset(Positions(InsertEntry(le, dir, x, s))) == multiset(Positions(s)) + multiset{x.pos}
    decreases |s|
  {
    if s == [] || Lex(le, dir, x, s[0]) {
      assert InsertEntry(le, dir, x, s) == [x] + s;
      PositionsFront(x, s);
    } else {
      var y, rest := s[0], s[1..];
      var tail := InsertEntry(le, dir, x, rest);
      assert InsertEntry(le, dir, x, s) == [y] + tail;
      assert s == [y] + rest;
      InsertEntryPositions(le, dir, x, rest);
      PositionsSkip(x, y, rest, tail);
    }
  }

  lemma PositionsFront(x: Entry, s: seq<Entry>)
    ensures multiset(Positions([x] + s)) == multiset(Positions(s)) + multiset{x.pos}
  {
    PositionsCons(x, s);
  }

  lemma PositionsSkip(x: Entry, y: Entry, rest: seq<Entry>, tail: seq<Entry>)
    requires multiset(Positions(tail)) == multiset(Positions(rest)) + multiset{x.pos}
    ensures multiset(Positions([y] + tail)) == multiset(Positions([y] + rest)) + multiset{x.pos}
  {
    PositionsCons(y, tail);
    PositionsCons(y, rest);
  }

  lemma {:induction false} SortEntriesPositions(le: (Value, Value) -> bool, dir: Direction, es: seq<Entry>)
    ensures multiset(Positions(SortEntries(le, dir, es))) == multiset(Positions(es))
    decreases |es|
  {
    if es != [] {
      SortEntriesPositions(le, dir, es[1..]);
      InsertEntryPositions(le, dir, es[0], SortEntries(le, dir, es[1..]));
      PositionsCons(es[0], es[1..]);
      assert [es[0]] + es[1..] == es;
    }
  }

  /** Every row is either present or missing, exactly once. */
  lemma {:induction false} PresentMissingRange(cells: seq<Option<Value>>)
    ensures multiset(Positions(Present(cells))) + multiset(Missing(cells)) == multiset(Range(|cells|))
    decreases |cells|
  {
    if cells != [] {
      var n := |cells| - 1;
      var p, m := Present(cells[..n]), Missing(cells[..n]);
      PresentMissingRange(cells[..n]);
      assert Range(n + 1) == Range(n) + [n];
      assert multiset(Range(n + 1)) == multiset(Positions(p)) + multiset(m) + multiset{n as nat};
      match cells[n]
      case Some(v) =>
        assert Present(cells) == p + [Entry(n, v)];
        assert Missing(cells) == m;
        PositionsSnoc(p, Entry(n, v));
      case None =>
        assert Present(cells) == p;
        assert Missing(cells) == m + [n];
    }
  }

  /** The new order lists every old row position exactly once. */
  lemma OrderPermutation(cells: seq<Option<Value>>, dir: Direction, le: (Value, Value) -> bool)
    ensures multiset(Order(cells, dir, le)) == multiset(Range(|cells|))
    ensures |Order(cells, dir, le)| == |cells|
  {
    SortEntriesPositions(le, dir, Present(cells));
    PresentMissingRange(cells);
    assert |multiset(Order(cells, dir, le))| == |multiset(Range(|cells|))|;
  }

  /** A permutation of `range(n)` repeats nothing. */
  lemma PermutationDistinct(s: seq<nat>, n: nat, k: nat, l: nat)
    requires multiset(s) == multiset(Range(n)) && k < l < |s|
    ensures s[k] != s[l]
  {
    if s[k] == s[l] {
      var v := s[k];
      assert s == s[..l] + s[l..];
      assert v in multiset(s[..l]) && v in multiset(s[l..]);
      assert multiset(s)[v] >= 2;
      RangeCount(n, v);
    }
  }

  lemma {:induction false} RangeCount(n: nat, v: nat)
    ensures multiset(Range(n))[v] <= 1
    decreases n
  {
    if n > 0 {
      RangeCount(n - 1, v);
      assert Range(n) == Range(n - 1) + [n - 1];
      if v == n - 1 {
        assert v !in Range(n - 1);
      }
    }
  }

  /** No row appears twice in the new order. */
  lemma OrderDistinct(cells: seq<Option<Value>>, dir: Direction, le: (Value, Value) -> bool, k: nat, l: nat)
    requires k < l < |Order(cells, dir, le)|
    ensures Order(cells, dir, le)[k] != Order(cells, dir, le)[l]
  {
    OrderPermutation(cells, dir, le);
    PermutationDistinct(Order(cells, dir, le), |cells|, k, l);
  }

  // ---------------------------------------------------------------------
  // The new order is sorted, stable, and puts missing cells last

  /** Where the `k`th row of the new order comes from. */
  lemma OrderAt(cells: seq<Option<Value>>, dir: Direction, le: (Value, Value) -> bool, k: nat)
    requires k < |Order(cells, dir, le)|
    ensures |Order(cells, dir, le)| == |Present(cells)| + |Missing(cells)|
    ensures k < |Present(cells)| ==> Order(cells, dir, le)[k] == Sorted(cells, dir, le)[k].pos
    ensures k >= |Present(cells)| ==> Order(cells, dir, le)[k] == Missing(cells)[k - |Present(cells)|]
  {
  }

  /** The rows with a cell come first, the rows without one after them. */
  lemma OrderPresentFirst(cells: seq<Option<Value>>, dir: Direction, le: (Value, Value) -> bool, k: nat)
    requires k < |Order(cells, dir, le)|
    ensures cells[Order(cells, dir, le)[k]].Some? <==> k < |Present(cells)|
  {
    OrderAt(cells, dir, le, k);
    if k < |Present(cells)| {
      SortedCell(cells, dir, le, k);
    } else {
      MissingCell(cells, k - |Present(cells)|);
    }
  }

  lemma SortedLex(cells: seq<Option<Value>>, dir: Direction, le: (Value, Value) -> bool, k: nat, l: nat)
    requires TotalPreorder(le)
    requires k < l < |Sorted(cells, dir, le)|
    ensures Lex(le, dir, Sorted(cells, dir, le)[k], Sorted(cells, dir, le)[l])
  {
    SortEntriesSorted(le, dir, Present(cells));
  }

  /** Present cells come out in order: ascending by `le`, or descending. */
  lemma OrderSorted(cells: seq<Option<Value>>, dir: Direction, le: (Value, Value) -> bool, k: nat, l: nat)
    requires TotalPreorder(le)
    requires k < l < |Order(cells, dir, le)|
    requires cells[Order(cells, dir, le)[k]].Some? && cells[Order(cells, dir, le)[l]].Some?
    ensures Before(le, dir, cells[Order(cells, dir, le)[k]].value, cells[Order(cells, dir, le)[l]].value)
  {
    OrderPresentFirst(cells, dir, le, k);
    OrderPresentFirst(cells, dir, le, l);
    OrderAt(cells, dir, le, k);
    OrderAt(cells, dir, le, l);
    SortedCell(cells, dir, le, k);
    SortedCell(cells, dir, le, l);
    SortedLex(cells, dir, le, k, l);
  }

  lemma StableEqual(cells: seq<Option<Value>>, dir: Direction, le: (Value, Value) -> bool, k: nat, l: nat)
    requires TotalPreorder(le)
    requires k < l < |Sorted(cells, dir, le)|
    requires var sorted := Sorted(cells, dir, le);
      le(sorted[k].key, sorted[l].key) && le(sorted[l].key, sorted[k].key)
    ensures Sorted(cells, dir, le)[k].pos <= Sorted(cells, dir, le)[l].pos
  {
    SortedLex(cells, dir, le, k, l);
  }

  /** Stability: two rows whose cells compare equal, or which both lack a
      cell, keep their old relative order. */
  lemma OrderStable(cells: seq<Option<Value>>, dir: Direction, le: (Value, Value) -> bool, k: nat, l: nat)
    requires TotalPreorder(le)
    requires k < l < |Order(cells, dir, le)|
    requires var a, b := cells[Order(cells, dir, le)[k]], cells[Order(cells, dir, le)[l]];
      (a.None? && b.None?) || (a.Some? && b.Some? && le(a.value, b.value) && le(b.value, a.value))
    ensures Order(cells, dir, le)[k] < Order(cells, dir, le)[l]
  {
    var m := |Present(cells)|;
    OrderPresentFirst(cells, dir, le, k);
    OrderPresentFirst(cells, dir, le, l);
    OrderAt(cells, dir, le, k);
    OrderAt(cells, dir, le, l);
    if k < m {
      SortedCell(cells, dir, le, k);
      SortedCell(cells, dir, le, l);
      StableEqual(cells, dir, le, k, l);
      OrderDistinct(cells, dir, le, k, l);
    } else {
      MissingIncreasing(cells, k - m, l - m);
    }
  }

  // ---------------------------------------------------------------------
  // The same facts about the rows of the sorted table

  lemma {:induction false} PickAppend<T>(rows: seq<T>, a: seq<nat>, b: seq<nat>)
    requires forall k :: 0 <= k < |a| ==> a[k] < |rows|
    requires forall k :: 0 <= k < |b| ==> b[k] < |rows|
    ensures Pick(rows, a + b) == Pick(rows, a) + Pick(rows, b)
    decreases |a|
  {
    if a == [] {
      assert a + b == b;
    } else {
      assert (a + b)[1..] == a[1..] + b;
      PickAppend(rows, a[1..], b);
    }
  }

  lemma {:induction false} PickPrefix<T>(rows: seq<T>, n: nat, order: seq<nat>)
    requires n <= |rows|
    requires forall k :: 0 <= k < |order| ==> order[k] < n
    ensures Pick(rows[..n], order) == Pick(rows, order)
    decreases |order|
  {
    if order != [] {
      PickPrefix(rows, n, order[1..]);
    }
  }

  lemma RangeBound(order: seq<nat>, n: nat)
    requires multiset(order) == multiset(Range(n))
    ensures forall k :: 0 <= k < |order| ==> order[k] < n
  {
    assert forall k :: 0 <= k < |order| ==> order[k] in multiset(Range(n));
  }

  /** Taking the last position out of a permutation of `range(n + 1)`
      leaves a permutation of `range(n)`. */
  lemma RangeRemove(order: seq<nat>, n: nat, j: nat)
    requires multiset(order) == multiset(Range(n + 1)) && j < |order| && order[j] == n
    ensures multiset(order[..j] + order[j + 1..]) == multiset(Range(n))
  {
    var a, b := order[..j], order[j + 1..];
    assert Range(n + 1) == Range(n) + [n];
    assert order == a + [n] + b;
    assert multiset(order) == multiset(a) + multiset([n]) + multiset(b);
    assert multiset(Range(n + 1)) == multiset(Range(n)) + multiset([n]);
    var m, r := multiset(a + b), multiset(Range(n));
    assert m == multiset(a) + multiset(b);
    assert m + multiset{n} == r + multiset{n};
    assert (m + multiset{n}) - multiset{n} == m;
    assert (r + multiset{n}) - multiset{n} == r;
  }

  lemma PickSplice<T>(rows: seq<T>, order: seq<nat>, j: nat)
    requires forall k :: 0 <= k < |order| ==> order[k] < |rows|
    requires j < |order|
    ensures multiset(Pick(rows, order)) == multiset(Pick(rows, order[..j] + order[j + 1..])) + multiset{rows[order[j]]}
  {
    var a, c, b := order[..j], order[j..], order[j + 1..];
    SliceAt(order, j);
    SliceBounds(order, |rows|, j);
    var p, q, x := Pick(rows, a), Pick(rows, b), rows[order[j]];
    PickAppend(rows, a, c);
    PickAppend(rows, a, b);
    assert Pick(rows, c) == [x] + q;
    MultisetSplice(p, x, q);
  }

  lemma SliceBounds(order: seq<nat>, n: nat, j: nat)
    requires forall k :: 0 <= k < |order| ==> order[k] < n
    requires j < |order|
    ensures Below(order[..j], n) && Below(order[j..], n) && Below(order[j + 1..], n)
    ensures Below(order[..j] + order[j + 1..], n)
  {
  }

  /** Every position in `s` is below `n`. */
  predicate Below(s: seq<nat>, n: nat) {
    forall k :: 0 <= k < |s| ==> s[k] < n
  }

  lemma SliceAt<T>(s: seq<T>, j: nat)
    requires j < |s|
    ensures s == s[..j] + s[j..] && s[j..][0] == s[j] && s[j..][1..] == s[j + 1..]
  {
  }

  lemma MultisetSplice<T>(p: seq<T>, x: T, q: seq<T>)
    ensures multiset(p + ([x] + q)) == multiset(p + q) + multiset{x}
  {
  }

  /** Picking every position once gives the same rows, rearranged. */
  lemma {:induction false} PickPermutation<T>(rows: seq<T>, order: seq<nat>)
    requires multiset(order) == multiset(Range(|rows|))
    ensures forall k :: 0 <= k < |order| ==> order[k] < |rows|
    ensures multiset(Pick(rows, order)) == multiset(rows)
    decreases |rows|
  {
    RangeBound(order, |rows|);
    if rows == [] {
      assert |multiset(order)| == 0;
    } else {
      var n := |rows| - 1;
      assert Range(n + 1)[n] == n;
      assert n in multiset(order);
      var j :| 0 <= j < |order| && order[j] == n;
      var rest := order[..j] + order[j + 1..];
      RangeRemove(order, n, j);
      RangeBound(rest, n);
      PickPermutation(rows[..n], rest);
      PickLast(rows, order, j);
    }
  }

  lemma PickLast<T>(rows: seq<T>, order: seq<nat>, j: nat)
    requires forall k :: 0 <= k < |order| ==> order[k] < |rows|
    requires j < |order| && order[j] == |rows| - 1
    requires var rest := order[..j] + order[j + 1..];
      && (forall k :: 0 <= k < |rest| ==> rest[k] < |rows| - 1)
      && multiset(Pick(rows[..|rows| - 1], rest)) == multiset(rows[..|rows| - 1])
    ensures multiset(Pick(rows, order)) == multiset(rows)
  {
    var n := |rows| - 1;
    var rest := order[..j] + order[j + 1..];
    PickPrefix(rows, n, rest);
    PickSplice(rows, order, j);
    assert rows == rows[..n] + [rows[n]];
  }

  /** The sorted table holds the same rows: row `k` of it is old row
      `SortOrder[k]`, and every old row appears exactly once. */
  lemma SortPermutation(rows: seq<seq<Member>>, col: string, dir: Direction, le: (Value, Value) -> bool)
    ensures multiset(SortOrder(rows, col, dir, le)) == multiset(Range(|rows|))
    ensures |SortRows(rows, col, dir, le)| == |rows|
    ensures forall k :: 0 <= k < |rows| ==> SortRows(rows, col, dir, le)[k] == rows[SortOrder(rows, col, dir, le)[k]]
    ensures multiset(SortRows(rows, col, dir, le)) == multiset(rows)
  {
    OrderPermutation(Column(rows, col), dir, le);
    PickPermutation(rows, SortOrder(rows, col, dir, le));
    forall k | 0 <= k < |rows|
      ensures SortRows(rows, col, dir, le)[k] == rows[SortOrder(rows, col, dir, le)[k]]
    {
      PickAt(rows, SortOrder(rows, col, dir, le), k);
    }
  }

  /** Row `k` of the sorted table and its cell. */
  lemma SortRowsAt(rows: seq<seq<Member>>, col: string, dir: Direction, le: (Value, Value) -> bool, k: nat)
    requires k < |SortRows(rows, col, dir, le)|
    ensures k < |SortOrder(rows, col, dir, le)| && SortOrder(rows, col, dir, le)[k] < |rows|
    ensures SortRows(rows, col, dir, le)[k] == rows[SortOrder(rows, col, dir, le)[k]]
    ensures Cell(SortRows(rows, col, dir, le)[k], col) == Column(rows, col)[SortOrder(rows, col, dir, le)[k]]
  {
    PickAt(rows, SortOrder(rows, col, dir, le), k);
  }

  /** Rows lacking the cell (missing column or `null`) all come last. */
  lemma SortMissingLast(rows: seq<seq<Member>>, col: string, dir: Direction, le: (Value, Value) -> bool, k: nat, l: nat)
    requires k < l < |SortRows(rows, col, dir, le)|
    requires Cell(SortRows(rows, col, dir, le)[k], col).None?
    ensures Cell(SortRows(rows, col, dir, le)[l], col).None?
  {
    var cells := Column(rows, col);
    SortRowsAt(rows, col, dir, le, k);
    SortRowsAt(rows, col, dir, le, l);
    OrderPresentFirst(cells, dir, le, k);
    OrderPresentFirst(cells, dir, le, l);
  }

  /** Rows with the cell come out ascending (or descending) by it. */
  lemma SortOrdered(rows: seq<seq<Member>>, col: string, dir: Direction, le: (Value, Value) -> bool, k: nat, l: nat)
    requires TotalPreorder(le)
    requires k < l < |SortRows(rows, col, dir, le)|
    requires Cell(SortRows(rows, col, dir, le)[k], col).Some? && Cell(SortRows(rows, col, dir, le)[l], col).Some?
    ensures Before(le, dir, Cell(SortRows(rows, col, dir, le)[k], col).value, Cell(SortRows(rows, col, dir, le)[l], col).value)
  {
    SortRowsAt(rows, col, dir, le, k);
    SortRowsAt(rows, col, dir, le, l);
    OrderSorted(Column(rows, col), dir, le, k, l);
  }

  /** `kind="mergesort"`: rows with equal cells, or both lacking one, keep
      their old relative order. */
  lemma SortStable(rows: seq<seq<Member>>, col: string, dir: Direction, le: (Value, Value) -> bool, k: nat, l: nat)
    requires TotalPreorder(le)
    requires k < l < |SortRows(rows, col, dir, le)|
    requires var a, b := Cell(SortRows(rows, col, dir, le)[k], col), Cell(SortRows(rows, col, dir, le)[l], col);
      (a.None? && b.None?) || (a.Some? && b.Some? && le(a.value, b.value) && le(b.value, a.value))
    ensures SortOrder(rows, col, dir, le)[k] < SortOrder(rows, col, dir, le)[l]
  {
    SortRowsAt(rows, col, dir, le, k);
    SortRowsAt(rows, col, dir, le, l);
    OrderStable(Column(rows, col), dir, le, k, l);
  }

  // ---------------------------------------------------------------------
  // The data frame

  /** `search_results.sort_values(by=col, ...)` on the whole frame: a
      column it does not have raises `KeyError`; otherwise the columns stay
      and the rows are rearranged. */
  function SortTable(t: Table, col: string, dir: Direction, le: (Value, Value) -> bool): (r: Result<Table>)
    ensures r.Fail? <==> col !in t.columns
    ensures r.Fail? ==> r.error == KeyError(col)
    ensures r.Ok? ==> r.value.columns == t.columns && multiset(r.value.rows) == multiset(t.rows)
  {
    if col !in t.columns then Fail(KeyError(col))
    else
      SortPermutation(t.rows, col, dir, le);
      Ok(Table(t.columns, SortRows(t.rows, col, dir, le)))
  }
}
