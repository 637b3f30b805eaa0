/** Hit flattening and row accumulation: the loop of `simple_query_search`
    (main.py:65-83).  Each hit's `_source` becomes one flat dict whose keys
    are paths of at most three segments, and each dict becomes one row of
    the result table. */
module Hits {
  import opened Text
  import opened Json

  // ---------------------------------------------------------------------
  // The assignments one hit makes, in order

  /** `hitdict[f.sf.ssf] = ssf_v` for every entry of the dict found at
      `f.sf` (main.py:76-77); `p` is `f.sf`. */
  function GrandAssignments(p: string, g: seq<Member>): (r: seq<Member>)
    ensures |r| == |g|
    decreases |g|
  {
    if g == [] then []
    else
      var x := g[|g| - 1];
      GrandAssignments(p, g[..|g| - 1]) + [Member(Dot(p, x.key), x.val)]
  }

  /** What one child `sf` of a dict at `f` assigns (main.py:75-79): the
      entries of a dict child one level further down, otherwise the child
      itself at `f.sf`. */
  function ChildAssignment(f: string, c: Member): seq<Member> {
    match c.val
    case Obj(g) => GrandAssignments(Dot(f, c.key), g)
    case _ => [Member(Dot(f, c.key), c.val)]
  }

  function ChildAssignments(f: string, sub: seq<Member>): seq<Member>
    decreases |sub|
  {
    if sub == [] then []
    else ChildAssignments(f, sub[..|sub| - 1]) + ChildAssignment(f, sub[|sub| - 1])
  }

  /** What one top-level entry `f` of `_source` assigns (main.py:73-81): a
      dict value is unrolled, anything else (lists included) is stored at
      `f` as it is. */
  function FieldAssignments(m: Member): seq<Member> {
    match m.val
    case Obj(sub) => ChildAssignments(m.key, sub)
    case _ => [m]
  }

  /** Every assignment `hitdict[...] = ...` one hit makes, in order. */
  function Assignments(source: seq<Member>): seq<Member>
    decreases |source|
  {
    if source == [] then []
    else Assignments(source[..|source| - 1]) + FieldAssignments(source[|source| - 1])
  }

  /** The dict `hitdict` ends up as: the assignments run against an empty
      dict. */
  function Flatten(source: seq<Member>): (r: seq<Member>)
    ensures NoDup(Keys(r))
  {
    PutAllKeys([], Assignments(source));
    PutAll([], Assignments(source))
  }

  // ---------------------------------------------------------------------
  // The flattening loops

  /** The innermost loop (main.py:76-77). */
  method AssignGrand(p: string, g: seq<Member>, hitdict: seq<Member>) returns (out: seq<Member>)
    ensures out == PutAll(hitdict, GrandAssignments(p, g))
  {
    out := hitdict;
    var k := 0;
    while k < |g|
      invariant 0 <= k <= |g|
      invariant out == PutAll(hitdict, GrandAssignments(p, g[..k]))
    {
      assert g[..k + 1][..k] == g[..k];
      PutAllSnoc(hitdict, GrandAssignments(p, g[..k]), Member(Dot(p, g[k].key), g[k].val));
      out := Put(out, Dot(p, g[k].key), g[k].val);
      k := k + 1;
    }
    assert g[..k] == g;
  }

  /** The body of the loop over a dict value at `f`, for child `c`
      (main.py:75-79). */
  method AssignChild(f: string, c: Member, hitdict: seq<Member>) returns (out: seq<Member>)
    ensures out == PutAll(hitdict, ChildAssignment(f, c))
  {
    if c.val.Obj? {
      out := AssignGrand(Dot(f, c.key), c.val.members, hitdict);
    } else {
      PutAllSnoc(hitdict, [], Member(Dot(f, c.key), c.val));
      out := Put(hitdict, Dot(f, c.key), c.val);
    }
  }

  /** The loop over the entries of a dict value at `f` (main.py:74-79). */
  method AssignChildren(f: string, sub: seq<Member>, hitdict: seq<Member>) returns (out: seq<Member>)
    ensures out == PutAll(hitdict, ChildAssignments(f, sub))
  {
    out := hitdict;
    var j := 0;
    while j < |sub|
      invariant 0 <= j <= |sub|
      invariant out == PutAll(hitdict, ChildAssignments(f, sub[..j]))
    {
      assert sub[..j + 1][..j] == sub[..j];
      PutAllAppend(hitdict, ChildAssignments(f, sub[..j]), ChildAssignment(f, sub[j]));
      out := AssignChild(f, sub[j], out);
      j := j + 1;
    }
    assert sub[..j] == sub;
  }

  /** The body of the loop over `_source`, for entry `m` (main.py:73-81). */
  method AssignField(m: Member, hitdict: seq<Member>) returns (out: seq<Member>)
    ensures out == PutAll(hitdict, FieldAssignments(m))
  {
    if m.val.Obj? {
      out := AssignChildren(m.key, m.val.members, hitdict);
    } else {
      PutAllSnoc(hitdict, [], m);
      out := Put(hitdict, m.key, m.val);
    }
  }

  /** The loop over `hit.pop('_source').items()` (main.py:67-81): the flat
      dict of one hit. */
  method FlattenHit(source: seq<Member>) returns (hitdict: seq<Member>)
    ensures hitdict == Flatten(source)
  {
    hitdict := [];
    var i := 0;
    while i < |source|
      invariant 0 <= i <= |source|
      invariant hitdict == PutAll([], Assignments(source[..i]))
    {
      assert source[..i + 1][..i] == source[..i];
      PutAllAppend([], Assignments(source[..i]), FieldAssignments(source[i]));
      hitdict := AssignField(source[i], hitdict);
      i := i + 1;
    }
    assert source[..i] == source;
  }

  // ---------------------------------------------------------------------
  // What a flattened hit holds

  /** The keys of a flat dict are the assigned paths in order of first
      assignment, each once. */
  lemma FlattenKeys(source: seq<Member>)
    ensures Keys(Flatten(source)) == AddNew([], Keys(Assignments(source)))
    ensures NoDup(Keys(Flatten(source)))
    ensures forall k :: k in Keys(Flatten(source)) <==> k in Keys(Assignments(source))
  {
    PutAllKeys([], Assignments(source));
  }

  /** Collisions: a path assigned more than once holds the value of its last
      assignment (and, by `FlattenKeys`, keeps the position of its first);
      a path never assigned is absent. */
  lemma FlattenLookup(source: seq<Member>, k: string)
    ensures Lookup(Flatten(source), k) == LastLookup(Assignments(source), k)
  {
    PutAllLookup([], Assignments(source), k);
  }

  /** The assignments of entry `i` all happen (later entries may overwrite
      them). */
  lemma {:induction false} AssignmentsContain(source: seq<Member>, i: nat)
    requires i < |source|
    ensures forall a :: a in FieldAssignments(source[i]) ==> a in Assignments(source)
    decreases |source|
  {
    var n := |source| - 1;
    if i < n {
      assert source[..n][i] == source[i];
      AssignmentsContain(source[..n], i);
    }
  }

  lemma {:induction false} ChildAssignmentsContain(f: string, sub: seq<Member>, j: nat)
    requires j < |sub|
    ensures forall a :: a in ChildAssignment(f, sub[j]) ==> a in ChildAssignments(f, sub)
    decreases |sub|
  {
    var n := |sub| - 1;
    if j < n {
      assert sub[..n][j] == sub[j];
      ChildAssignmentsContain(f, sub[..n], j);
    }
  }

  lemma {:induction false} GrandAssignmentsContain(p: string, g: seq<Member>, k: nat)
    requires k < |g|
    ensures Member(Dot(p, g[k].key), g[k].val) in GrandAssignments(p, g)
    decreases |g|
  {
    var n := |g| - 1;
    if k < n {
      assert g[..n][k] == g[k];
      GrandAssignmentsContain(p, g[..n], k);
    }
  }

  /** A value that is not a dict (a list included) at top-level key `f` is
      assigned at `f` as it is. */
  lemma TopLevelLands(source: seq<Member>, i: nat)
    requires i < |source| && !source[i].val.Obj?
    ensures source[i] in Assignments(source)
    ensures source[i].key in Keys(Flatten(source))
  {
    AssignmentsContain(source, i);
    KeysMember(Assignments(source), source[i]);
    FlattenKeys(source);
  }

  /** A non-dict child `sf` of a dict at `f` is assigned at `f.sf`. */
  lemma ChildLands(source: seq<Member>, i: nat, j: nat)
    requires i < |source| && source[i].val.Obj?
    requires j < |source[i].val.members| && !source[i].val.members[j].val.Obj?
    ensures var c := source[i].val.members[j];
      Member(Dot(source[i].key, c.key), c.val) in Assignments(source)
  {
    ChildAssignmentsContain(source[i].key, source[i].val.members, j);
    AssignmentsContain(source, i);
  }

  /** An entry `ssf` of a dict grandchild at `f.sf` is assigned at
      `f.sf.ssf` with its value as it is, even when that value is itself a
      dict. */
  lemma GrandchildLands(source: seq<Member>, i: nat, j: nat, k: nat)
    requires i < |source| && source[i].val.Obj?
    requires j < |source[i].val.members| && source[i].val.members[j].val.Obj?
    requires k < |source[i].val.members[j].val.members|
    ensures var c := source[i].val.members[j];
      var x := c.val.members[k];
      Member(Dot(Dot(source[i].key, c.key), x.key), x.val) in Assignments(source)
  {
    var c := source[i].val.members[j];
    GrandAssignmentsContain(Dot(source[i].key, c.key), c.val.members, k);
    ChildAssignmentsContain(source[i].key, source[i].val.members, j);
    AssignmentsContain(source, i);
  }

  /** An empty nested dict contributes no key at all, at either depth. */
  lemma EmptyDictVanishes(f: string, sf: string)
    ensures FieldAssignments(Member(f, Obj([]))) == []
    ensures ChildAssignment(f, Member(sf, Obj([]))) == []
  {
  }

  /** Without nesting every entry is assigned as it is. */
  lemma {:induction false} FlatAssignments(source: seq<Member>)
    requires forall i :: 0 <= i < |source| ==> !source[i].val.Obj?
    ensures Assignments(source) == source
    decreases |source|
  {
    if source != [] {
      var n := |source| - 1;
      FlatAssignments(source[..n]);
      assert source[..n] + [source[n]] == source;
    }
  }

  /** A hit whose `_source` has no nested dict flattens to itself: the same
      keys, in the same order, with the same values. */
  lemma FlatSourceUnchanged(source: seq<Member>)
    requires NoDup(Keys(source))
    requires forall i :: 0 <= i < |source| ==> !source[i].val.Obj?
    ensures Flatten(source) == source
  {
    FlatAssignments(source);
    PutAllFresh(source);
  }

  /** `{"a": {"b": 1}}` flattens to `{"a.b": 1}`. */
  lemma NestedExample()
    ensures Flatten([Member("a", Obj([Member("b", Num(1))]))]) == [Member("a.b", Num(1))]
  {
    var sub := [Member("b", Num(1))];
    assert sub[..0] == [];
    assert Dot("a", "b") == "a.b";
    assert ChildAssignment("a", sub[0]) == [Member("a.b", Num(1))];
    assert ChildAssignments("a", sub) == [Member("a.b", Num(1))];
    var source := [Member("a", Obj(sub))];
    assert source[..0] == [];
    assert Assignments(source) == [Member("a.b", Num(1))];
    PutAllFresh([Member("a.b", Num(1))]);
  }

  /** `{"a.b": 1, "a": {"b": 2}}`: both entries compute the path `a.b`; the
      later value wins, the key keeps its first position, and nothing is
      raised. */
  lemma CollisionExample()
    ensures Flatten([Member("a.b", Num(1)), Member("a", Obj([Member("b", Num(2))]))]) == [Member("a.b", Num(2))]
  {
    var sub := [Member("b", Num(2))];
    assert sub[..0] == [];
    assert Dot("a", "b") == "a.b";
    assert ChildAssignment("a", sub[0]) == [Member("a.b", Num(2))];
    assert ChildAssignments("a", sub) == [Member("a.b", Num(2))];
    var source := [Member("a.b", Num(1)), Member("a", Obj(sub))];
    assert source[..1][..0] == [];
    assert Assignments(source[..1]) == [Member("a.b", Num(1))];
    assert Assignments(source) == [Member("a.b", Num(1)), Member("a.b", Num(2))];
    var xs := [Member("a.b", Num(1)), Member("a.b", Num(2))];
    assert xs[..1][..0] == [];
    assert PutAll([], xs[..1]) == [Member("a.b", Num(1))];
  }

  // ---------------------------------------------------------------------
  // The result table

  /** The DataFrame the loop grows: its column labels and one flat dict per
      row (a row has no cell for a column its hit did not produce).  Row
      positions are the renumbered index `ignore_index=True` gives. */
  datatype Table = Table(columns: seq<string>, rows: seq<seq<Member>>)

  /** The distinct keys of `ks` not among `cols`. */
  function NewKeys(cols: seq<string>, ks: seq<string>): (r: seq<string>)
    ensures forall x :: x in r <==> x in ks && x !in cols
    ensures NoDup(r)
    decreases |ks|
  {
    if ks == [] then []
    else
      var init := NewKeys(cols, ks[..|ks| - 1]);
      var k := ks[|ks| - 1];
      assert ks == ks[..|ks| - 1] + [k];
      if k in cols || k in init then init else init + [k]
  }

  /** The column labels after appending `row`: the keys the table lacks
      become new columns after the old ones.  pandas finds them with
      `Index.difference`, whose default `sort=None` sorts its result; the
      model takes that sorted order for every row, the first included. */
  function AddColumns(cols: seq<string>, row: seq<Member>): (r: seq<string>)
    ensures |cols| <= |r| && r[..|cols|] == cols
    ensures SortedStrings(r[|cols|..])
  {
    SortStringsSpec(NewKeys(cols, Keys(row)));
    assert (cols + SortStrings(NewKeys(cols, Keys(row))))[|cols|..] == SortStrings(NewKeys(cols, Keys(row)));
    cols + SortStrings(NewKeys(cols, Keys(row)))
  }

  /** Appending a row keeps the old columns in place, adds exactly the
      row's missing keys and never duplicates a label. */
  lemma AddColumnsSpec(cols: seq<string>, row: seq<Member>)
    requires NoDup(cols)
    ensures |cols| <= |AddColumns(cols, row)| && AddColumns(cols, row)[..|cols|] == cols
    ensures forall x :: x in AddColumns(cols, row) <==> x in cols || x in Keys(row)
    ensures NoDup(AddColumns(cols, row))
    ensures SortedStrings(AddColumns(cols, row)[|cols|..])
  {
    var unseen := NewKeys(cols, Keys(row));
    var added := SortStrings(unseen);
    SortStringsSpec(unseen);
    assert (cols + added)[..|cols|] == cols;
    forall x ensures x in added <==> x in unseen {
      assert x in added <==> x in multiset(added);
    }
    forall i, j | 0 <= i < j < |cols + added| ensures (cols + added)[i] != (cols + added)[j] {
      if j >= |cols| && i < |cols| {
        assert (cols + added)[j] in added;
      }
    }
  }

  /** `results.append(hitdict, ignore_index=True)`. */
  function AppendRow(t: Table, row: seq<Member>): (r: Table)
    ensures r.rows == t.rows + [row]
    ensures |t.columns| <= |r.columns| && r.columns[..|t.columns|] == t.columns
    ensures SortedStrings(r.columns[|t.columns|..])
  {
    Table(AddColumns(t.columns, row), t.rows + [row])
  }

  /** The column labels of a table built by appending `rows` in order to an
      empty DataFrame. */
  function Columns(rows: seq<seq<Member>>): seq<string>
    decreases |rows|
  {
    if rows == [] then [] else AddColumns(Columns(rows[..|rows| - 1]), rows[|rows| - 1])
  }

  /** The table built from an empty DataFrame by appending `rows` in order:
      each row once, in order, at its renumbered position. */
  function Tabulate(rows: seq<seq<Member>>): Table {
    Table(Columns(rows), rows)
  }

  /** Appending a row to a table built from `rows` gives the table built
      from `rows` followed by that row. */
  lemma TabulateSnoc(rows: seq<seq<Member>>, row: seq<Member>)
    ensures AppendRow(Tabulate(rows), row) == Tabulate(rows + [row])
  {
    assert (rows + [row])[..|rows|] == rows;
  }

  /** `c` is a key of some row. */
  predicate SeenIn(rows: seq<seq<Member>>, c: string) {
    exists i :: 0 <= i < |rows| && c in Keys(rows[i])
  }

  lemma SeenInSnoc(rows: seq<seq<Member>>, c: string)
    requires rows != []
    ensures SeenIn(rows, c) <==> SeenIn(rows[..|rows| - 1], c) || c in Keys(rows[|rows| - 1])
  {
    var n := |rows| - 1;
    if SeenIn(rows, c) && c !in Keys(rows[n]) {
      var i :| 0 <= i < |rows| && c in Keys(rows[i]);
      assert rows[..n][i] == rows[i];
    }
    if SeenIn(rows[..n], c) {
      var i :| 0 <= i < n && c in Keys(rows[..n][i]);
      assert rows[..n][i] == rows[i];
    }
  }

  /** No column label occurs twice. */
  lemma {:induction false} ColumnsNoDup(rows: seq<seq<Member>>)
    ensures NoDup(Columns(rows))
    decreases |rows|
  {
    if rows != [] {
      var init := rows[..|rows| - 1];
      ColumnsNoDup(init);
      AddColumnsSpec(Columns(init), rows[|rows| - 1]);
    }
  }

  /** The columns are exactly the keys seen in some row. */
  lemma {:induction false} ColumnsSeen(rows: seq<seq<Member>>, c: string)
    ensures c in Columns(rows) <==> SeenIn(rows, c)
    decreases |rows|
  {
    if rows != [] {
      var init := rows[..|rows| - 1];
      ColumnsSeen(init, c);
      ColumnsNoDup(init);
      AddColumnsSpec(Columns(init), rows[|rows| - 1]);
      SeenInSnoc(rows, c);
    }
  }

  // ---------------------------------------------------------------------
  // The search response

  /** `hit.pop('_source').items()` as the one source a hit contributes. */
  function HitSource(hit: Value): Result<seq<seq<Member>>> {
    var source :- Pop(hit, "_source");
    var items :- Items(source);
    Ok([items])
  }

  /** The sources of all hits, in order; the first hit without a dict
      `_source` raises. */
  function Sources(hits: seq<Value>): Result<seq<seq<Member>>> {
    Collect(hits, HitSource)
  }

  /** `requestjson.pop('hits').pop('hits')`, iterated (main.py:66). */
  function HitList(response: Value): Result<seq<Value>> {
    var outer :- Pop(response, "hits");
    var inner :- Pop(outer, "hits");
    Iterate(inner)
  }

  function FlattenAll(sources: seq<seq<Member>>): (rows: seq<seq<Member>>)
    ensures |rows| == |sources|
    ensures forall i :: 0 <= i < |sources| ==> rows[i] == Flatten(sources[i])
  {
    seq(|sources|, i requires 0 <= i < |sources| => Flatten(sources[i]))
  }

  /** The DataFrame `simple_query_search` returns for a parsed response, or
      the exception it raises. */
  function SearchResults(response: Value): (r: Result<Table>)
    ensures r.Ok? ==> HitList(response).Ok? && |r.value.rows| == |HitList(response).value|
    ensures r.Ok? ==> NoDup(r.value.columns)
  {
    var hits :- HitList(response);
    var sources :- Sources(hits);
    SourcesSpec(hits);
    ColumnsNoDup(FlattenAll(sources));
    Ok(Tabulate(FlattenAll(sources)))
  }

  /** The loop over the hits (main.py:65-83): flatten each hit and append
      its row. */
  method SimpleQuerySearch(response: Value) returns (r: Result<Table>)
    ensures r == SearchResults(response)
  {
    var hitList := HitList(response);
    if hitList.Fail? {
      return Fail(hitList.error);
    }
    var hits := hitList.value;
    var results := Table([], []);
    ghost var sources: seq<seq<Member>> := [];
    var i := 0;
    while i < |hits|
      invariant 0 <= i <= |hits|
      invariant Sources(hits[..i]) == Ok(sources)
      invariant results == Tabulate(FlattenAll(sources))
    {
      var source := Pop(hits[i], "_source");
      if source.Fail? {
        CollectFailure(hits, HitSource, i, source.error);
        return Fail(source.error);
      }
      var items := Items(source.value);
      if items.Fail? {
        CollectFailure(hits, HitSource, i, items.error);
        return Fail(items.error);
      }
      var hitdict := FlattenHit(items.value);
      CollectStep(hits, HitSource, i, [items.value]);
      assert FlattenAll(sources + [items.value]) == FlattenAll(sources) + [hitdict];
      TabulateSnoc(FlattenAll(sources), hitdict);
      results := AppendRow(results, hitdict);
      sources := sources + [items.value];
      i := i + 1;
    }
    assert hits[..i] == hits;
    return Ok(results);
  }

  // ---------------------------------------------------------------------
  // What the table holds

  /** The sources are the `_source` dicts of the hits, one per hit, in
      order. */
  lemma {:induction false} SourcesSpec(hits: seq<Value>)
    requires Sources(hits).Ok?
    ensures |Sources(hits).value| == |hits|
    ensures forall i :: 0 <= i < |hits| ==> HitSource(hits[i]) == Ok([Sources(hits).value[i]])
    decreases |hits|
  {
    if hits != [] {
      var n := |hits| - 1;
      SourcesSpec(hits[..n]);
      var init := Sources(hits[..n]).value;
      var last := HitSource(hits[n]).value;
      assert Sources(hits).value == init + last;
      forall i | 0 <= i < |hits| ensures HitSource(hits[i]) == Ok([Sources(hits).value[i]]) {
        if i < n {
          assert hits[..n][i] == hits[i];
        }
      }
    }
  }

  /** A successful search has one row per hit, in response order, and row
      `i` is the flat dict of hit `i`'s `_source`. */
  lemma SearchRows(response: Value)
    requires SearchResults(response).Ok?
    ensures HitList(response).Ok? && Sources(HitList(response).value).Ok?
    ensures var hits := HitList(response).value;
      var sources := Sources(hits).value;
      var t := SearchResults(response).value;
      && |t.rows| == |hits|
      && forall i :: 0 <= i < |hits| ==>
           HitSource(hits[i]) == Ok([sources[i]]) && t.rows[i] == Flatten(sources[i])
  {
    SourcesSpec(HitList(response).value);
  }

  /** Every flattened key becomes a column, each once, and nothing else
      does. */
  lemma SearchColumns(response: Value, c: string)
    requires SearchResults(response).Ok?
    ensures NoDup(SearchResults(response).value.columns)
    ensures c in SearchResults(response).value.columns <==> SeenIn(SearchResults(response).value.rows, c)
  {
    var t := SearchResults(response).value;
    ColumnsNoDup(t.rows);
    ColumnsSeen(t.rows, c);
  }

  /** Row `i` of a search has a cell in column `c` exactly when hit `i`'s
      flattened `_source` produced the key `c`, and every such key is a
      column: the other cells of the row are empty. */
  lemma AbsentCell(response: Value, i: nat, c: string)
    requires SearchResults(response).Ok? && i < |SearchResults(response).value.rows|
    ensures HitList(response).Ok? && Sources(HitList(response).value).Ok?
    ensures var sources := Sources(HitList(response).value).value;
      var t := SearchResults(response).value;
      && i < |sources|
      && (Lookup(t.rows[i], c).Some? <==> c in Keys(Flatten(sources[i])))
      && (Lookup(t.rows[i], c).Some? ==> c in t.columns)
  {
    var t := SearchResults(response).value;
    SearchRows(response);
    SearchColumns(response, c);
    if Lookup(t.rows[i], c).Some? {
      assert SeenIn(t.rows, c);
    }
  }

  /** The search raises exactly when the response lacks `hits.hits`, that
      is not iterable, or some hit has no dict `_source`. */
  lemma SearchFails(response: Value)
    ensures SearchResults(response).Fail? <==>
      HitList(response).Fail? ||
      exists i :: 0 <= i < |HitList(response).value| && HitSource(HitList(response).value[i]).Fail?
  {
    if HitList(response).Ok? {
      CollectFailIff(HitList(response).value, HitSource);
    }
  }

  /** A hit without `_source` makes the whole search fail. */
  lemma MissingSourceFails(response: Value, i: nat)
    requires HitList(response).Ok? && i < |HitList(response).value|
    requires var hit := HitList(response).value[i]; hit.Obj? && "_source" !in Keys(hit.members)
    ensures SearchResults(response).Fail?
  {
    SearchFails(response);
    assert HitSource(HitList(response).value[i]).Fail?;
  }

  /** An empty hit list is a table with no rows and no columns. */
  lemma EmptyHits(response: Value)
    requires HitList(response) == Ok([])
    ensures SearchResults(response) == Ok(Table([], []))
  {
    assert Sources([]) == Ok([]);
  }

  /** The response with hits `{"_source": {"user": {"name": "A"}}}` and
      `{"_source": {"ts": "2020"}}` gives a two-row table with columns
      `user.name` and `ts`, each row holding only its own cell. */
  lemma TwoHitsExample()
    ensures SearchResults(Obj([Member("hits", Obj([Member("hits", Arr([
      Obj([Member("_source", Obj([Member("user", Obj([Member("name", Str("A"))]))]))]),
      Obj([Member("_source", Obj([Member("ts", Str("2020"))]))])]))]))]))
      == Ok(Table(["user.name", "ts"], [[Member("user.name", Str("A"))], [Member("ts", Str("2020"))]]))
  {
    var s1 := [Member("user", Obj([Member("name", Str("A"))]))];
    var s2 := [Member("ts", Str("2020"))];
    var h1 := Obj([Member("_source", Obj(s1))]);
    var h2 := Obj([Member("_source", Obj(s2))]);
    var response := Obj([Member("hits", Obj([Member("hits", Arr([h1, h2]))]))]);
    TwoHitsSources(h1, h2, s1, s2);
    SearchResultsOf(response, [h1, h2], [s1, s2]);
    TwoHitsRows(s1, s2);
    TableExample();
  }

  lemma TwoHitsRows(s1: seq<Member>, s2: seq<Member>)
    requires s1 == [Member("user", Obj([Member("name", Str("A"))]))] && s2 == [Member("ts", Str("2020"))]
    ensures FlattenAll([s1, s2]) == [[Member("user.name", Str("A"))], [Member("ts", Str("2020"))]]
  {
    FlattenUser();
    KeysAt(s2);
    FlatSourceUnchanged(s2);
  }

  lemma SearchResultsOf(response: Value, hits: seq<Value>, sources: seq<seq<Member>>)
    requires HitList(response) == Ok(hits) && Sources(hits) == Ok(sources)
    ensures SearchResults(response) == Ok(Tabulate(FlattenAll(sources)))
  {
  }

  lemma TwoHitsSources(h1: Value, h2: Value, s1: seq<Member>, s2: seq<Member>)
    requires h1 == Obj([Member("_source", Obj(s1))]) && h2 == Obj([Member("_source", Obj(s2))])
    ensures HitList(Obj([Member("hits", Obj([Member("hits", Arr([h1, h2]))]))])) == Ok([h1, h2])
    ensures Sources([h1, h2]) == Ok([s1, s2])
  {
    assert HitSource(h1) == Ok([s1]);
    assert HitSource(h2) == Ok([s2]);
    CollectSingle(h1, HitSource);
    CollectSnoc([h1], h2, HitSource);
    assert [h1] + [h2] == [h1, h2];
    assert [s1] + [s2] == [s1, s2];
  }

  lemma FlattenUser()
    ensures Flatten([Member("user", Obj([Member("name", Str("A"))]))]) == [Member("user.name", Str("A"))]
  {
    var sub := [Member("name", Str("A"))];
    assert sub[..0] == [];
    assert Dot("user", "name") == "user.name";
    assert ChildAssignment("user", sub[0]) == [Member("user.name", Str("A"))];
    assert ChildAssignments("user", sub) == [Member("user.name", Str("A"))];
    var source := [Member("user", Obj(sub))];
    assert source[..0] == [];
    assert Assignments(source) == [Member("user.name", Str("A"))];
    PutAllFresh([Member("user.name", Str("A"))]);
  }

  lemma TableExample()
    ensures Tabulate([[Member("user.name", Str("A"))], [Member("ts", Str("2020"))]])
      == Table(["user.name", "ts"], [[Member("user.name", Str("A"))], [Member("ts", Str("2020"))]])
  {
    var r1 := [Member("user.name", Str("A"))];
    var r2 := [Member("ts", Str("2020"))];
    var rows := [r1, r2];
    assert Keys(r1) == ["user.name"] && Keys(r2) == ["ts"];
    assert NewKeys([], ["user.name"]) == ["user.name"] by {
      assert ["user.name"][..0] == [];
    }
    assert SortStrings(["user.name"]) == ["user.name"];
    assert rows[..1] == [r1] && [r1][..0] == [];
    assert Columns([r1]) == ["user.name"];
    assert NewKeys(["user.name"], ["ts"]) == ["ts"] by {
      assert ["ts"][..0] == [];
    }
    assert SortStrings(["ts"]) == ["ts"];
    assert Columns(rows) == ["user.name", "ts"];
  }
}
