/** `SearchBuilder` (main.py:309-425): the left-hand panel that lists the
    indices and their fields as checkboxes, turns the ticked boxes into the
    index and field selectors of a search, and hands the hits to the result
    grid.  The engine's parsed responses are parameters; the connection
    fields, buttons and layout are not modelled. */
module Builder {
  import opened Text
  import opened Json
  import opened Request
  import opened Checklist
  import Mapping
  import Hits
  import Grid

  /** The caption of the first box of both lists. */
  const ALL := "All"

  /** The index selector sent when "All" is ticked. */
  const ALL_INDICES := "_all"

  /** The field selector sent when "All" is ticked. */
  const ALL_FIELDS := "*"

  /** A freshly packed "All" box (its state set to `'!alternate'`). */
  function AllBox(): CheckBox {
    CheckBox(ALL, false)
  }

  // ---------------------------------------------------------------------
  // Listing the indices

  /** What the loop of `get_index_names` packs below "All", and whether it
      stopped early. */
  datatype Listing = Listing(boxes: seq<CheckBox>, err: Option<Error>)

  /** The boxes packed for the entries `vals` of `list(requestjson)`: one
      unticked box per name that does not start with `.`, in listing order.
      `entry.startswith` on an entry that is not a string raises
      `AttributeError`, and the boxes packed before it stay. */
  function ListIndices(vals: seq<Value>): (l: Listing)
    ensures forall k :: 0 <= k < |l.boxes| ==> !l.boxes[k].selected && !StartsWith(l.boxes[k].text, ".")
    ensures l.err == None || l.err == Some(AttributeError)
    decreases |vals|
  {
    if vals == [] then Listing([], None)
    else
      var n := |vals| - 1;
      var p := ListIndices(vals[..n]);
      if p.err.Some? then p
      else
        match vals[n]
        case Str(s) => if StartsWith(s, ".") then p else Listing(p.boxes + [CheckBox(s, false)], None)
        case _ => Listing(p.boxes, Some(AttributeError))
  }

  /** Listing a concatenation lists the first part and then, unless that
      stopped early, the second. */
  lemma {:induction false} ListIndicesAppend(a: seq<Value>, b: seq<Value>)
    ensures ListIndices(a).err.Some? ==> ListIndices(a + b) == ListIndices(a)
    ensures ListIndices(a).err == None ==>
      ListIndices(a + b) == Listing(ListIndices(a).boxes + ListIndices(b).boxes, ListIndices(b).err)
    decreases |b|
  {
    if b == [] {
      assert a + b == a;
    } else {
      var n := |b| - 1;
      assert (a + b)[..|a| + n] == a + b[..n];
      assert (a + b)[|a| + n] == b[n];
      ListIndicesAppend(a, b[..n]);
    }
  }

  /** Listing a single entry. */
  lemma ListIndicesSingle(v: Value)
    ensures ListIndices([v]) == match v
      case Str(s) => Listing(if StartsWith(s, ".") then [] else [CheckBox(s, false)], None)
      case _ => Listing([], Some(AttributeError))
  {
    assert [v][..0] == [];
  }

  /** The listing stops early exactly when some entry is not a string. */
  lemma {:induction false} ListIndicesFails(vals: seq<Value>)
    ensures ListIndices(vals).err.Some? <==> exists k :: 0 <= k < |vals| && !vals[k].Str?
    decreases |vals|
  {
    if vals != [] {
      var n := |vals| - 1;
      ListIndicesFails(vals[..n]);
      if exists k :: 0 <= k < n && !vals[..n][k].Str? {
        var k :| 0 <= k < n && !vals[..n][k].Str?;
        assert vals[k] == vals[..n][k];
      }
      if exists k :: 0 <= k < |vals| && !vals[k].Str? {
        var k :| 0 <= k < |vals| && !vals[k].Str?;
        if k < n {
          assert vals[..n][k] == vals[k];
        }
      }
    }
  }

  /** When every entry is a string, a name is listed exactly when it is an
      entry and does not start with `.` (the engine's internal indices). */
  lemma {:induction false} ListedNames(vals: seq<Value>, name: string)
    requires ListIndices(vals).err == None
    ensures CheckBox(name, false) in ListIndices(vals).boxes <==> Str(name) in vals && !StartsWith(name, ".")
    decreases |vals|
  {
    if vals != [] {
      var n := |vals| - 1;
      assert vals == vals[..n] + [vals[n]];
      ListIndicesAppend(vals[..n], [vals[n]]);
      ListIndicesSingle(vals[n]);
      ListedNames(vals[..n], name);
    }
  }

  /** `list(requestjson)` of an `_alias` response object is its keys, all
      strings, so listing it never stops early. */
  lemma AliasesList(ms: seq<Member>)
    ensures Iterate(Obj(ms)).Ok?
    ensures ListIndices(Iterate(Obj(ms)).value).err == None
  {
    ListIndicesFails(StrValues(Keys(ms)));
  }

  /** One more entry after a listing that has not stopped. */
  lemma ListIndicesNext(vals: seq<Value>, i: nat)
    requires i < |vals| && ListIndices(vals[..i]).err == None
    ensures var p := ListIndices(vals[..i]).boxes;
      ListIndices(vals[..i + 1]) == match vals[i]
        case Str(s) => Listing(if StartsWith(s, ".") then p else p + [CheckBox(s, false)], None)
        case _ => Listing(p, Some(AttributeError))
  {
    assert vals[..i + 1][..i] == vals[..i];
  }

  /** Once the listing has stopped, later entries change nothing. */
  lemma ListIndicesStops(vals: seq<Value>, j: nat)
    requires j <= |vals| && ListIndices(vals[..j]).err.Some?
    ensures ListIndices(vals) == ListIndices(vals[..j])
  {
    assert vals == vals[..j] + vals[j..];
    ListIndicesAppend(vals[..j], vals[j..]);
  }

  // ---------------------------------------------------------------------
  // Listing the fields

  /** One unticked box per field name, in order; a name starting with `@`
      gets a box with the same caption. */
  function FieldBoxes(names: seq<string>): (r: seq<CheckBox>)
    ensures |r| == |names|
    ensures forall k :: 0 <= k < |names| ==> r[k] == CheckBox(names[k], false)
    decreases |names|
  {
    if names == [] then []
    else
      var n := |names| - 1;
      FieldBoxes(names[..n]) + [CheckBox(names[n], false)]
  }

  // ---------------------------------------------------------------------
  // The selectors

  /** The selector `simple_query_search` sends for a list: `sentinel` when
      its first box is ticked, otherwise `return_checked()`.  Reading
      `slaves()[0]` of an empty list raises `IndexError`. */
  function Selector(boxes: seq<CheckBox>, sentinel: string): (r: Result<string>)
    ensures r.Fail? <==> boxes == []
    ensures r.Fail? ==> r.error == IndexError
  {
    if boxes == [] then Fail(IndexError)
    else if boxes[0].selected then Ok(sentinel)
    else Ok(Join(Checked(Tail(boxes)), ','))
  }

  /** The field list reaches the engine as `["*"]` when "All" is ticked, as
      `[""]` when nothing is ticked, and otherwise as the ticked captions
      after the first, in list order, when no caption holds a comma. */
  lemma SelectedSources(boxes: seq<CheckBox>, searchTerm: string)
    requires boxes != []
    requires forall k :: 0 <= k < |boxes| ==> ',' !in boxes[k].text
    ensures SourceFields(RequestBuilder(searchTerm, Selector(boxes, ALL_FIELDS).value))
         == Some(if boxes[0].selected then [ALL_FIELDS]
                 else if Checked(Tail(boxes)) == [] then [""]
                 else Checked(Tail(boxes)))
  {
    SentinelSources(searchTerm);
    if !boxes[0].selected && Checked(Tail(boxes)) != [] {
      ReturnCheckedRoundTrip(boxes);
      BodyShape(searchTerm, Join(Checked(Tail(boxes)), ','));
    }
  }

  // ---------------------------------------------------------------------
  // Clicking a box

  /** The two checklists of the panel. */
  datatype ListId = Indices | Fields

  /** Both lists, and the list whose "All" box `self.all` names at the
      moment (none before the first listing). */
  datatype Lists = Lists(indices: seq<CheckBox>, fields: seq<CheckBox>, all: Option<ListId>)

  function Boxes(s: Lists, w: ListId): seq<CheckBox> {
    if w == Indices then s.indices else s.fields
  }

  function WithBoxes(s: Lists, w: ListId, b: seq<CheckBox>): (r: Lists)
    ensures Boxes(r, w) == b
    ensures forall v :: v != w ==> Boxes(r, v) == Boxes(s, v)
    ensures r.all == s.all
  {
    if w == Indices then s.(indices := b) else s.(fields := b)
  }

  /** Boxes exist only once a listing has named its "All" box, and the
      list `self.all` names has that box. */
  predicate Wired(s: Lists) {
    && (s.all == None ==> s.indices == [] && s.fields == [])
    && (s.all.Some? ==> Boxes(s, s.all.value) != [])
  }

  /** Box `i` after a click: Tk flips its tick before running the box's
      command. */
  function Toggle(boxes: seq<CheckBox>, i: nat): (r: seq<CheckBox>)
    requires i < |boxes|
    ensures |r| == |boxes| && r[i].selected == !boxes[i].selected
    ensures forall k :: 0 <= k < |boxes| ==> r[k].text == boxes[k].text
    ensures forall k :: 0 <= k < |boxes| && k != i ==> r[k] == boxes[k]
  {
    boxes[i := CheckBox(boxes[i].text, !boxes[i].selected)]
  }

  /** `state(['!selected'])` on the first box. */
  function UntickFirst(boxes: seq<CheckBox>): (r: seq<CheckBox>)
    requires boxes != []
    ensures |r| == |boxes| && !r[0].selected && r[0].text == boxes[0].text
    ensures forall k :: 0 < k < |boxes| ==> r[k] == boxes[k]
  {
    boxes[0 := CheckBox(boxes[0].text, false)]
  }

  /** A click on box `i` of list `w` as the code wires it: the "All" box
      runs `uncheck_rest` on its own list, every other box runs
      `self.all.state(['!selected'])`, and `self.all` is looked up when the
      box is clicked, so it is the "All" box of the list listed last
      (main.py:378, 399, 405). */
  function ClickAsWritten(s: Lists, w: ListId, i: nat): (r: Lists)
    requires Wired(s) && i < |Boxes(s, w)|
    ensures r.all == s.all
    ensures |Boxes(r, w)| == |Boxes(s, w)| && Boxes(r, w)[i].selected == !Boxes(s, w)[i].selected
    ensures i == 0 ==> forall v :: v != w ==> Boxes(r, v) == Boxes(s, v)
    ensures i == 0 ==> Boxes(r, w) == UncheckedRest(Toggle(Boxes(s, w), 0))
    ensures forall v :: |Boxes(r, v)| == |Boxes(s, v)|
    ensures i > 0 ==> s.all.Some? && Boxes(r, s.all.value) != [] && !Boxes(r, s.all.value)[0].selected
    ensures i > 0 ==> forall v, k :: 0 <= k < |Boxes(s, v)| && !(v == w && k == i) && !(Some(v) == s.all && k == 0) ==>
      Boxes(r, v)[k] == Boxes(s, v)[k]
  {
    var t := WithBoxes(s, w, Toggle(Boxes(s, w), i));
    if i == 0 then WithBoxes(t, w, UncheckedRest(Boxes(t, w)))
    else
      var a := s.all.value;
      WithBoxes(t, a, UntickFirst(Boxes(t, a)))
  }

  /** The click as the code evidently means it: a name box unticks the
      "All" box of its own list. */
  function ClickIntended(s: Lists, w: ListId, i: nat): (r: Lists)
    requires i < |Boxes(s, w)|
    ensures r.all == s.all
    ensures |Boxes(r, w)| == |Boxes(s, w)| && Boxes(r, w)[i].selected == !Boxes(s, w)[i].selected
    ensures forall v :: v != w ==> Boxes(r, v) == Boxes(s, v)
    ensures i == 0 ==> Boxes(r, w) == UncheckedRest(Toggle(Boxes(s, w), 0))
    ensures i > 0 ==> !Boxes(r, w)[0].selected && Boxes(r, w)[0].text == Boxes(s, w)[0].text
    ensures i > 0 ==> forall k :: 0 < k < |Boxes(s, w)| && k != i ==> Boxes(r, w)[k] == Boxes(s, w)[k]
  {
    var t := WithBoxes(s, w, Toggle(Boxes(s, w), i));
    if i == 0 then WithBoxes(t, w, UncheckedRest(Boxes(t, w)))
    else WithBoxes(t, w, UntickFirst(Boxes(t, w)))
  }

  /** Both kinds of click keep every caption and the length of both lists,
      so the wiring stays valid. */
  lemma ClicksKeepCaptions(s: Lists, w: ListId, i: nat, v: ListId)
    requires Wired(s) && i < |Boxes(s, w)|
    ensures |Boxes(ClickAsWritten(s, w, i), v)| == |Boxes(s, v)| == |Boxes(ClickIntended(s, w, i), v)|
    ensures forall k :: 0 <= k < |Boxes(s, v)| ==>
      Boxes(ClickAsWritten(s, w, i), v)[k].text == Boxes(s, v)[k].text == Boxes(ClickIntended(s, w, i), v)[k].text
    ensures Wired(ClickAsWritten(s, w, i)) && Wired(ClickIntended(s, w, i))
  {
    var t := WithBoxes(s, w, Toggle(Boxes(s, w), i));
    if i == 0 {
      UncheckRestIdempotent(Boxes(t, w));
    }
  }

  /** Ticking the "All" box of a list selects the whole list: the selector
      becomes the sentinel and every other box of that list is unticked. */
  lemma ClickAllSelectsAll(s: Lists, w: ListId, sentinel: string)
    requires Boxes(s, w) != [] && !Boxes(s, w)[0].selected
    ensures var b := Boxes(ClickIntended(s, w, 0), w);
      && Selector(b, sentinel) == Ok(sentinel)
      && Checked(Tail(b)) == []
  {
    var t := Toggle(Boxes(s, w), 0);
    UncheckRestSelectsNothing(t);
    assert Join(Checked(Tail(UncheckedRest(t))), ',') == "";
    assert Tail(UncheckedRest(t)) == Unticked(t[1..]);
    CheckedUnticked(t[1..]);
  }

  /** With the intended wiring, ticking or unticking a name box of a list
      makes that list's selector the explicit names ticked after the click,
      which are the names ticked before it with box `i` flipped, and leaves
      the other list as it was. */
  lemma ClickNameSelectsNames(s: Lists, w: ListId, i: nat, sentinel: string)
    requires 0 < i < |Boxes(s, w)|
    ensures var r := ClickIntended(s, w, i);
      && Selector(Boxes(r, w), sentinel) == Ok(Join(Checked(Tail(Boxes(r, w))), ','))
      && Boxes(r, w)[i].selected == !Boxes(s, w)[i].selected
      && !Boxes(r, w)[0].selected
      && Checked(Tail(Boxes(r, w))) == Checked(Tail(Toggle(Boxes(s, w), i)))
      && (forall v :: v != w ==> Boxes(r, v) == Boxes(s, v))
  {
    var r := ClickIntended(s, w, i);
    assert Tail(Boxes(r, w)) == Tail(Toggle(Boxes(s, w), i));
  }

  /** With the code's wiring, a name box behaves as intended exactly when
      `self.all` names its own list. */
  lemma ClickAgrees(s: Lists, w: ListId, i: nat)
    requires Wired(s) && i < |Boxes(s, w)|
    requires i == 0 || s.all == Some(w)
    ensures ClickAsWritten(s, w, i) == ClickIntended(s, w, i)
  {
  }

  /** The late binding shows after "Get Fields": the index list holds
      "All" (ticked) and index "logs", the field list holds "All" and field
      "msg", and `self.all` is the field list's box.  Ticking "logs" leaves
      the index list's "All" ticked, so the search still goes to every
      index instead of "logs", while the field list's "All" is unticked;
      the intended click sends "logs". */
  lemma LateBoundAll()
    ensures var s := Lists([CheckBox(ALL, true), CheckBox("logs", false)],
                           [CheckBox(ALL, true), CheckBox("msg", false)],
                           Some(Fields));
      && Wired(s)
      && Selector(Boxes(ClickAsWritten(s, Indices, 1), Indices), ALL_INDICES) == Ok(ALL_INDICES)
      && !Boxes(ClickAsWritten(s, Indices, 1), Fields)[0].selected
      && Selector(Boxes(ClickIntended(s, Indices, 1), Indices), ALL_INDICES) == Ok("logs")
  {
    var s := Lists([CheckBox(ALL, true), CheckBox("logs", false)],
                   [CheckBox(ALL, true), CheckBox("msg", false)],
                   Some(Fields));
    var b := Boxes(ClickIntended(s, Indices, 1), Indices);
    assert b == [CheckBox(ALL, false), CheckBox("logs", true)];
    assert Tail(b) == [CheckBox("logs", true)];
    assert Tail(b)[..0] == [];
    assert Checked(Tail(b)) == ["logs"];
  }

  // ---------------------------------------------------------------------
  // The panel

  class SearchBuilder {
    /** `self.indices` and `self.fields`. */
    const indices: ScrollingChecklist
    const fields: ScrollingChecklist
    /** `self.output`. */
    const output: Grid.ResultsGrid
    /** The list whose "All" box `self.all` is. */
    var all: Option<ListId>
    /** Whether the "Get Fields" button is active. */
    var fieldsEnabled: bool

    ghost predicate Valid()
      reads this
    {
      indices != fields
    }

    /** A fresh panel: empty lists, an empty grid, "Get Fields" disabled. */
    constructor (le: (Value, Value) -> bool)
      ensures Valid()
      ensures indices.boxes == [] && fields.boxes == [] && all == None && !fieldsEnabled
      ensures output.le == le && output.table == Hits.Table([], [])
    {
      indices := new ScrollingChecklist();
      fields := new ScrollingChecklist();
      output := new Grid.ResultsGrid(le);
      all := None;
      fieldsEnabled := false;
    }

    function Selection(): Lists
      reads this, indices, fields
    {
      Lists(indices.boxes, fields.boxes, all)
    }

    /** The loop of `get_index_names`: one box per listed name, below the
        "All" box already packed. */
    method PackIndices(vals: seq<Value>) returns (err: Option<Error>)
      requires indices.boxes == [AllBox()]
      modifies indices
      ensures err == ListIndices(vals).err
      ensures indices.boxes == [AllBox()] + ListIndices(vals).boxes
    {
      var i := 0;
      while i < |vals|
        invariant 0 <= i <= |vals|
        invariant ListIndices(vals[..i]).err == None
        invariant indices.boxes == [AllBox()] + ListIndices(vals[..i]).boxes
      {
        ListIndicesNext(vals, i);
        match vals[i] {
          case Str(name) =>
            if !StartsWith(name, ".") {
              indices.Add(name);
            }
          case _ =>
            ListIndicesStops(vals, i + 1);
            return Some(AttributeError);
        }
        i := i + 1;
      }
      assert vals[..i] == vals;
      err := None;
    }

    /** `get_index_names` (main.py:367-383), given `requestjson` of the
        `_alias` response.  The list is cleared and gets its "All" box
        first; `list(requestjson)` of a value that is not iterable raises
        `TypeError`.  "Get Fields" is activated only when the whole listing
        went through. */
    method GetIndexNames(aliases: Value) returns (err: Option<Error>)
      requires Valid()
      modifies this, indices
      ensures Valid() && all == Some(Indices)
      ensures fields.boxes == old(fields.boxes)
      ensures Iterate(aliases).Fail? ==>
        err == Some(Iterate(aliases).error) && indices.boxes == [AllBox()] && fieldsEnabled == old(fieldsEnabled)
      ensures Iterate(aliases).Ok? ==>
        && err == ListIndices(Iterate(aliases).value).err
        && indices.boxes == [AllBox()] + ListIndices(Iterate(aliases).value).boxes
        && fieldsEnabled == (old(fieldsEnabled) || err == None)
    {
      indices.Clear();
      indices.Add(ALL);
      all := Some(Indices);
      var listing := Iterate(aliases);
      if listing.Fail? {
        return Some(listing.error);
      }
      err := PackIndices(listing.value);
      if err == None {
        fieldsEnabled := true;
      }
    }

    /** `get_field_names` (main.py:385-409), given `requestjson` of the
        `_mapping` response.  The field list is cleared and gets its "All"
        box before the request, so a failing response leaves just that
        box.  `asked` is the index part of the request path,
        `return_checked()` of the index list. */
    method GetFieldNames(mapping: Value) returns (asked: string, err: Option<Error>)
      requires Valid()
      modifies this, fields
      ensures Valid() && all == Some(Fields) && fieldsEnabled == old(fieldsEnabled)
      ensures indices.boxes == old(indices.boxes)
      ensures asked == Join(Checked(Tail(indices.boxes)), ',')
      ensures match Mapping.FieldNames(mapping)
        case Fail(e) => err == Some(e) && fields.boxes == [AllBox()]
        case Ok(names) => err == None && fields.boxes == [AllBox()] + FieldBoxes(names)
    {
      fields.Clear();
      fields.Add(ALL);
      all := Some(Fields);
      asked := indices.ReturnChecked();
      var r := Mapping.IndexFieldNames(mapping);
      if r.Fail? {
        return asked, Some(r.error);
      }
      PackFields(r.value);
      err := None;
    }

    /** The loop of `get_field_names` (main.py:395-408): one box per field
        name, packed below "All". */
    method PackFields(names: seq<string>)
      requires fields.boxes == [AllBox()]
      modifies fields
      ensures fields.boxes == [AllBox()] + FieldBoxes(names)
    {
      var i := 0;
      while i < |names|
        invariant 0 <= i <= |names|
        invariant fields.boxes == [AllBox()] + FieldBoxes(names[..i])
      {
        assert names[..i + 1][..i] == names[..i];
        fields.Add(names[i]);
        i := i + 1;
      }
      assert names[..i] == names;
    }

    /** A click on box `i` of list `w`, wired as the code wires it. */
    method ClickBox(w: ListId, i: nat)
      requires Valid() && Wired(Selection()) && i < |Boxes(Selection(), w)|
      modifies indices, fields
      ensures Selection() == ClickAsWritten(old(Selection()), w, i)
    {
      var list := if w == Indices then indices else fields;
      list.SetSelected(i, !list.boxes[i].selected);
      if i == 0 {
        var _ := list.UncheckRest();
      } else {
        var owner := if all == Some(Indices) then indices else fields;
        owner.SetSelected(0, false);
      }
    }

    /** A click on box `i` of list `w`, each name box bound to the "All"
        box of its own list. */
    method ClickBoxIntended(w: ListId, i: nat)
      requires Valid() && i < |Boxes(Selection(), w)|
      modifies indices, fields
      ensures Selection() == ClickIntended(old(Selection()), w, i)
    {
      var list := if w == Indices then indices else fields;
      list.SetSelected(i, !list.boxes[i].selected);
      if i == 0 {
        var _ := list.UncheckRest();
      } else {
        list.SetSelected(0, false);
      }
    }

    /** `simple_query_search` (main.py:411-425), given `requestjson` of the
        `_search` response: the two selectors, the request path and body,
        then the hit table shown in the grid.  A failing selector or
        response leaves the grid as it was. */
    method SimpleQuerySearch(searchTerm: string, response: Value) returns (path: string, body: Value, err: Option<Error>)
      requires Valid()
      modifies output
      ensures var si := Selector(indices.boxes, ALL_INDICES);
        var sf := Selector(fields.boxes, ALL_FIELDS);
        && (si.Fail? || sf.Fail? ==>
              err == Some(IndexError) && output.table == old(output.table)
              && output.commands == old(output.commands) && output.lines == old(output.lines)
              && output.headings == old(output.headings))
        && (si.Ok? && sf.Ok? ==>
              && path == "/" + si.value + "/_search"
              && body == RequestBuilder(searchTerm, sf.value)
              && match Hits.SearchResults(response)
                 case Fail(e) =>
                   err == Some(e) && output.table == old(output.table)
                   && output.commands == old(output.commands) && output.lines == old(output.lines)
                   && output.headings == old(output.headings)
                 case Ok(t) =>
                   && err == None && output.table == t
                   && output.headings == t.columns && output.commands == Grid.Armed(t.columns)
                   && output.lines == Grid.View(t.columns, t.rows))
    {
      path, body := "", Null;
      var si := Selector(indices.boxes, ALL_INDICES);
      if si.Fail? {
        return path, body, Some(si.error);
      }
      var sf := Selector(fields.boxes, ALL_FIELDS);
      if sf.Fail? {
        return path, body, Some(sf.error);
      }
      path := "/" + si.value + "/_search";
      body := RequestBuilder(searchTerm, sf.value);
      var r := Hits.SimpleQuerySearch(response);
      if r.Fail? {
        return path, body, Some(r.error);
      }
      output.table := r.value;
      output.Populate();
      err := None;
    }
  }
}
