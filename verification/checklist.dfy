/** `ScrollingChecklist` (main.py:199-244): a column of checkboxes whose
    first box is "All".  Only the boxes themselves are modelled, in packing
    order, each with its caption and whether it is ticked; the canvas,
    scrollbar and styling are not. */
module Checklist {
  import opened Text
  import opened Json

  datatype CheckBox = CheckBox(text: string, selected: bool)

  /** The captions of the ticked boxes, in list order. */
  function Checked(boxes: seq<CheckBox>): (names: seq<string>)
    ensures |names| <= |boxes|
    ensures boxes != [] && boxes[|boxes| - 1].selected ==> names != [] && names[|names| - 1] == boxes[|boxes| - 1].text
    decreases |boxes|
  {
    if boxes == [] then []
    else
      var n := |boxes| - 1;
      if boxes[n].selected then Checked(boxes[..n]) + [boxes[n].text] else Checked(boxes[..n])
  }

  /** `slaves()[1:]`: every box after the first (none for an empty list). */
  function Tail(boxes: seq<CheckBox>): seq<CheckBox> {
    if boxes == [] then [] else boxes[1..]
  }

  /** The same boxes, none ticked. */
  function Unticked(boxes: seq<CheckBox>): (r: seq<CheckBox>)
    ensures |r| == |boxes|
    ensures forall k :: 0 <= k < |boxes| ==> r[k] == CheckBox(boxes[k].text, false)
    decreases |boxes|
  {
    if boxes == [] then []
    else
      var n := |boxes| - 1;
      Unticked(boxes[..n]) + [CheckBox(boxes[n].text, false)]
  }

  /** What `uncheck_rest` leaves: when "All" is ticked, only "All" stays
      ticked; otherwise nothing changes. */
  function UncheckedRest(boxes: seq<CheckBox>): (r: seq<CheckBox>)
    requires boxes != []
    ensures |r| == |boxes| && r[0] == boxes[0]
    ensures forall k :: 0 < k < |boxes| ==>
      r[k].text == boxes[k].text && (r[k].selected <==> !boxes[0].selected && boxes[k].selected)
  {
    if boxes[0].selected then [boxes[0]] + Unticked(boxes[1..]) else boxes
  }

  // ---------------------------------------------------------------------
  // Properties of the selection

  lemma {:induction false} CheckedAppend(a: seq<CheckBox>, b: seq<CheckBox>)
    ensures Checked(a + b) == Checked(a) + Checked(b)
    decreases |b|
  {
    if b == [] {
      assert a + b == a;
    } else {
      var n := |b| - 1;
      assert (a + b)[..|a| + n] == a + b[..n];
      assert (a + b)[|a| + n] == b[n];
      CheckedAppend(a, b[..n]);
    }
  }

  /** A caption is listed exactly when some box with it is ticked. */
  lemma {:induction false} CheckedMembers(boxes: seq<CheckBox>, name: string)
    ensures name in Checked(boxes) <==> exists k :: 0 <= k < |boxes| && boxes[k].selected && boxes[k].text == name
    decreases |boxes|
  {
    if boxes != [] {
      var n := |boxes| - 1;
      CheckedMembers(boxes[..n], name);
      if exists k :: 0 <= k < n && boxes[..n][k].selected && boxes[..n][k].text == name {
        var k :| 0 <= k < n && boxes[..n][k].selected && boxes[..n][k].text == name;
        assert boxes[k] == boxes[..n][k];
      }
      if exists k :: 0 <= k < |boxes| && boxes[k].selected && boxes[k].text == name {
        var k :| 0 <= k < |boxes| && boxes[k].selected && boxes[k].text == name;
        if k < n {
          assert boxes[..n][k] == boxes[k];
        }
      }
    }
  }

  /** No box of an unticked list is listed. */
  lemma {:induction false} CheckedUnticked(boxes: seq<CheckBox>)
    ensures Checked(Unticked(boxes)) == []
    decreases |boxes|
  {
    if boxes != [] {
      var n := |boxes| - 1;
      CheckedUnticked(boxes[..n]);
      assert Unticked(boxes)[..n] == Unticked(boxes[..n]);
    }
  }

  /** After `uncheck_rest` with "All" ticked, `return_checked` gives the
      empty string, and "All" is still ticked. */
  lemma UncheckRestSelectsNothing(boxes: seq<CheckBox>)
    requires boxes != [] && boxes[0].selected
    ensures UncheckedRest(boxes)[0].selected
    ensures Join(Checked(Tail(UncheckedRest(boxes))), ',') == ""
  {
    assert Tail(UncheckedRest(boxes)) == Unticked(boxes[1..]);
    CheckedUnticked(boxes[1..]);
  }

  /** `uncheck_rest` keeps every caption and the number of boxes, and doing
      it twice is doing it once. */
  lemma UncheckRestIdempotent(boxes: seq<CheckBox>)
    requires boxes != []
    ensures |UncheckedRest(boxes)| == |boxes|
    ensures forall k :: 0 <= k < |boxes| ==> UncheckedRest(boxes)[k].text == boxes[k].text
    ensures UncheckedRest(UncheckedRest(boxes)) == UncheckedRest(boxes)
  {
    if boxes[0].selected {
      var u := UncheckedRest(boxes);
      assert u[1..] == Unticked(boxes[1..]);
      assert Unticked(u[1..]) == u[1..];
    }
  }

  /** What `return_checked` gives back reaches the search engine as the
      ticked names themselves, when at least one is ticked and no caption
      holds a comma. */
  lemma ReturnCheckedRoundTrip(boxes: seq<CheckBox>)
    requires Checked(Tail(boxes)) != []
    requires forall k :: 0 <= k < |boxes| ==> ',' !in boxes[k].text
    ensures Split(Join(Checked(Tail(boxes)), ','), ',') == Checked(Tail(boxes))
  {
    var names := Checked(Tail(boxes));
    forall i | 0 <= i < |names| ensures ',' !in names[i] {
      assert names[i] in names;
      CheckedMembers(Tail(boxes), names[i]);
      var k :| 0 <= k < |Tail(boxes)| && Tail(boxes)[k].selected && Tail(boxes)[k].text == names[i];
      assert Tail(boxes)[k] == boxes[k + 1];
    }
    SplitJoin(names, ',');
  }

  // ---------------------------------------------------------------------
  // The widget

  class ScrollingChecklist {
    /** `checklist.slaves()`, in packing order. */
    var boxes: seq<CheckBox>

    constructor ()
      ensures boxes == []
    {
      boxes := [];
    }

    /** `clear` (main.py:241-244): destroys every box. */
    method Clear()
      modifies this
      ensures boxes == []
    {
      boxes := [];
    }

    /** A new `ttk.Checkbutton` packed at the bottom, its state set to
        `'!alternate'`, so unticked. */
    method Add(text: string)
      modifies this
      ensures boxes == old(boxes) + [CheckBox(text, false)]
    {
      boxes := boxes + [CheckBox(text, false)];
    }

    /** `checkbox.state(['selected'])` or `state(['!selected'])` on box `i`. */
    method SetSelected(i: nat, selected: bool)
      requires i < |boxes|
      modifies this
      ensures boxes == old(boxes)[i := CheckBox(old(boxes)[i].text, selected)]
    {
      boxes := boxes[i := CheckBox(boxes[i].text, selected)];
    }

    /** `uncheck_rest` (main.py:222-226): when the first box is ticked,
        untick every other one.  `slaves()[0]` on an empty list raises
        `IndexError`. */
    method UncheckRest() returns (err: Option<Error>)
      modifies this
      ensures old(boxes) == [] ==> err == Some(IndexError) && boxes == old(boxes)
      ensures old(boxes) != [] ==> err == None && boxes == UncheckedRest(old(boxes))
    {
      if boxes == [] {
        return Some(IndexError);
      }
      err := None;
      if boxes[0].selected {
        ghost var start := boxes;
        var i := 1;
        while i < |boxes|
          invariant 1 <= i <= |boxes| == |start|
          invariant boxes[0] == start[0]
          invariant forall k :: 1 <= k < i ==> boxes[k] == CheckBox(start[k].text, false)
          invariant forall k :: i <= k < |boxes| ==> boxes[k] == start[k]
        {
          boxes := boxes[i := CheckBox(boxes[i].text, false)];
          i := i + 1;
        }
        assert boxes == [start[0]] + Unticked(start[1..]);
      }
    }

    /** `return_checked` (main.py:228-234): the captions of the ticked boxes
        after the first, joined with commas. */
    method ReturnChecked() returns (s: string)
      ensures s == Join(Checked(Tail(boxes)), ',')
    {
      var checked: seq<string> := [];
      var rest := Tail(boxes);
      var i := 0;
      while i < |rest|
        invariant 0 <= i <= |rest|
        invariant checked == Checked(rest[..i])
      {
        assert rest[..i + 1][..i] == rest[..i];
        if rest[i].selected {
          checked := checked + [rest[i].text];
        }
        i := i + 1;
      }
      assert rest[..i] == rest;
      s := Join(checked, ',');
    }
  }
}
