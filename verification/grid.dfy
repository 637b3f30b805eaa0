/** `ResultsGrid` (main.py:246-306): the result table, the grid that shows
    it, and the command bound to each column heading.  A heading click sorts
    the table on that column in the direction its command says; `populate`
    then re-arms every heading to sort ascending, and the clicked heading is
    switched to the other direction.  The widgets themselves, the Excel
    export and the console button are not modelled. */
module Grid {
  import opened Json
  import opened Hits
  import opened Sorting

  function Flip(d: Direction): Direction {
    if d == Ascending then Descending else Ascending
  }

  /** Every heading of `cols` bound to `column_sort_asc`. */
  function Armed(cols: seq<string>): (m: map<string, Direction>)
    ensures m.Keys == set c | c in cols
    ensures forall c :: c in m ==> m[c] == Ascending
  {
    map c | c in cols :: Ascending
  }

  /** `result.tolist()`: a row's values in column order, `None` where the
      row has no value for a column. */
  function RowValues(cols: seq<string>, row: seq<Member>): (vals: seq<Option<Value>>)
    ensures |vals| == |cols|
    decreases |cols|
  {
    if cols == [] then []
    else
      var n := |cols| - 1;
      RowValues(cols[..n], row) + [Lookup(row, cols[n])]
  }

  /** What the grid shows: one line of values per row. */
  function View(cols: seq<string>, rows: seq<seq<Member>>): (lines: seq<seq<Option<Value>>>)
    ensures |lines| == |rows|
    decreases |rows|
  {
    if rows == [] then []
    else
      var n := |rows| - 1;
      View(cols, rows[..n]) + [RowValues(cols, rows[n])]
  }

  // ---------------------------------------------------------------------
  // The heading state machine

  /** The part of the grid a heading click reads and writes. */
  datatype Screen = Screen(table: Table, commands: map<string, Direction>)

  /** Every column has a heading, and every heading is a column. */
  predicate Valid(s: Screen) {
    s.commands.Keys == set c | c in s.table.columns
  }

  /** `column_sort_asc` (`dir == Ascending`) or `column_sort_desc`: sort on
      `h`, `populate`, then bind `h` to the other direction. */
  function SortClick(s: Screen, h: string, dir: Direction, le: (Value, Value) -> bool): (r: Result<Screen>)
    ensures r.Fail? <==> h !in s.table.columns
    ensures r.Ok? ==> r.value.table.columns == s.table.columns && multiset(r.value.table.rows) == multiset(s.table.rows)
  {
    match SortTable(s.table, h, dir, le)
    case Fail(e) => Fail(e)
    case Ok(t) => Ok(Screen(t, Armed(t.columns)[h := Flip(dir)]))
  }

  /** A click on heading `h` runs the command bound to it. */
  function Click(s: Screen, h: string, le: (Value, Value) -> bool): (r: Result<Screen>)
    requires h in s.commands
    ensures r.Fail? <==> h !in s.table.columns
    ensures r.Ok? ==> r.value.table.columns == s.table.columns && multiset(r.value.table.rows) == multiset(s.table.rows)
    ensures r.Ok? ==> h in r.value.commands && r.value.commands[h] == Flip(s.commands[h])
  {
    SortClick(s, h, s.commands[h], le)
  }

  /** On a valid screen a click never fails, keeps the screen valid, sorts
      the rows on `h` in the bound direction, switches `h` to the other
      direction and re-arms every other heading to ascending. */
  lemma ClickSpec(s: Screen, h: string, le: (Value, Value) -> bool)
    requires Valid(s) && h in s.commands
    ensures Click(s, h, le).Ok?
    ensures var s' := Click(s, h, le).value;
      && Valid(s')
      && s'.table == Table(s.table.columns, SortRows(s.table.rows, h, s.commands[h], le))
      && s'.commands[h] == Flip(s.commands[h])
      && forall c :: c in s'.commands && c != h ==> s'.commands[c] == Ascending
  {
  }

  /** A column never clicked, or clicked after another one, sorts
      ascending. */
  lemma OtherHeadingAscending(s: Screen, h: string, c: string, le: (Value, Value) -> bool)
    requires Valid(s) && h in s.commands && c in s.commands && c != h
    ensures Click(s, h, le).Ok?
    ensures Click(Click(s, h, le).value, c, le).Ok?
    ensures Click(Click(s, h, le).value, c, le).value.table.rows
         == SortRows(Click(s, h, le).value.table.rows, c, Ascending, le)
  {
    ClickSpec(s, h, le);
  }

  /** Clicking the same heading twice sorts it one way and then the other,
      and leaves the heading bound as it was. */
  lemma ClickTwice(s: Screen, h: string, le: (Value, Value) -> bool)
    requires Valid(s) && h in s.commands
    ensures Click(s, h, le).Ok?
    ensures var s1 := Click(s, h, le).value;
      && h in s1.commands
      && Click(s1, h, le).Ok?
      && Click(s1, h, le).value.table.rows
         == SortRows(SortRows(s.table.rows, h, s.commands[h], le), h, Flip(s.commands[h]), le)
      && Click(s1, h, le).value.commands[h] == s.commands[h]
  {
    ClickSpec(s, h, le);
    var s1 := Click(s, h, le).value;
    ClickSpec(s1, h, le);
  }

  /** Just after `populate` every heading sorts ascending first; the second
      click on it sorts descending. */
  lemma FreshHeadings(t: Table, h: string, le: (Value, Value) -> bool)
    requires h in t.columns
    ensures var s := Screen(t, Armed(t.columns));
      && Valid(s) && h in s.commands
      && Click(s, h, le).Ok?
      && Click(s, h, le).value.table.rows == SortRows(t.rows, h, Ascending, le)
      && Click(s, h, le).value.commands[h] == Descending
  {
    var s := Screen(t, Armed(t.columns));
    ClickSpec(s, h, le);
  }

  /** A click on a heading that is not a column raises `KeyError`. */
  lemma ClickUnknown(s: Screen, h: string, le: (Value, Value) -> bool)
    requires h in s.commands && h !in s.table.columns
    ensures Click(s, h, le) == Fail(KeyError(h))
  {
  }

  // ---------------------------------------------------------------------
  // The widget

  class ResultsGrid {
    /** How pandas compares the cells of a column. */
    const le: (Value, Value) -> bool
    /** `self.search_results`. */
    var table: Table
    /** The command bound to each heading of the grid. */
    var commands: map<string, Direction>
    /** The grid's columns and the lines it shows. */
    var headings: seq<string>
    var lines: seq<seq<Option<Value>>>

    /** A fresh grid holds an empty `pd.DataFrame()`. */
    constructor (le: (Value, Value) -> bool)
      ensures this.le == le
      ensures table == Table([], []) && commands == map[] && headings == [] && lines == []
    {
      this.le := le;
      table := Table([], []);
      commands := map[];
      headings := [];
      lines := [];
    }

    function State(): Screen
      reads this
    {
      Screen(table, commands)
    }

    /** `populate` (main.py:282-291): show the table and bind every heading
        to `column_sort_asc`. */
    method Populate()
      modifies this
      ensures table == old(table)
      ensures headings == table.columns && commands == Armed(table.columns)
      ensures lines == View(table.columns, table.rows)
    {
      var cols := table.columns;
      headings := cols;
      var bound: map<string, Direction> := map[];
      var i := 0;
      while i < |cols|
        invariant 0 <= i <= |cols|
        invariant bound == Armed(cols[..i])
      {
        assert cols[..i + 1] == cols[..i] + [cols[i]];
        bound := bound[cols[i] := Ascending];
        i := i + 1;
      }
      assert cols[..i] == cols;
      commands := bound;
      var shown: seq<seq<Option<Value>>> := [];
      var j := 0;
      while j < |table.rows|
        invariant 0 <= j <= |table.rows| && table.columns == cols
        invariant shown == View(cols, table.rows[..j])
      {
        assert table.rows[..j + 1][..j] == table.rows[..j];
        shown := shown + [RowValues(cols, table.rows[j])];
        j := j + 1;
      }
      assert table.rows[..j] == table.rows;
      lines := shown;
    }

    /** `column_sort_asc` (`dir == Ascending`, main.py:293-299) and
        `column_sort_desc` (main.py:301-306). */
    method ColumnSort(h: string, dir: Direction) returns (err: Option<Error>)
      modifies this
      ensures var r := SortClick(old(State()), h, dir, le);
        && (r.Fail? ==> err == Some(r.error) && table == old(table) && commands == old(commands))
        && (r.Ok? ==> err == None && State() == r.value)
      ensures err == None ==> headings == table.columns && lines == View(table.columns, table.rows)
      ensures err != None ==> headings == old(headings) && lines == old(lines)
    {
      var r := SortTable(table, h, dir, le);
      if r.Fail? {
        return Some(r.error);
      }
      table := r.value;
      Populate();
      commands := commands[h := Flip(dir)];
      err := None;
    }

    /** A click on heading `h` runs the command bound to it. */
    method ClickHeading(h: string) returns (err: Option<Error>)
      requires h in commands
      modifies this
      ensures var r := Click(old(State()), h, le);
        && (r.Fail? ==> err == Some(r.error) && table == old(table) && commands == old(commands))
        && (r.Ok? ==> err == None && State() == r.value)
      ensures err == None ==> headings == table.columns && lines == View(table.columns, table.rows)
      ensures err != None ==> headings == old(headings) && lines == old(lines)
    {
      err := ColumnSort(h, commands[h]);
    }
  }
}
