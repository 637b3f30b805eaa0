/** The `_search` request body (main.py:18-28), built as the dict that
    `json.dumps` serialises, with its keys in insertion order. */
module Request {
  import opened Text
  import opened Json

  /** The fixed number of hits asked for (main.py:26). */
  const PAGE_SIZE := 100

  /** `request_builder(search_term, fields)`: `_source` is the list of
      comma-separated pieces of `fields`, `size` is 100 and the query is a
      `multi_match` on the search term. */
  function RequestBuilder(searchTerm: string, fields: string): (body: Value)
    ensures body.Obj? && Keys(body.members) == ["_source", "size", "query"]
    ensures Lookup(body.members, "size") == Some(Num(PAGE_SIZE))
    ensures Lookup(body.members, "_source") == Some(Arr(StrValues(Split(fields, ','))))
  {
    var ms := [
      Member("_source", Arr(StrValues(Split(fields, ',')))),
      Member("size", Num(PAGE_SIZE)),
      Member("query", Obj([Member("multi_match", Obj([Member("query", Str(searchTerm))]))]))
    ];
    KeysAt(ms);
    assert Keys(ms) == ["_source", "size", "query"];
    LookupAt(ms, 0);
    LookupAt(ms, 1);
    Obj(ms)
  }

  // ---------------------------------------------------------------------
  // Reading a body back: what the search engine takes from it

  /** The strings of a list whose items are all strings. */
  function Strings(items: seq<Value>): (r: Option<seq<string>>)
    decreases |items|
  {
    if items == [] then Some([])
    else
      match (items[0], Strings(items[1..]))
      case (Str(s), Some(rest)) => Some([s] + rest)
      case _ => None
  }

  /** `body['_source']` as a list of field names. */
  function SourceFields(body: Value): Option<seq<string>> {
    match body
    case Obj(ms) =>
      (match Lookup(ms, "_source")
       case Some(Arr(items)) => Strings(items)
       case _ => None)
    case _ => None
  }

  /** `body['size']`. */
  function Size(body: Value): Option<int> {
    match body
    case Obj(ms) => (match Lookup(ms, "size") case Some(Num(n)) => Some(n) case _ => None)
    case _ => None
  }

  /** `body['query']['multi_match']['query']`. */
  function QueryText(body: Value): Option<string> {
    match body
    case Obj(ms) =>
      (match Lookup(ms, "query")
       case Some(Obj(q)) =>
         (match Lookup(q, "multi_match")
          case Some(Obj(mm)) => (match Lookup(mm, "query") case Some(Str(t)) => Some(t) case _ => None)
          case _ => None)
       case _ => None)
    case _ => None
  }

  lemma {:induction false} StringsOfStrValues(ss: seq<string>)
    ensures Strings(StrValues(ss)) == Some(ss)
    decreases |ss|
  {
    if ss != [] {
      StringsOfStrValues(ss[1..]);
      assert StrValues(ss)[1..] == StrValues(ss[1..]);
      assert ss == [ss[0]] + ss[1..];
    }
  }

  /** Every body has exactly the keys `_source`, `size`, `query`, in that
      order; its size is 100, its query text is the search term, and its
      source list is `fields.split(',')`. */
  lemma BodyShape(searchTerm: string, fields: string)
    ensures var body := RequestBuilder(searchTerm, fields);
      && body.Obj? && Keys(body.members) == ["_source", "size", "query"]
      && Size(body) == Some(100)
      && QueryText(body) == Some(searchTerm)
      && SourceFields(body) == Some(Split(fields, ','))
  {
    var body := RequestBuilder(searchTerm, fields);
    KeysAt(body.members);
    assert Keys(body.members) == ["_source", "size", "query"];
    LookupAt(body.members, 0);
    LookupAt(body.members, 1);
    LookupAt(body.members, 2);
    var q := body.members[2].val.members;
    LookupAt(q, 0);
    LookupAt(q[0].val.members, 0);
    StringsOfStrValues(Split(fields, ','));
  }

  /** The field selector `",".join(names)` reaches the engine as the names
      themselves when there is at least one and none contains a comma. */
  lemma SourceRoundTrip(searchTerm: string, names: seq<string>)
    requires |names| >= 1
    requires forall i :: 0 <= i < |names| ==> ',' !in names[i]
    ensures SourceFields(RequestBuilder(searchTerm, Join(names, ','))) == Some(names)
  {
    BodyShape(searchTerm, Join(names, ','));
    SplitJoin(names, ',');
  }

  /** The wildcard selector gives `["*"]`, and the empty selector (nothing
      ticked) gives `[""]`, not an empty list. */
  lemma SentinelSources(searchTerm: string)
    ensures SourceFields(RequestBuilder(searchTerm, "*")) == Some(["*"])
    ensures SourceFields(RequestBuilder(searchTerm, "")) == Some([""])
  {
    BodyShape(searchTerm, "*");
    BodyShape(searchTerm, "");
    SplitNoSep("*", ',');
  }
}
