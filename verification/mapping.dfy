/** Field discovery: the flattening loop of `index_field_names`
    (main.py:44-55), which turns a `GET /<index>/_mapping` response into the
    list of field names offered for selection.  It unrolls exactly one level
    of nesting. */
module Mapping {
  import opened Text
  import opened Json

  /** `[f + '.' + k for k in ks]`, in order. */
  function Dotted(f: string, ks: seq<string>): (r: seq<string>)
    ensures |r| == |ks|
    ensures forall i :: 0 <= i < |ks| ==> r[i] == Dot(f, ks[i])
    decreases |ks|
  {
    if ks == [] then [] else Dotted(f, ks[..|ks| - 1]) + [Dot(f, ks[|ks| - 1])]
  }

  /** What one entry `f` of `mappings.properties` appends (main.py:50-54):
      `f` itself when its definition has no `properties` key, otherwise
      `f.sf` for every key `sf` of that `properties` dict.  A definition
      that is not a dict, or a `properties` that is not a dict, raises
      AttributeError. */
  function FieldContribution(m: Member): (r: Result<seq<string>>)
    ensures r.Fail? <==> !m.val.Obj? || (Lookup(m.val.members, "properties").Some? && !Lookup(m.val.members, "properties").value.Obj?)
    ensures r.Fail? ==> r.error == AttributeError
    ensures r.Ok? && m.val.Obj? && Lookup(m.val.members, "properties") == None ==> r.value == [m.key]
  {
    match m.val
    case Obj(def) =>
      (match Lookup(def, "properties")
       case None => Ok([m.key])
       case Some(Obj(sub)) => Ok(Dotted(m.key, Keys(sub)))
       case Some(_) => Fail(AttributeError))
    case _ => Fail(AttributeError)
  }

  /** The contributions of the entries of `mappings.properties`, in order;
      the first failure stops the loop. */
  function MembersFields(ms: seq<Member>): Result<seq<string>> {
    Collect(ms, FieldContribution)
  }

  /** `for f in mappings` over whatever `properties` holds: a dict iterates
      its entries; an empty list or string iterates nothing; a non-empty one
      reaches `mappings.get`, which it lacks; anything else (including the
      `None` of a missing key) is not iterable. */
  function PropertiesFields(props: Value): Result<seq<string>> {
    match props
    case Obj(ms) => MembersFields(ms)
    case Arr(items) => if items == [] then Ok([]) else Fail(AttributeError)
    case Str(s) => if s == "" then Ok([]) else Fail(AttributeError)
    case _ => Fail(TypeError)
  }

  /** One index's fields: `entry.get('mappings').get('properties')`
      (main.py:46), then its entries. */
  function IndexFields(entry: Value): Result<seq<string>> {
    var mappings :- Get(entry, "mappings");
    var props :- Get(mappings, "properties");
    PropertiesFields(props)
  }

  /** The fields of the index whose entry is `e`. */
  function EntryFields(e: Member): Result<seq<string>> {
    IndexFields(e.val)
  }

  /** The fields of every index, in response order. */
  function IndicesFields(entries: seq<Member>): Result<seq<string>> {
    Collect(entries, EntryFields)
  }

  /** The list `index_field_names` returns for a parsed response; a
      response that is not a dict has no `keys()`. */
  function FieldNames(response: Value): (r: Result<seq<string>>)
    ensures !response.Obj? ==> r == Fail(AttributeError)
    ensures response.Obj? ==>
      (r.Fail? <==> exists i :: 0 <= i < |response.members| && IndexFields(response.members[i].val).Fail?)
  {
    match response
    case Obj(entries) => IndicesFailIff(entries); IndicesFields(entries)
    case _ => Fail(AttributeError)
  }

  // ---------------------------------------------------------------------
  // The loop itself

  /** The innermost loop (main.py:51-52): `f.sf` for each child `sf`. */
  method AppendChildren(f: string, sfs: seq<string>, fieldlist: seq<string>) returns (out: seq<string>)
    ensures out == fieldlist + Dotted(f, sfs)
  {
    out := fieldlist;
    var k := 0;
    while k < |sfs|
      invariant 0 <= k <= |sfs|
      invariant out == fieldlist + Dotted(f, sfs[..k])
    {
      assert sfs[..k + 1][..k] == sfs[..k];
      out := out + [Dot(f, sfs[k])];
      k := k + 1;
    }
    assert sfs[..k] == sfs;
  }

  /** The body of the loop over `properties` for one entry `f`
      (main.py:50-54). */
  method AppendField(m: Member, fieldlist: seq<string>) returns (r: Result<seq<string>>)
    ensures FieldContribution(m).Ok? ==> r == Ok(fieldlist + FieldContribution(m).value)
    ensures FieldContribution(m).Fail? ==> r == FieldContribution(m)
  {
    if !m.val.Obj? {
      return Fail(AttributeError);
    }
    var sub := Lookup(m.val.members, "properties");
    if sub.Some? {
      if !sub.value.Obj? {
        return Fail(AttributeError);
      }
      var out := AppendChildren(m.key, Keys(sub.value.members), fieldlist);
      return Ok(out);
    } else {
      return Ok(fieldlist + [m.key]);
    }
  }

  /** The loop over one index's `properties` dict (main.py:49-54),
      appending to `fieldlist`. */
  method AppendProperties(ms: seq<Member>, fieldlist: seq<string>) returns (r: Result<seq<string>>)
    ensures MembersFields(ms).Ok? ==> r == Ok(fieldlist + MembersFields(ms).value)
    ensures MembersFields(ms).Fail? ==> r == MembersFields(ms)
  {
    var out := fieldlist;
    ghost var done: seq<string> := [];
    var j := 0;
    while j < |ms|
      invariant 0 <= j <= |ms|
      invariant MembersFields(ms[..j]) == Ok(done)
      invariant out == fieldlist + done
    {
      var next := AppendField(ms[j], out);
      if next.Fail? {
        CollectFailure(ms, FieldContribution, j, next.error);
        return next;
      }
      var c := FieldContribution(ms[j]).value;
      CollectStep(ms, FieldContribution, j, c);
      assert next.value == fieldlist + (done + c);
      out := next.value;
      done := done + c;
      j := j + 1;
    }
    assert ms[..j] == ms;
    return Ok(out);
  }

  /** The body of the loop over the indices for one index entry
      (main.py:46-54). */
  method AppendIndex(entry: Value, fieldlist: seq<string>) returns (r: Result<seq<string>>)
    ensures IndexFields(entry).Ok? ==> r == Ok(fieldlist + IndexFields(entry).value)
    ensures IndexFields(entry).Fail? ==> r == IndexFields(entry)
  {
    var mappingsDict := Get(entry, "mappings");
    if mappingsDict.Fail? {
      return Fail(mappingsDict.error);
    }
    var propsValue := Get(mappingsDict.value, "properties");
    if propsValue.Fail? {
      return Fail(propsValue.error);
    }
    var mappings := propsValue.value;
    assert IndexFields(entry) == PropertiesFields(mappings);
    match mappings {
      case Obj(ms) =>
        r := AppendProperties(ms, fieldlist);
      case Arr(items) =>
        if items != [] {
          return Fail(AttributeError);
        }
        assert fieldlist + [] == fieldlist;
        return Ok(fieldlist);
      case Str(chars) =>
        if chars != "" {
          return Fail(AttributeError);
        }
        assert fieldlist + [] == fieldlist;
        return Ok(fieldlist);
      case _ =>
        return Fail(TypeError);
    }
  }

  /** `index_field_names` after the HTTP exchange (main.py:44-55): the
      nested loops append to `fieldlist` and return it, or raise. */
  method IndexFieldNames(response: Value) returns (r: Result<seq<string>>)
    ensures r == FieldNames(response)
  {
    if !response.Obj? {
      return Fail(AttributeError);
    }
    var indices := response.members;
    var fieldlist: seq<string> := [];
    var i := 0;
    while i < |indices|
      invariant 0 <= i <= |indices|
      invariant IndicesFields(indices[..i]) == Ok(fieldlist)
    {
      var next := AppendIndex(indices[i].val, fieldlist);
      if next.Fail? {
        CollectFailure(indices, EntryFields, i, next.error);
        return next;
      }
      CollectStep(indices, EntryFields, i, IndexFields(indices[i].val).value);
      fieldlist := next.value;
      i := i + 1;
    }
    assert indices[..i] == indices;
    return Ok(fieldlist);
  }

  // ---------------------------------------------------------------------
  // Properties of the flattening

  /** A leaf entry (a dict without `properties`) is emitted as its own
      name; a group entry is never emitted itself but yields `f.sf` for each
      key `sf` of its `properties`, in order, whatever those children hold
      (grandchildren are never visited). */
  lemma ContributionShape(m: Member)
    requires FieldContribution(m).Ok?
    ensures m.val.Obj?
    ensures "properties" !in Keys(m.val.members) ==> FieldContribution(m).value == [m.key]
    ensures "properties" in Keys(m.val.members) ==>
      var props := Lookup(m.val.members, "properties").value;
      && props.Obj?
      && FieldContribution(m).value == Dotted(m.key, Keys(props.members))
      && m.key !in FieldContribution(m).value
  {
    var c := FieldContribution(m).value;
    if "properties" in Keys(m.val.members) {
      forall i | 0 <= i < |c| ensures c[i] != m.key {
        assert |c[i]| > |m.key|;
      }
    }
  }

  /** The number of names one entry contributes. */
  function Width(m: Member): nat {
    match m.val
    case Obj(def) =>
      (match Lookup(def, "properties") case Some(Obj(sub)) => |sub| case _ => 1)
    case _ => 1
  }

  function TotalWidth(ms: seq<Member>): nat
    decreases |ms|
  {
    if ms == [] then 0 else TotalWidth(ms[..|ms| - 1]) + Width(ms[|ms| - 1])
  }

  /** One index's list is exactly as long as the sum of its entries'
      contributions. */
  lemma {:induction false} FieldCount(ms: seq<Member>)
    requires MembersFields(ms).Ok?
    ensures |MembersFields(ms).value| == TotalWidth(ms)
    decreases |ms|
  {
    if ms != [] {
      var n := |ms| - 1;
      FieldCount(ms[..n]);
      var m := ms[n];
      assert m.val.Obj?;
      match Lookup(m.val.members, "properties")
      case Some(Obj(sub)) =>
        assert |Keys(sub)| == |sub|;
      case _ =>
    }
  }

  /** The call fails exactly when some index entry fails. */
  lemma IndicesFailIff(entries: seq<Member>)
    ensures IndicesFields(entries).Fail? <==>
      exists i :: 0 <= i < |entries| && IndexFields(entries[i].val).Fail?
  {
    CollectFailIff(entries, EntryFields);
    if IndicesFields(entries).Fail? {
      var i :| 0 <= i < |entries| && EntryFields(entries[i]).Fail?;
      assert IndexFields(entries[i].val).Fail?;
    }
  }

  /** An index entry with no `mappings`, or whose `mappings` has no
      `properties`, makes the whole call fail. */
  predicate LacksProperties(entry: Value) {
    match entry
    case Obj(ms) =>
      (match Lookup(ms, "mappings")
       case None => true
       case Some(Obj(mm)) => "properties" !in Keys(mm)
       case Some(_) => false)
    case _ => false
  }

  lemma MissingPropertiesFails(entries: seq<Member>, i: nat)
    requires i < |entries| && LacksProperties(entries[i].val)
    ensures FieldNames(Obj(entries)).Fail?
  {
    assert IndexFields(entries[i].val).Fail?;
  }

  /** The list for a response is the concatenation, in response order, of
      the lists of its parts; nothing is removed, duplicates included. */
  lemma IndicesAppend(a: seq<Member>, b: seq<Member>)
    requires FieldNames(Obj(a)).Ok? && FieldNames(Obj(b)).Ok?
    ensures FieldNames(Obj(a + b)) == Ok(FieldNames(Obj(a)).value + FieldNames(Obj(b)).value)
  {
    CollectAppend(a, b, EntryFields);
  }

  /** A response with a single index lists that index's fields. */
  lemma IndicesSingle(e: Member)
    ensures FieldNames(Obj([e])) == IndexFields(e.val)
  {
    CollectSingle(e, EntryFields);
  }

  /** The group `user` with children `name` and `age` lists
      `user.name`, `user.age`. */
  lemma UserContribution()
    ensures FieldContribution(Member("user", Obj([Member("properties",
      Obj([Member("name", Obj([])), Member("age", Obj([]))]))]))) == Ok(["user.name", "user.age"])
  {
    var children := [Member("name", Obj([])), Member("age", Obj([]))];
    KeysAt(children);
    assert Keys(children) == ["name", "age"];
    var d := Dotted("user", ["name", "age"]);
    assert d[0] == "user.name" && d[1] == "user.age";
    assert d == ["user.name", "user.age"];
  }

  /** The schema `{"idx": {"mappings": {"properties": {"user": {"properties":
      {"name": {}, "age": {}}}, "ts": {}}}}}` lists `user.name`, `user.age`,
      `ts`, in mapping order. */
  lemma SchemaExample()
    ensures FieldNames(Obj([Member("idx", Obj([Member("mappings", Obj([Member("properties", Obj([
      Member("user", Obj([Member("properties", Obj([Member("name", Obj([])), Member("age", Obj([]))]))])),
      Member("ts", Obj([]))]))]))]))])) == Ok(["user.name", "user.age", "ts"])
  {
    var user := Member("user", Obj([Member("properties", Obj([Member("name", Obj([])), Member("age", Obj([]))]))]));
    var ts := Member("ts", Obj([]));
    var props := [user, ts];
    UserContribution();
    assert FieldContribution(ts) == Ok(["ts"]) by {
      assert Lookup([], "properties") == None;
    }
    assert MembersFields(props) == Ok(["user.name", "user.age", "ts"]) by {
      CollectSingle(user, FieldContribution);
      CollectSnoc([user], ts, FieldContribution);
      assert [user] + [ts] == props;
      assert ["user.name", "user.age"] + ["ts"] == ["user.name", "user.age", "ts"];
    }
    var entry := Obj([Member("mappings", Obj([Member("properties", Obj(props))]))]);
    assert IndexFields(entry) == Ok(["user.name", "user.age", "ts"]);
    IndicesSingle(Member("idx", entry));
  }

  /** Only one level is unrolled: a grandchild group `a.b.c` is listed as
      `a.b`. */
  lemma DepthExample()
    ensures FieldContribution(Member("a", Obj([Member("properties", Obj([
      Member("b", Obj([Member("properties", Obj([Member("c", Obj([]))]))]))]))]))) == Ok(["a.b"])
  {
    var children := [Member("b", Obj([Member("properties", Obj([Member("c", Obj([]))]))]))];
    KeysAt(children);
    assert Keys(children) == ["b"];
    var d := Dotted("a", ["b"]);
    assert d[0] == "a.b";
    assert d == ["a.b"];
  }

  /** Two indices with the same field list it twice. */
  lemma DuplicatesExample()
    ensures var idx := Obj([Member("mappings", Obj([Member("properties", Obj([Member("a", Obj([]))]))]))]);
      FieldNames(Obj([Member("i1", idx), Member("i2", idx)])) == Ok(["a", "a"])
  {
    var idx := Obj([Member("mappings", Obj([Member("properties", Obj([Member("a", Obj([]))]))]))]);
    var a := Member("a", Obj([]));
    assert Lookup([], "properties") == None;
    assert FieldContribution(a) == Ok(["a"]);
    CollectSingle(a, FieldContribution);
    assert IndexFields(idx) == Ok(["a"]);
    IndicesSingle(Member("i1", idx));
    IndicesSingle(Member("i2", idx));
    IndicesAppend([Member("i1", idx)], [Member("i2", idx)]);
    assert [Member("i1", idx)] + [Member("i2", idx)] == [Member("i1", idx), Member("i2", idx)];
    assert ["a"] + ["a"] == ["a", "a"];
  }
}
