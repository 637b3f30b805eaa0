/** Parsed JSON as the Python code holds it after `json.loads`: objects are
    dicts, which remember insertion order and hold each key once; JSON
    `null` and Python's `None` (what `dict.get` gives for a missing key) are
    the same value.  The failures the code's dict and list accesses can
    raise are kept as values. */
module Json {
  import opened Text

  datatype Option<+T> = None | Some(value: T)

  datatype Value =
    | Null
    | Bool(b: bool)
    | Num(n: int)
    | Str(s: string)
    | Arr(items: seq<Value>)
    | Obj(members: seq<Member>)

  /** One key/value pair of an object, in the object's iteration order. */
  datatype Member = Member(key: string, val: Value)

  /** The Python exceptions a response of the wrong shape raises. */
  datatype Error = KeyError(key: string) | AttributeError | TypeError | IndexError

  datatype Result<+T> = Ok(value: T) | Fail(error: Error) {
    predicate IsFailure() { Fail? }
    function PropagateFailure<U>(): Result<U> requires Fail? { Fail(error) }
    function Extract(): T requires Ok? { value }
  }

  // ---------------------------------------------------------------------
  // Objects as insertion-ordered key/value sequences

  /** `list(d.keys())`. */
  function Keys(ms: seq<Member>): (ks: seq<string>)
    ensures |ks| == |ms|
    decreases |ms|
  {
    if ms == [] then [] else [ms[0].key] + Keys(ms[1..])
  }

  lemma {:induction false} KeysAt(ms: seq<Member>)
    ensures forall i :: 0 <= i < |ms| ==> Keys(ms)[i] == ms[i].key
    decreases |ms|
  {
    if ms != [] {
      KeysAt(ms[1..]);
    }
  }

  /** The key of every member is among the keys. */
  lemma KeysMember(ms: seq<Member>, m: Member)
    requires m in ms
    ensures m.key in Keys(ms)
  {
    KeysAt(ms);
    var i :| 0 <= i < |ms| && ms[i] == m;
    assert Keys(ms)[i] == m.key;
  }

  lemma {:induction false} KeysAppend(a: seq<Member>, b: seq<Member>)
    ensures Keys(a + b) == Keys(a) + Keys(b)
    decreases |a|
  {
    if a == [] {
      assert a + b == b;
    } else {
      assert (a + b)[0] == a[0] && (a + b)[1..] == a[1..] + b;
      KeysAppend(a[1..], b);
    }
  }

  lemma KeysSnoc(xs: seq<Member>)
    requires xs != []
    ensures Keys(xs) == Keys(xs[..|xs| - 1]) + [xs[|xs| - 1].key]
  {
    var init, last := xs[..|xs| - 1], xs[|xs| - 1];
    assert xs == init + [last];
    KeysAppend(init, [last]);
    assert [last][1..] == [];
    assert Keys([last]) == [last.key];
  }

  lemma KeysPrefix(xs: seq<Member>, n: nat)
    requires n <= |xs|
    ensures Keys(xs[..n]) == Keys(xs)[..n]
  {
    assert xs == xs[..n] + xs[n..];
    KeysAppend(xs[..n], xs[n..]);
  }

  /** `d.get(k)` as an optional value: the value stored under `k`. */
  function Lookup(ms: seq<Member>, k: string): (r: Option<Value>)
    ensures r.Some? <==> k in Keys(ms)
    decreases |ms|
  {
    if ms == [] then None
    else if ms[0].key == k then Some(ms[0].val)
    else
      assert Keys(ms) == [ms[0].key] + Keys(ms[1..]);
      Lookup(ms[1..], k)
  }

  /** In an object whose keys are distinct, a key finds its own member. */
  lemma {:induction false} LookupAt(ms: seq<Member>, i: nat)
    requires i < |ms| && NoDup(Keys(ms))
    ensures Lookup(ms, ms[i].key) == Some(ms[i].val)
    decreases |ms|
  {
    if i > 0 {
      assert Keys(ms) == [ms[0].key] + Keys(ms[1..]);
      KeysAt(ms);
      assert ms[0].key != ms[i].key;
      assert Keys(ms[1..]) == Keys(ms)[1..];
      LookupAt(ms[1..], i - 1);
    }
  }

  /** `d[k] = v`: a new key goes to the end; an existing key keeps its
      position. */
  function Put(ms: seq<Member>, k: string, v: Value): (r: seq<Member>)
    ensures Keys(r) == if k in Keys(ms) then Keys(ms) else Keys(ms) + [k]
    decreases |ms|
  {
    if ms == [] then [Member(k, v)]
    else if ms[0].key == k then
      assert Keys(ms) == [ms[0].key] + Keys(ms[1..]);
      [Member(k, v)] + ms[1..]
    else
      var tail := Put(ms[1..], k, v);
      assert Keys(ms) == [ms[0].key] + Keys(ms[1..]);
      assert Keys([ms[0]] + tail) == [ms[0].key] + Keys(tail);
      [ms[0]] + tail
  }

  /** After `d[k] = v`, `k` holds `v` and every other key what it held. */
  lemma {:induction false} PutLookup(ms: seq<Member>, k: string, v: Value, k': string)
    ensures Lookup(Put(ms, k, v), k') == if k' == k then Some(v) else Lookup(ms, k')
    decreases |ms|
  {
    if ms != [] && ms[0].key != k {
      PutLookup(ms[1..], k, v, k');
    }
  }

  /** Assignment keeps the keys of a dict distinct. */
  lemma PutNoDup(ms: seq<Member>, k: string, v: Value)
    requires NoDup(Keys(ms))
    ensures NoDup(Keys(Put(ms, k, v)))
  {
  }

  /** The assignments `d[x.key] = x.val` for every `x` of `xs`, in order. */
  function PutAll(ms: seq<Member>, xs: seq<Member>): seq<Member>
    decreases |xs|
  {
    if xs == [] then ms
    else
      var last := xs[|xs| - 1];
      Put(PutAll(ms, xs[..|xs| - 1]), last.key, last.val)
  }

  lemma PutAllSnoc(ms: seq<Member>, xs: seq<Member>, x: Member)
    ensures PutAll(ms, xs + [x]) == Put(PutAll(ms, xs), x.key, x.val)
  {
    assert (xs + [x])[..|xs|] == xs;
  }

  /** Two runs of assignments one after the other are one run. */
  lemma {:induction false} PutAllAppend(ms: seq<Member>, xs: seq<Member>, ys: seq<Member>)
    ensures PutAll(ms, xs + ys) == PutAll(PutAll(ms, xs), ys)
    decreases |ys|
  {
    if ys == [] {
      assert xs + ys == xs;
    } else {
      var n := |ys| - 1;
      var init, y := ys[..n], ys[n];
      assert ys == init + [y];
      assert xs + ys == (xs + init) + [y];
      PutAllAppend(ms, xs, init);
      PutAllSnoc(ms, xs + init, y);
      PutAllSnoc(PutAll(ms, xs), init, y);
    }
  }

  /** Assigning a key the dict does not hold appends it. */
  lemma {:induction false} PutNew(ms: seq<Member>, k: string, v: Value)
    requires k !in Keys(ms)
    ensures Put(ms, k, v) == ms + [Member(k, v)]
    decreases |ms|
  {
    if ms != [] {
      assert Keys(ms) == [ms[0].key] + Keys(ms[1..]);
      PutNew(ms[1..], k, v);
      assert ms == [ms[0]] + ms[1..];
    }
  }

  /** Assigning distinct keys into an empty dict builds exactly those
      members, in order. */
  lemma {:induction false} PutAllFresh(xs: seq<Member>)
    requires NoDup(Keys(xs))
    ensures PutAll([], xs) == xs
    decreases |xs|
  {
    if xs != [] {
      var n := |xs| - 1;
      KeysSnoc(xs);
      KeysPrefix(xs, n);
      assert NoDup(Keys(xs[..n]));
      PutAllFresh(xs[..n]);
      KeysAt(xs);
      assert xs[n].key !in Keys(xs[..n]);
      PutNew(xs[..n], xs[n].key, xs[n].val);
      assert xs[..n] + [xs[n]] == xs;
    }
  }

  /** The value of the last member of `xs` with key `k`. */
  function LastLookup(xs: seq<Member>, k: string): (r: Option<Value>)
    ensures r.Some? <==> k in Keys(xs)
    decreases |xs|
  {
    if xs == [] then None
    else
      var last := xs[|xs| - 1];
      assert Keys(xs) == Keys(xs[..|xs| - 1]) + [last.key] by { KeysSnoc(xs); }
      if last.key == k then Some(last.val) else LastLookup(xs[..|xs| - 1], k)
  }

  /** `seen` followed by each string of `ks` that has not been seen before,
      in order of first occurrence. */
  function AddNew(seen: seq<string>, ks: seq<string>): (r: seq<string>)
    ensures forall x :: x in r <==> x in seen || x in ks
    ensures |seen| <= |r| && r[..|seen|] == seen
    ensures NoDup(seen) ==> NoDup(r)
    decreases |ks|
  {
    if ks == [] then seen
    else
      var init := AddNew(seen, ks[..|ks| - 1]);
      var k := ks[|ks| - 1];
      assert ks == ks[..|ks| - 1] + [k];
      if k in init then init else init + [k]
  }

  /** After a run of assignments the keys are the old keys followed by the
      new keys in order of their first assignment. */
  lemma {:induction false} PutAllKeys(ms: seq<Member>, xs: seq<Member>)
    ensures Keys(PutAll(ms, xs)) == AddNew(Keys(ms), Keys(xs))
    decreases |xs|
  {
    if xs != [] {
      var n := |xs| - 1;
      PutAllKeys(ms, xs[..n]);
      KeysSnoc(xs);
    }
  }

  /** After a run of assignments a key holds the value of its last
      assignment, or its old value when it was not assigned. */
  lemma {:induction false} PutAllLookup(ms: seq<Member>, xs: seq<Member>, k: string)
    ensures Lookup(PutAll(ms, xs), k) == if k in Keys(xs) then LastLookup(xs, k) else Lookup(ms, k)
    decreases |xs|
  {
    if xs != [] {
      var n := |xs| - 1;
      PutAllLookup(ms, xs[..n], k);
      PutLookup(PutAll(ms, xs[..n]), xs[n].key, xs[n].val, k);
      KeysSnoc(xs);
    }
  }

  // ---------------------------------------------------------------------
  // A loop that appends each item's contribution and stops at the first
  // exception

  /** The concatenation of `f(x)` over `xs`, in order, or the first
      failure. */
  function Collect<X, Y>(xs: seq<X>, f: X -> Result<seq<Y>>): Result<seq<Y>>
    decreases |xs|
  {
    if xs == [] then Ok([])
    else
      var init :- Collect(xs[..|xs| - 1], f);
      var last :- f(xs[|xs| - 1]);
      Ok(init + last)
  }

  /** One more successful item appends its contribution. */
  lemma CollectStep<X, Y>(xs: seq<X>, f: X -> Result<seq<Y>>, j: nat, c: seq<Y>)
    requires j < |xs| && Collect(xs[..j], f).Ok? && f(xs[j]) == Ok(c)
    ensures Collect(xs[..j + 1], f) == Ok(Collect(xs[..j], f).value + c)
  {
    assert xs[..j + 1][..j] == xs[..j];
  }

  lemma {:induction false} CollectFailExtends<X, Y>(xs: seq<X>, f: X -> Result<seq<Y>>, n: nat)
    requires n <= |xs| && Collect(xs[..n], f).Fail?
    ensures Collect(xs, f) == Collect(xs[..n], f)
    decreases |xs|
  {
    if n < |xs| {
      var k := |xs| - 1;
      assert xs[..k][..n] == xs[..n];
      CollectFailExtends(xs[..k], f, n);
    } else {
      assert xs[..n] == xs;
    }
  }

  /** A failure at item `j`, after `j` successes, is the failure of the
      whole loop. */
  lemma CollectFailure<X, Y>(xs: seq<X>, f: X -> Result<seq<Y>>, j: nat, e: Error)
    requires j < |xs| && Collect(xs[..j], f).Ok? && f(xs[j]) == Fail(e)
    ensures Collect(xs, f) == Fail(e)
  {
    assert xs[..j + 1][..j] == xs[..j];
    CollectFailExtends(xs, f, j + 1);
  }

  /** The loop fails exactly when some item fails. */
  lemma {:induction false} CollectFailIff<X, Y>(xs: seq<X>, f: X -> Result<seq<Y>>)
    ensures Collect(xs, f).Fail? <==> exists i :: 0 <= i < |xs| && f(xs[i]).Fail?
    decreases |xs|
  {
    if xs != [] {
      var n := |xs| - 1;
      CollectFailIff(xs[..n], f);
      if Collect(xs[..n], f).Fail? {
        var i :| 0 <= i < n && f(xs[..n][i]).Fail?;
        assert xs[..n][i] == xs[i];
      } else if f(xs[n]).Ok? {
        forall i | 0 <= i < |xs| ensures f(xs[i]).Ok? {
          if i < n {
            assert xs[..n][i] == xs[i];
          }
        }
      }
    }
  }

  lemma CollectSingle<X, Y>(x: X, f: X -> Result<seq<Y>>)
    ensures Collect([x], f) == f(x)
  {
    assert [x][..0] == [];
    match f(x)
    case Ok(v) => assert [] + v == v;
    case Fail(_) =>
  }

  lemma CollectSnoc<X, Y>(xs: seq<X>, x: X, f: X -> Result<seq<Y>>)
    requires Collect(xs, f).Ok? && f(x).Ok?
    ensures Collect(xs + [x], f) == Ok(Collect(xs, f).value + f(x).value)
  {
    assert (xs + [x])[..|xs|] == xs;
  }

  /** Running the loop over `a + b` gives the contributions of `a`
      followed by those of `b`. */
  lemma {:induction false} CollectAppend<X, Y>(a: seq<X>, b: seq<X>, f: X -> Result<seq<Y>>)
    requires Collect(a, f).Ok? && Collect(b, f).Ok?
    ensures Collect(a + b, f) == Ok(Collect(a, f).value + Collect(b, f).value)
    decreases |b|
  {
    var p := Collect(a, f).value;
    if b == [] {
      assert a + b == a;
      assert p + [] == p;
    } else {
      var n := |b| - 1;
      var init, x := b[..n], b[n];
      CollectAppend(a, init, f);
      var q := Collect(init, f).value;
      var r := f(x).value;
      var c := a + b;
      assert c[..|c| - 1] == a + init;
      assert c[|c| - 1] == x;
      assert Collect(c, f) == Ok((p + q) + r);
      assert Collect(b, f) == Ok(q + r);
      assert (p + q) + r == p + (q + r);
    }
  }

  // ---------------------------------------------------------------------
  // The Python operations the code applies to parsed JSON

  /** `v.get(key)`: `None` (here `Null`) for a missing key; only dicts have
      `get`. */
  function Get(v: Value, key: string): (r: Result<Value>)
    ensures r.Ok? <==> v.Obj?
    ensures v.Obj? && key !in Keys(v.members) ==> r == Ok(Null)
  {
    match v
    case Obj(ms) => (match Lookup(ms, key) case Some(x) => Ok(x) case None => Ok(Null))
    case _ => Fail(AttributeError)
  }

  /** `v.pop(key)`: a dict raises KeyError for a missing key, a list refuses
      a string index, and other values have no `pop`. */
  function Pop(v: Value, key: string): (r: Result<Value>)
    ensures r.Ok? <==> v.Obj? && key in Keys(v.members)
  {
    match v
    case Obj(ms) => (match Lookup(ms, key) case Some(x) => Ok(x) case None => Fail(KeyError(key)))
    case Arr(_) => Fail(TypeError)
    case _ => Fail(AttributeError)
  }

  /** `v.items()`: only dicts have it. */
  function Items(v: Value): (r: Result<seq<Member>>)
    ensures r.Ok? <==> v.Obj?
  {
    match v
    case Obj(ms) => Ok(ms)
    case _ => Fail(AttributeError)
  }

  function StrValues(ss: seq<string>): (r: seq<Value>)
    ensures |r| == |ss|
    ensures forall i :: 0 <= i < |ss| ==> r[i] == Str(ss[i])
    decreases |ss|
  {
    if ss == [] then [] else [Str(ss[0])] + StrValues(ss[1..])
  }

  function CharValues(s: string): (r: seq<Value>)
    ensures |r| == |s|
    ensures forall i :: 0 <= i < |s| ==> r[i] == Str([s[i]])
    decreases |s|
  {
    if s == [] then [] else [Str([s[0]])] + CharValues(s[1..])
  }

  /** `for x in v` (and `list(v)`): the items of a list, the keys of a
      dict, the one-character strings of a string; nothing else iterates. */
  function Iterate(v: Value): (r: Result<seq<Value>>)
    ensures r.Ok? <==> v.Arr? || v.Obj? || v.Str?
    ensures v.Obj? ==> r == Ok(StrValues(Keys(v.members)))
  {
    match v
    case Arr(items) => Ok(items)
    case Obj(ms) => Ok(StrValues(Keys(ms)))
    case Str(s) => Ok(CharValues(s))
    case _ => Fail(TypeError)
  }
}
