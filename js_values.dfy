/** The JavaScript values the payment handler reads from a parsed JSON request
    body and passes to the payment processor: optional strings, thrown errors,
    and plain objects whose keys keep their insertion order. */
module JsValues {

  datatype Option<+T> = None | Some(value: T)

  /** A request field that is either missing (`undefined`) or a string. */
  datatype Value = Undefined | Str(s: string)

  /** JavaScript truthiness of a Value: `undefined` and `""` are falsy. */
  predicate Truthy(v: Value) {
    v.Str? && v.s != ""
  }

  /** A thrown JavaScript error: its `message` and its optional `type` property. */
  datatype JsError = JsError(message: string, errType: Value)

  /** The outcome of a step that either yields a value or throws. */
  datatype Result<+T> = Ok(value: T) | Err(error: JsError)

  /** One own property of a plain object. */
  datatype Entry = Entry(key: string, value: Value)

  /** No key occurs twice. */
  predicate UniqueKeys(o: seq<Entry>) {
    forall i, j :: 0 <= i < j < |o| ==> o[i].key != o[j].key
  }

  /** A plain object: its properties in insertion order, each key once. */
  type Object = o: seq<Entry> | UniqueKeys(o) witness []

  function Keys(o: seq<Entry>): set<string> {
    set i | 0 <= i < |o| :: o[i].key
  }

  /** Property access `o[k]`: the value of the first entry with key `k`. */
  function Lookup(o: seq<Entry>, k: string): (r: Option<Value>)
    ensures r.Some? <==> k in Keys(o)
    ensures r.Some? ==> exists i :: 0 <= i < |o| && o[i] == Entry(k, r.value)
  {
    if o == [] then None
    else if o[0].key == k then Some(o[0].value)
    else
      KeysOfCons(o);
      var r := Lookup(o[1..], k);
      assert r.Some? ==> exists i :: 0 <= i < |o| && o[i] == Entry(k, r.value) by {
        if r.Some? {
          var i :| 0 <= i < |o[1..]| && o[1..][i] == Entry(k, r.value);
          assert o[i + 1] == Entry(k, r.value);
        }
      }
      r
  }

  /** The keys of a non-empty object are its first key and the keys of the rest. */
  lemma KeysOfCons(o: seq<Entry>)
    requires o != []
    ensures Keys(o) == {o[0].key} + Keys(o[1..])
  {
  }

  /** Property assignment `o[k] = v`: an existing key keeps its position and
      takes the new value; a new key is appended at the end. */
  function Put(o: Object, k: string, v: Value): (r: Object)
    ensures Keys(r) == Keys(o) + {k}
  {
    if o == [] then
      var r := [Entry(k, v)];
      KeysOfCons(r);
      assert r[1..] == [];
      r
    else if o[0].key == k then
      KeysOfCons(o);
      var r := [Entry(k, v)] + o[1..];
      assert r[1..] == o[1..];
      KeysOfCons(r);
      r
    else
      KeysOfCons(o);
      var tail := Put(o[1..], k, v);
      assert o[0].key !in Keys(tail);
      var r := [o[0]] + tail;
      assert UniqueKeys(r) by {
        forall i, j | 0 <= i < j < |r| ensures r[i].key != r[j].key {
          if i == 0 { assert r[j].key == tail[j - 1].key; }
        }
      }
      assert r[1..] == tail;
      KeysOfCons(r);
      r
  }

  /** After `o[k] = v`, reading `k` gives `v` and every other key reads as before. */
  lemma {:induction false} PutLookup(o: Object, k: string, v: Value, k': string)
    ensures Lookup(Put(o, k, v), k') == if k' == k then Some(v) else Lookup(o, k')
  {
    if o != [] && o[0].key != k {
      PutLookup(o[1..], k, v, k');
      assert Put(o, k, v)[1..] == Put(o[1..], k, v);
    }
  }

  /** Assignment never moves a property: the old keys keep their positions, and
      the object grows by one entry exactly when the key is new, at the end. */
  lemma {:induction false} PutKeepsOrder(o: Object, k: string, v: Value)
    ensures |Put(o, k, v)| == if k in Keys(o) then |o| else |o| + 1
    ensures forall i :: 0 <= i < |o| ==> Put(o, k, v)[i].key == o[i].key
    ensures k !in Keys(o) ==> Put(o, k, v) == o + [Entry(k, v)]
  {
    if o != [] {
      KeysOfCons(o);
      if o[0].key != k {
        PutKeepsOrder(o[1..], k, v);
        assert Put(o, k, v) == [o[0]] + Put(o[1..], k, v);
      }
    }
  }

  /** Object spread `{...target, ...source}`: the properties of `source` are
      assigned, in their order, onto a copy of `target`. */
  function Spread(target: Object, source: Object): (r: Object)
    ensures Keys(r) == Keys(target) + Keys(source)
    decreases |source|
  {
    if source == [] then target
    else
      KeysOfCons(source);
      Spread(Put(target, source[0].key, source[0].value), source[1..])
  }

  /** In `{...target, ...source}` a key of `source` reads as in `source` (the
      later spread wins); any other key reads as in `target`. */
  lemma {:induction false} SpreadLookup(target: Object, source: Object, k: string)
    ensures Lookup(Spread(target, source), k) == if k in Keys(source) then Lookup(source, k) else Lookup(target, k)
    decreases |source|
  {
    if source != [] {
      KeysOfCons(source);
      var step := Put(target, source[0].key, source[0].value);
      var rest: Object := source[1..];
      SpreadLookup(step, rest, k);
      PutLookup(target, source[0].key, source[0].value, k);
      if k == source[0].key {
        assert k !in Keys(rest);
      }
    }
  }

  /** Spreading onto `target` keeps `target`'s keys first, in their order. */
  lemma {:induction false} SpreadKeepsOrder(target: Object, source: Object)
    ensures |target| <= |Spread(target, source)|
    ensures forall i :: 0 <= i < |target| ==> Spread(target, source)[i].key == target[i].key
    decreases |source|
  {
    if source != [] {
      KeysOfCons(source);
      var step := Put(target, source[0].key, source[0].value);
      PutKeepsOrder(target, source[0].key, source[0].value);
      SpreadKeepsOrder(step, source[1..]);
    }
  }
}
