/** The dynamically typed values that flow through the core: the JSON a
    gateway answers with on the JavaScript side, and the `Dict[str, Any]`
    values of the Python side. An object/dict is an insertion-ordered list
    of entries, as Python dictionaries and JavaScript objects iterate.
    Numbers are integers (no floating point). */
module Json {
  import opened Wrappers
  import opened Seqs

  datatype Value =
    | Null
    | Bool(b: bool)
    | Num(n: int)
    | Str(s: string)
    | List(items: seq<Value>)
    | Dict(entries: seq<Entry>)

  datatype Entry = Entry(key: string, val: Value)

  /** A size measure that lets recursion descend into nested dicts. */
  function EntriesSize(es: seq<Entry>): nat
    decreases es
  {
    if es == [] then 0 else 1 + ValueSize(es[0].val) + EntriesSize(es[1..])
  }

  function ValueSize(v: Value): nat
    decreases v
  {
    match v
    case Dict(es) => 1 + EntriesSize(es)
    case _ => 1
  }

  lemma EntrySmaller(es: seq<Entry>, i: nat)
    requires i < |es|
    ensures ValueSize(es[i].val) < EntriesSize(es)
    decreases i
  {
    if i > 0 {
      EntrySmaller(es[1..], i - 1);
    }
  }

  /** The keys in iteration order. */
  function Keys(es: seq<Entry>): (ks: seq<string>)
    ensures |ks| == |es|
    ensures forall i :: 0 <= i < |es| ==> ks[i] == es[i].key
    decreases |es|
  {
    if es == [] then [] else [es[0].key] + Keys(es[1..])
  }

  predicate HasKey(es: seq<Entry>, k: string) {
    k in Keys(es)
  }

  /** No key occurs twice, as in every Python dict. */
  predicate DistinctKeys(es: seq<Entry>) {
    Distinct(Keys(es))
  }

  /** `d[k]` / `d.get(k)`: the value stored under `k`, if any. */
  function Lookup(es: seq<Entry>, k: string): (r: Option<Value>)
    ensures r.Some? <==> HasKey(es, k)
    decreases |es|
  {
    if es == [] then None
    else if es[0].key == k then Some(es[0].val)
    else Lookup(es[1..], k)
  }

  /** `d[k] = v`: an existing key keeps its position, a new key goes last. */
  function Put(es: seq<Entry>, k: string, v: Value): seq<Entry>
    decreases |es|
  {
    if es == [] then [Entry(k, v)]
    else if es[0].key == k then [Entry(k, v)] + es[1..]
    else [es[0]] + Put(es[1..], k, v)
  }

  /** After `d[k] = v`, `d[k]` is `v`. */
  lemma {:induction false} PutLookupSame(es: seq<Entry>, k: string, v: Value)
    ensures Lookup(Put(es, k, v), k) == Some(v)
    decreases |es|
  {
    if es != [] && es[0].key != k {
      PutLookupSame(es[1..], k, v);
      assert Put(es, k, v)[1..] == Put(es[1..], k, v);
    }
  }

  /** `d[k] = v` leaves every other key's value alone. */
  lemma {:induction false} PutLookupOther(es: seq<Entry>, k: string, v: Value, other: string)
    requires other != k
    ensures Lookup(Put(es, k, v), other) == Lookup(es, other)
    decreases |es|
  {
    if es != [] {
      if es[0].key == k {
        assert Put(es, k, v)[1..] == es[1..];
      } else if es[0].key != other {
        PutLookupOther(es[1..], k, v, other);
        assert Put(es, k, v)[1..] == Put(es[1..], k, v);
      }
    }
  }

  /** `d[k] = v` keeps the key order and appends a new key at the end. */
  lemma {:induction false} PutKeys(es: seq<Entry>, k: string, v: Value)
    ensures Keys(Put(es, k, v)) == if HasKey(es, k) then Keys(es) else Keys(es) + [k]
    decreases |es|
  {
    if es != [] && es[0].key != k {
      var rest := Put(es[1..], k, v);
      PutKeys(es[1..], k, v);
      assert Put(es, k, v) == [es[0]] + rest;
      assert ([es[0]] + rest)[1..] == rest;
      assert HasKey(es, k) <==> HasKey(es[1..], k);
    }
  }

  /** The entries before `n` of a dict have distinct keys too. */
  lemma DistinctKeysPrefix(es: seq<Entry>, n: nat)
    requires DistinctKeys(es) && n <= |es|
    ensures DistinctKeys(es[..n])
  {
    forall a, b | 0 <= a < b < n ensures Keys(es[..n])[a] != Keys(es[..n])[b] {
      assert Keys(es[..n])[a] == Keys(es)[a] && Keys(es[..n])[b] == Keys(es)[b];
    }
  }

  /** The entries after the first of a dict have distinct keys too. */
  lemma DistinctKeysTail(es: seq<Entry>)
    requires DistinctKeys(es) && es != []
    ensures DistinctKeys(es[1..])
  {
    forall a, b | 0 <= a < b < |es| - 1 ensures Keys(es[1..])[a] != Keys(es[1..])[b] {
      assert Keys(es[1..])[a] == Keys(es)[a + 1] && Keys(es[1..])[b] == Keys(es)[b + 1];
    }
  }

  lemma PutKeepsDistinct(es: seq<Entry>, k: string, v: Value)
    requires DistinctKeys(es)
    ensures DistinctKeys(Put(es, k, v))
  {
    PutKeys(es, k, v);
  }

  /** The Python exceptions the modelled backend code can raise. */
  datatype PyError = NameError(name: string) | KeyError(key: string) | AttributeError(attribute: string)

  /** JavaScript truthiness of a JSON value (`v || fallback`). A JSON text
      never yields NaN, so the only falsy number is zero. */
  predicate Truthy(v: Value) {
    match v
    case Null => false
    case Bool(b) => b
    case Num(n) => n != 0
    case Str(s) => s != ""
    case _ => true
  }

  /** JavaScript `v.prop` on a parsed JSON value: `Err` is the TypeError
      of reading a property of `null`; a missing property is `undefined`,
      modelled as `Ok(None)`. Strings, numbers, booleans and arrays have no
      property a JSON object key could name here. */
  function GetProp(v: Value, name: string): (r: Result<Option<Value>, string>)
    ensures r.Err? <==> v.Null?
    ensures r.Ok? && r.value.Some? ==> v.Dict? && Lookup(v.entries, name) == r.value
  {
    match v
    case Null => Err("TypeError")
    case Dict(es) => Ok(Lookup(es, name))
    case _ => Ok(None)
  }

  /** `a || b` where `a` may be `undefined` (`None`). */
  function OrElse(a: Option<Value>, fallback: Value): (r: Value)
    ensures a.Some? && Truthy(a.value) ==> r == a.value
    ensures !(a.Some? && Truthy(a.value)) ==> r == fallback
  {
    if a.Some? && Truthy(a.value) then a.value else fallback
  }
}
