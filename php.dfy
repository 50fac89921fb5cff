/**
 * PHP values as the plugin inspects them, and the language rules it leans on:
 * the boolean cast, `empty()`, `isset()`/`??`, array reads, property reads,
 * what `foreach` visits and the integer cast. Arrays and objects keep their
 * entries in insertion order; keys are strings.
 */
module Php {
  import opened Wrappers
  import opened PhpStrings

  datatype Value =
    | Null
    | Bool(b: bool)
    | Int(i: int)
    | Str(s: string)
    | Arr(entries: seq<Entry>)
    | Obj(props: seq<Entry>)
      /** A closure; calling it yields `result`. */
    | Closure(result: Value)

  datatype Entry = Entry(key: string, val: Value)

  function KeysOf(entries: seq<Entry>): seq<string> {
    seq(|entries|, i requires 0 <= i < |entries| => entries[i].key)
  }

  /** A PHP array never holds one key twice. */
  ghost predicate DistinctKeys(entries: seq<Entry>) {
    forall i, j :: 0 <= i < j < |entries| ==> entries[i].key != entries[j].key
  }

  /** The value stored under `key`, if the key exists. */
  function Lookup(entries: seq<Entry>, key: string): (r: Option<Value>)
    ensures r.Some? <==> key in KeysOf(entries)
    ensures r.Some? ==> Entry(key, r.value) in entries
  {
    if entries == [] then None
    else
      assert KeysOf(entries) == [entries[0].key] + KeysOf(entries[1..]);
      if entries[0].key == key then Some(entries[0].val) else Lookup(entries[1..], key)
  }

  /** In an array without repeated keys, a lookup finds the entry that holds the key. */
  lemma {:induction false} LookupDistinct(entries: seq<Entry>, i: nat)
    requires DistinctKeys(entries)
    requires i < |entries|
    ensures Lookup(entries, entries[i].key) == Some(entries[i].val)
  {
    if i > 0 {
      LookupDistinct(entries[1..], i - 1);
    }
  }

  /** PHP `(bool) $v`. */
  predicate Truthy(v: Value) {
    match v
    case Null => false
    case Bool(b) => b
    case Int(i) => i != 0
    case Str(s) => s != "" && s != "0"
    case Arr(es) => es != []
    case Obj(_) => true
    case Closure(_) => true
  }

  /** PHP `empty($place)`, where the place may be unset. */
  predicate Empty(v: Option<Value>) {
    v.None? || !Truthy(v.value)
  }

  /** PHP `isset($place)`: set and not null. */
  predicate Isset(v: Option<Value>) {
    v.Some? && !v.value.Null?
  }

  /** PHP `$place ?? $fallback`. */
  function Coalesce(v: Option<Value>, fallback: Value): Value {
    if Isset(v) then v.value else fallback
  }

  /** `$v[$key]` read under `isset`, `empty` or `??`: nothing unless `$v` is an array holding the key. */
  function Index(v: Value, key: string): Option<Value> {
    if v.Arr? then Lookup(v.entries, key) else None
  }

  /** `$v->name` read under `isset`, `empty` or `??`: nothing unless `$v` is an object with that property. */
  function Prop(v: Value, name: string): Option<Value> {
    if v.Obj? then Lookup(v.props, name) else None
  }

  /** The entries `foreach ($v as $k => $x)` visits; a scalar is not iterated. */
  function Elements(v: Value): seq<Entry> {
    match v
    case Arr(es) => es
    case Obj(ps) => ps
    case _ => []
  }

  /** PHP `(int) $v` (objects and closures give 1, with a warning). */
  function IntCast(v: Value): int {
    match v
    case Null => 0
    case Bool(b) => if b then 1 else 0
    case Int(i) => i
    case Str(s) => StrToInt(s)
    case Arr(es) => if es == [] then 0 else 1
    case Obj(_) => 1
    case Closure(_) => 1
  }
}
