/**
 * Reading a property of a plain JavaScript object literal, modelled as an
 * ordered list of (key, value) entries in insertion order (the order
 * `Object.keys` and `Object.entries` report for non-numeric keys).
 */
module JsObjects {
  import opened Types
  import opened Strings

  /** The property names every object literal inherits from Object.prototype. */
  const PrototypeNames: set<string> := {
    "constructor", "hasOwnProperty", "isPrototypeOf", "propertyIsEnumerable",
    "toLocaleString", "toString", "valueOf", "__proto__",
    "__defineGetter__", "__defineSetter__", "__lookupGetter__", "__lookupSetter__"
  }

  /** What `obj[key]` evaluates to: an own value, a member inherited from
      Object.prototype (a function, or the prototype itself for `__proto__`),
      or `undefined`. */
  datatype Property<V> = Own(value: V) | Inherited(name: string) | Undefined

  /** Position of the first entry whose key is `key`, or `|entries|` when there is none. */
  function KeyIndex<V>(entries: seq<(string, V)>, key: string): (i: nat)
    ensures i <= |entries|
    ensures i < |entries| ==> entries[i].0 == key
    ensures forall j :: 0 <= j < i ==> entries[j].0 != key
  {
    if entries == [] then 0
    else if entries[0].0 == key then 0
    else 1 + KeyIndex(entries[1..], key)
  }

  /** Position of the first entry whose lower-cased key equals `lowered`, or
      `|entries|` when there is none. */
  function FoldedKeyIndex<V>(entries: seq<(string, V)>, lowered: string): (i: nat)
    ensures i <= |entries|
    ensures i < |entries| ==> Lower(entries[i].0) == lowered
    ensures forall j :: 0 <= j < i ==> Lower(entries[j].0) != lowered
  {
    if entries == [] then 0
    else if Lower(entries[0].0) == lowered then 0
    else 1 + FoldedKeyIndex(entries[1..], lowered)
  }

  /** The own property `key` of the object, if it has one. */
  function OwnValue<V>(entries: seq<(string, V)>, key: string): (r: Option<V>)
    ensures r.None? <==> forall j :: 0 <= j < |entries| ==> entries[j].0 != key
    ensures r.Some? ==> exists j :: 0 <= j < |entries| && entries[j].0 == key && entries[j].1 == r.value
  {
    var i := KeyIndex(entries, key);
    if i < |entries| then Some(entries[i].1) else None
  }

  /** The own value of `key` is the value of the first entry with that key. */
  lemma OwnValueAt<V>(entries: seq<(string, V)>, key: string, i: nat)
    requires i < |entries| && entries[i].0 == key
    requires forall j :: 0 <= j < i ==> entries[j].0 != key
    ensures OwnValue(entries, key) == Some(entries[i].1)
  {
    var k := KeyIndex(entries, key);
    assert k <= i;
  }

  /** `obj[key]` as JavaScript evaluates it: own properties shadow the
      inherited ones. */
  function Get<V>(entries: seq<(string, V)>, key: string): (p: Property<V>)
    ensures p.Own? <==> OwnValue(entries, key).Some?
    ensures p.Inherited? <==> OwnValue(entries, key).None? && key in PrototypeNames
    ensures OwnValue(entries, key).Some? ==> p == Own(OwnValue(entries, key).value)
    ensures p.Inherited? ==> p.name == key
  {
    match OwnValue(entries, key)
    case Some(v) => Own(v)
    case None => if key in PrototypeNames then Inherited(key) else Undefined
  }

  /** The keys of the object in insertion order, leaving out those in `excluded`. */
  function KeysExcept<V>(entries: seq<(string, V)>, excluded: set<string>): (ks: seq<string>)
    ensures forall k :: k in ks <==> k !in excluded && exists j :: 0 <= j < |entries| && entries[j].0 == k
  {
    if entries == [] then []
    else if entries[0].0 in excluded then KeysExcept(entries[1..], excluded)
    else [entries[0].0] + KeysExcept(entries[1..], excluded)
  }

  /** The key list of a concatenation is the concatenation of the key lists:
      `KeysExcept` keeps the order of the entries. */
  lemma {:induction false} KeysExceptAppend<V>(a: seq<(string, V)>, b: seq<(string, V)>, excluded: set<string>)
    ensures KeysExcept(a + b, excluded) == KeysExcept(a, excluded) + KeysExcept(b, excluded)
  {
    if a == [] {
      assert a + b == b;
    } else {
      assert (a + b)[1..] == a[1..] + b;
      KeysExceptAppend(a[1..], b, excluded);
    }
  }

  /** The keys of the object in insertion order. */
  function Keys<V>(entries: seq<(string, V)>): (ks: seq<string>) {
    seq(|entries|, i requires 0 <= i < |entries| => entries[i].0)
  }

  /** When no key is excluded, `KeysExcept` is `Object.keys`. */
  lemma {:induction false} KeysExceptNoneExcluded<V>(entries: seq<(string, V)>, excluded: set<string>)
    requires forall i :: 0 <= i < |entries| ==> entries[i].0 !in excluded
    ensures KeysExcept(entries, excluded) == Keys(entries)
  {
    if entries != [] {
      KeysExceptNoneExcluded(entries[1..], excluded);
      assert Keys(entries) == [entries[0].0] + Keys(entries[1..]);
    }
  }
}
