/**
 * The browser's `localStorage` as an immutable value: a map from keys to
 * stored text. A missing key reads as `null`. JSON text is not modelled as
 * a grammar; a `Codec` pairs an encoder with a partial decoder, and `Lawful`
 * says the two round-trip the way `JSON.stringify`/`JSON.parse` do.
 */
module WebStorage {
  import opened Basics

  type Store = map<string, string>

  /** `localStorage.getItem(key)`: the stored text, or `null`. */
  function GetItem(store: Store, key: string): (r: Option<string>)
    ensures r.Some? <==> key in store
    ensures r.Some? ==> r.value == store[key]
  {
    if key in store then Some(store[key]) else None
  }

  /** JavaScript truthiness of a `getItem` result: `null` and `""` are both falsy. */
  predicate Truthy(item: Option<string>)
    ensures Truthy(item) <==> item != None && item != Some("")
  {
    item.Some? && item.value != ""
  }

  /** `localStorage.setItem(key, text)`. */
  function SetItem(store: Store, key: string, text: string): (r: Store)
    ensures r.Keys == store.Keys + {key}
    ensures r[key] == text
    ensures forall k :: k in store && k != key ==> r[k] == store[k]
  {
    store[key := text]
  }

  /** `localStorage.removeItem(key)`, applied to every key of `keys`. */
  function RemoveItems(store: Store, keys: set<string>): (r: Store)
    ensures r.Keys == store.Keys - keys
    ensures forall k :: k in r ==> r[k] == store[k]
  {
    store - keys
  }

  /** `localStorage.clear()`. */
  function Clear(store: Store): (r: Store)
    ensures forall k :: GetItem(r, k) == None
  {
    map[]
  }

  /** A JSON encoding of values of type `T`: total encoder, partial decoder. */
  datatype Codec<!T> = Codec(encode: T -> string, decode: string -> Option<T>)

  /**
   * The codec behaves like `JSON.stringify` followed by `JSON.parse` on the
   * values it is used for: decoding an encoding gives the value back, and an
   * encoding is never the empty text.
   */
  ghost predicate Lawful<T(!new)>(c: Codec<T>) {
    forall v :: c.decode(c.encode(v)) == Some(v) && c.encode(v) != ""
  }

  /** What reading one JSON-valued key can give. */
  datatype Read<T> = Missing | Parsed(value: T) | Corrupt

  /**
   * Read `key` and parse it when its item is truthy: a falsy item is
   * `Missing`, text the decoder rejects is `Corrupt` (where the source's
   * `JSON.parse` would throw).
   */
  function ReadJson<T>(store: Store, key: string, c: Codec<T>): (r: Read<T>)
    ensures r.Missing? <==> !Truthy(GetItem(store, key))
    ensures r.Parsed? <==> key in store && store[key] != "" && c.decode(store[key]).Some?
    ensures r.Parsed? ==> c.decode(store[key]) == Some(r.value)
  {
    var item := GetItem(store, key);
    if !Truthy(item) then Missing
    else match c.decode(item.value)
      case Some(v) => Parsed(v)
      case None => Corrupt
  }

  /** Reading back an encoding written under a lawful codec gives the value. */
  lemma ReadAfterWrite<T(!new)>(store: Store, key: string, c: Codec<T>, v: T)
    requires Lawful(c)
    ensures ReadJson(SetItem(store, key, c.encode(v)), key, c) == Parsed(v)
  {
    assert c.decode(c.encode(v)) == Some(v) && c.encode(v) != "";
  }
}
