/**
 * The typed local-storage wrapper: values go through a JSON codec on the
 * way in and out, and every read failure degrades to `null`. Quota errors
 * from `setItem` are caught and logged by the wrapper and are not modelled.
 */
module Storage {
  import opened Basics
  import opened WebStorage

  /** `storage.set(key, value)`: store the encoding of `value` under `key`. */
  function Set<T>(store: Store, c: Codec<T>, key: string, value: T): (r: Store)
    ensures key in r && r[key] == c.encode(value)
    ensures r.Keys == store.Keys + {key}
    ensures forall k :: k != key ==> GetItem(r, k) == GetItem(store, k)
  {
    SetItem(store, key, c.encode(value))
  }

  /**
   * `storage.get(key)`: the decoded value, or `null` when the item is absent,
   * is the empty text, or does not decode.
   */
  function Get<T>(store: Store, c: Codec<T>, key: string): (r: Option<T>)
    ensures key !in store ==> r == None
    ensures key in store && store[key] == "" ==> r == None
    ensures key in store && store[key] != "" ==> r == c.decode(store[key])
  {
    match ReadJson(store, key, c)
    case Parsed(v) => Some(v)
    case _ => None
  }

  /** `storage.getOrDefault(key, d)`. */
  function GetOrDefault<T>(store: Store, c: Codec<T>, key: string, default: T): (r: T)
    ensures Get(store, c, key).Some? ==> r == Get(store, c, key).value
    ensures Get(store, c, key) == None ==> r == default
  {
    var value := Get(store, c, key);
    if value != None then value.value else default
  }

  /** `storage.has(key)`: the item is not `null` (an empty item counts as present). */
  predicate Has(store: Store, key: string)
    ensures Has(store, key) <==> key in store
    ensures key in store && store[key] == "" ==> Has(store, key)
  {
    GetItem(store, key) != None
  }

  /** `storage.remove(key)`. */
  function Remove(store: Store, key: string): (r: Store)
    ensures !Has(r, key)
    ensures forall k :: k != key ==> GetItem(r, k) == GetItem(store, k)
  {
    RemoveItems(store, {key})
  }

  /** `storage.keys()`: every key that `has` reports, in no particular order. */
  function Keys(store: Store): (r: set<string>)
    ensures forall k :: k in r <==> Has(store, k)
  {
    store.Keys
  }

  /** `get` after `set` gives back the stored value. */
  lemma GetAfterSet<T(!new)>(store: Store, c: Codec<T>, key: string, value: T)
    requires Lawful(c)
    ensures Get(Set(store, c, key, value), c, key) == Some(value)
    ensures Has(Set(store, c, key, value), key)
  {
    ReadAfterWrite(store, key, c, value);
  }

  /** Writing or removing one key is invisible through every other key. */
  lemma OtherKeysUntouched<T>(store: Store, c: Codec<T>, key: string, other: string, value: T)
    requires other != key
    ensures Get(Set(store, c, key, value), c, other) == Get(store, c, other)
    ensures Get(Remove(store, key), c, other) == Get(store, c, other)
    ensures Has(Set(store, c, key, value), other) == Has(store, other)
    ensures Has(Remove(store, key), other) == Has(store, other)
  {
  }

  /** An empty item is present for `has` yet reads as `null` for `get`. */
  lemma EmptyItemIsPresentButUnreadable<T>(store: Store, c: Codec<T>, key: string)
    requires key in store && store[key] == ""
    ensures Has(store, key)
    ensures Get(store, c, key) == None
  {
  }

  /** Text the decoder rejects reads as `null`, and `getOrDefault` then falls back. */
  lemma CorruptItemFallsBack<T>(store: Store, c: Codec<T>, key: string, default: T)
    requires key in store && c.decode(store[key]) == None
    ensures Get(store, c, key) == None
    ensures GetOrDefault(store, c, key, default) == default
  {
  }

  /** `getOrDefault` on a key that was `set` ignores the default. */
  lemma GetOrDefaultAfterSet<T(!new)>(store: Store, c: Codec<T>, key: string, value: T, default: T)
    requires Lawful(c)
    ensures GetOrDefault(Set(store, c, key, value), c, key, default) == value
  {
    GetAfterSet(store, c, key, value);
  }

  /** After `clear` no key is present and every read falls back. */
  lemma ClearForgetsEverything<T>(store: Store, c: Codec<T>, key: string, default: T)
    ensures !Has(Clear(store), key)
    ensures Get(Clear(store), c, key) == None
    ensures GetOrDefault(Clear(store), c, key, default) == default
  {
  }
}
