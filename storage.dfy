/** `lsGet` and `lsSet`, the JSON helpers the to-do and shortcut widgets persist their lists with. */
module LocalStorage {
  import opened Wrappers
  import opened Json

  /** localStorage: text stored under text keys. */
  type Store = map<string, string>

  /** `lsGet(key, fallback)`: the parsed stored text; the fallback when the key is missing, its text is empty, or the parse throws. */
  function LsGet(store: Store, key: string, fallback: Json): (r: Json)
    ensures key !in store || store[key] == "" ==> r == fallback
    ensures r != fallback ==> key in store && Parse(store[key]) == Some(r)
    ensures key in store && store[key] != "" && Parse(store[key]).Some? ==> r == Parse(store[key]).value
    ensures key in store && store[key] != "" && Parse(store[key]).None? ==> r == fallback
  {
    if key in store && store[key] != "" then
      match Parse(store[key])
      case Some(v) => v
      case None => fallback
    else fallback
  }

  /**
   * `lsSet(key, value)`: the value's JSON text stored under the key. Its `setItem` is outside
   * any `try`: where the store rejects writes it throws, which is `None`.
   */
  function LsSet(store: Store, rejected: bool, key: string, value: Json): (r: Option<Store>)
    ensures r.None? <==> rejected
    ensures r.Some? ==> r.value.Keys == store.Keys + {key}
    ensures r.Some? ==> forall k :: k in store && k != key ==> r.value[k] == store[k]
  {
    if rejected then None else Some(store[key := Stringify(value)])
  }

  /** What `lsSet` stores, `lsGet` reads back, whatever the fallback. */
  lemma LsRoundTrip(store: Store, key: string, value: Json, fallback: Json)
    ensures LsGet(LsSet(store, false, key, value).value, key, fallback) == value
  {
    StringifyFirst(value);
    ParseStringify(value);
  }
}
