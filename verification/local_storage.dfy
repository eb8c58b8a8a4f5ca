/** The browser's `localStorage`, seen as a map from keys to strings. Browser
    persistence is not modelled. */
module LocalStorage {

  type Store = map<string, string>

  const TokenKey := "token"
  const RoleKey := "role"

  /** `localStorage.getItem(key)` where the caller only tests truthiness:
      a missing key (`null`) and the empty string both read as "". */
  function GetItem(store: Store, key: string): (v: string)
    ensures key !in store ==> v == ""
    ensures key in store ==> v == store[key]
  {
    if key in store then store[key] else ""
  }

  /** `localStorage.setItem(key, value)`. */
  function SetItem(store: Store, key: string, value: string): (r: Store)
    ensures key in r && r[key] == value
    ensures forall k | k in store && k != key :: k in r && r[k] == store[k]
    ensures forall k | k in r :: k in store || k == key
  {
    store[key := value]
  }

  /** `localStorage.removeItem(key)`. */
  function RemoveItem(store: Store, key: string): (r: Store)
    ensures key !in r
    ensures forall k | k in store && k != key :: k in r && r[k] == store[k]
    ensures forall k | k in r :: k in store
  {
    store - {key}
  }

  /** The stored token as the client reads it ("" when there is none). */
  function StoredToken(store: Store): string {
    GetItem(store, TokenKey)
  }
}
