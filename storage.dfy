/** The browser's `localStorage`: a map from keys to string values. */
module Storage {
  import opened Wrappers
  import opened Text

  type Store = map<String, String>

  /** `localStorage.getItem(k)`: the value, or `None` for `null`. */
  function GetItem(s: Store, k: String): (r: Option<String>)
    ensures r.Some? <==> k in s
    ensures r.Some? ==> r.value == s[k]
  {
    if k in s then Some(s[k]) else None
  }

  /** `if (value)` on what `getItem` returned: present and not the empty string. */
  predicate Truthy(v: Option<String>) {
    v.Some? && v.value != []
  }
}
