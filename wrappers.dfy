/** The optional value used wherever the source has a nullable value or a
    dictionary lookup that may miss (`null`, `None`, `dict.get`). */
module Wrappers {

  datatype Option<+T> = None | Some(value: T)

  /** `m.get(k)` of a Python dictionary, `None` when the key is absent. */
  function Get<K, V>(m: map<K, V>, k: K): (r: Option<V>)
    ensures r.Some? <==> k in m
    ensures r.Some? ==> r.value == m[k]
  {
    if k in m then Some(m[k]) else None
  }
}
