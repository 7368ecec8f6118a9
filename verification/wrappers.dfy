/** The optional-value datatype the model uses for "key may be absent" and
    "body may be null", with the two look-up helpers built on it. */
module Wrappers {

  datatype Option<+T> = None | Some(value: T) {

    /** The carried value, or `default` when there is none. */
    function GetOr(default: T): (r: T)
      ensures Some? ==> r == value
      ensures None? ==> r == default
    {
      match this
      case Some(v) => v
      case None => default
    }
  }

  /** Dictionary look-up as `dict.get(key)` does it: the value when the key
      is present, nothing otherwise. */
  function Lookup<K, V>(m: map<K, V>, key: K): (r: Option<V>)
    ensures r.Some? <==> key in m
    ensures r.Some? ==> r.value == m[key]
  {
    if key in m then Some(m[key]) else None
  }

  /** Dictionary look-up with a fallback, as `dict.get(key, default)` does it:
      a present key always wins, whatever value it holds. */
  function LookupOr<K, V>(m: map<K, V>, key: K, default: V): (r: V)
    ensures key in m ==> r == m[key]
    ensures key !in m ==> r == default
  {
    Lookup(m, key).GetOr(default)
  }
}
