/** The `Store` interface the HTTP service is written against, as an
    oracle: the handlers see only what each call returns, and the model
    records every call in order. */
module Store {

  /** One call on the Store interface, with its arguments. */
  datatype Call =
    | Get(key: string)
    | Set(key: string, value: string)
    | Delete(key: string)
    | Join(nodeId: string, addr: string)
    | Status

  /** An abstract store. `status` is what `Status()` reports; `fails(data, c)`
      says whether call `c` returns an error when issued while the store
      holds `data`. */
  datatype Oracle = Oracle(status: string, fails: (map<string, string>, Call) -> bool)

  /** What a successful `Get(key)` returns: the stored value, or the empty
      string (Go's zero value) for an absent key. */
  function Value(data: map<string, string>, key: string): string {
    if key in data then data[key] else ""
  }

  /** The contents after a successful call: `Set` assigns, `Delete` removes,
      the other calls leave the contents alone. */
  function Effect(data: map<string, string>, c: Call): map<string, string> {
    match c
    case Set(k, v) => data[k := v]
    case Delete(k) => data - {k}
    case _ => data
  }

  /** The contents after issuing `c`: a failed call changes nothing. */
  function After(o: Oracle, data: map<string, string>, c: Call): (d: map<string, string>)
    ensures o.fails(data, c) ==> d == data
    ensures c.Get? || c.Join? || c.Status? ==> d == data
    ensures c.Set? && !o.fails(data, c) ==>
      c.key in d && d[c.key] == c.value && d - {c.key} == data - {c.key}
    ensures c.Delete? && !o.fails(data, c) ==> d == data - {c.key}
  {
    if o.fails(data, c) then data else Effect(data, c)
  }
}
