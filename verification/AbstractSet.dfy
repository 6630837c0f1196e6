/** `AbstractSafeSet`: the operations that the concurrent sets share, and what they mean on a mathematical set. */
module AbstractSet {
  const INT32_MIN: int := -0x8000_0000
  const INT32_MAX: int := 0x7fff_ffff

  datatype Op = Add(key: int) | Remove(key: int)

  /** The mathematical set that the calls are measured against. */
  function SetSpec(keys: set<int>, op: Op): (set<int>, bool) {
    match op
    case Add(k) => (keys + {k}, k !in keys)
    case Remove(k) => (keys - {k}, k in keys)
  }
}
