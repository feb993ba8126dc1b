/** Shared by the other modules. */
module Wrappers {

  datatype Option<T> = None | Some(value: T)
}

/** Instants are nanoseconds; what is stored or compared as text is whole seconds. */
module Clock {

  const SEC: nat := 1_000_000_000

  function Floor(t: nat): nat {
    t / SEC
  }

  lemma FloorMonotone(a: nat, b: nat)
    requires a <= b
    ensures Floor(a) <= Floor(b)
  {
  }

  lemma FloorBounds(t: nat)
    ensures Floor(t) * SEC <= t < Floor(t) * SEC + SEC
  {
  }
}
