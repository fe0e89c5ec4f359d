/** Small definitions every part of the project shares. */
module Common {

  datatype Option<+T> = None | Some(value: T)

  function Max(a: int, b: int): int { if a <= b then b else a }

  /** A non-empty set has an element, whatever its type. */
  lemma Someone<T>(all: set<T>) returns (one: T)
    requires all != {}
    ensures one in all
  {
    one :| one in all;
  }
}
