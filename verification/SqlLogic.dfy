/** Three-valued truth: a check constraint fails only on No, a raising condition fires only on Yes. */
module SqlLogic {
  import opened Wrappers

  datatype Truth = Yes | No | Unknown {
    function And(other: Truth): Truth {
      if No? || other.No? then No else if Yes? && other.Yes? then Yes else Unknown
    }

    function Or(other: Truth): Truth {
      if Yes? || other.Yes? then Yes else if No? && other.No? then No else Unknown
    }

    predicate Holds() {
      !No?
    }

    predicate Fires() {
      Yes?
    }
  }

  function Is(b: bool): Truth {
    if b then Yes else No
  }

  /** Equality with a column that may be null. */
  function Equal<T(==)>(a: Option<T>, b: Option<T>): Truth {
    if a.None? || b.None? then Unknown else Is(a == b)
  }

  function Differ<T(==)>(a: Option<T>, b: Option<T>): Truth {
    if a.None? || b.None? then Unknown else Is(a != b)
  }
}
