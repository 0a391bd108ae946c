/** Outcomes of the playset operations: a value, or the Python exception the
    program raises on that path. */
module Results {

  /** The exception classes the parser and generator can raise. */
  datatype Error =
    | IndexError        // indexing an empty list (random.choice, character_set[-1], sections[0])
    | KeyError(key: string)
    | ValueError        // str.index without a match, int() of a non-number
    | AttributeError    // an attribute looked up on None, or one a class does not define
    | AssertionError    // a failed position rule in the parser
    | StopIteration     // next() on a generator that has already ended

  datatype Result<+T> = Ok(value: T) | Err(error: Error)

  datatype Option<+T> = None | Some(value: T)
}
