/** Values shared by every graph of the assistant: optional values, results
    with an error side, chat messages and Python's truthiness of an optional
    string. */
module Common {

  /** `T | None` in the source's type hints, or a state key that may be absent. */
  datatype Option<+T> = None | Some(value: T)

  /** The outcome of a step that may raise. */
  datatype Result<+T, +E> = Success(value: T) | Failure(error: E)

  /** The three chat message kinds the graphs put into their histories. */
  datatype Message =
    | SystemMessage(content: string)
    | HumanMessage(content: string)
    | AIMessage(content: string)

  /** Python's truth value of a `str | None`: neither `None` nor `""`. */
  predicate Truthy(s: Option<string>)
  {
    s.Some? && s.value != ""
  }
}
