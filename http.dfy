/** The vocabulary every handler shares: record ids, replies and JavaScript truthiness. */
module Http {
  import opened Wrappers

  /** A record id. The data store assigns ids; here each table allocates them from a counter. */
  type Id = nat

  /** What a handler sends back: `res.status(s).json({ data })` or `res.status(s).json({ message })`. */
  datatype Reply<T> = Data(status: int, data: T) | Message(status: int, message: string)

  const NOT_AUTHORIZED := "Not authorized"

  /** JavaScript truthiness of an optional string field: neither undefined nor the empty string. */
  predicate Truthy(s: Option<string>)
  {
    s.Some? && s.value != ""
  }
}
