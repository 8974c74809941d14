/** The two query-string accessors of gin's `Context` the handlers use. A
    query string is modelled as the first value of each key. */
module Gin {

  /** `Query`: the value when the key is present, "" otherwise. */
  function Query(query: map<string, string>, key: string): (v: string)
    ensures key in query ==> v == query[key]
    ensures key !in query ==> v == ""
  {
    if key in query then query[key] else ""
  }

  /** `DefaultQuery`: the value when the key is present, even an empty one;
      the default only when the key is absent. */
  function DefaultQuery(query: map<string, string>, key: string, default: string): (v: string)
    ensures key in query ==> v == query[key]
    ensures key !in query ==> v == default
  {
    if key in query then query[key] else default
  }
}
