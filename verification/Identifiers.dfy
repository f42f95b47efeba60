/** Opaque identifiers shared by the models. Only equality and freshness matter,
    so every identifier is an integer. */
module Identifiers {
  type UserId = int
  type Child = int
  type BindingId = int
  type OpId = int
  type SessionId = int
  type RequestId = int
  type LockId = (OpId, BindingId)
  type GrantId = int

  datatype Option<T> = None | Some(value: T)

  lemma SomeValue(o: Option<int>, n: int)
    requires o.Some? && o.value == n
    ensures o == Some(n)
  {
  }

  lemma Element<T>(s: set<T>) returns (x: T)
    requires s != {}
    ensures x in s
  {
    x :| x in s;
  }

  /** One step of an iteration over a collection whose order does not matter. */
  method Next<T>(rest: set<T>) returns (x: T)
    requires rest != {}
    ensures x in rest
  {
    x :| x in rest;
  }
}
