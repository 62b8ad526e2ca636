/** The HTTP vocabulary the router consumes: the method enumeration and the request. */
module Http {

  /** The constants of the server library's method enumeration. */
  datatype HttpMethod = GET | POST | HEAD | PUT | OPTIONS | DELETE | TRACE | CONNECT | MOVE | PROXY | PRI

  /** HttpMethod.values(): every constant, in declaration order. */
  const Values: seq<HttpMethod> := [GET, POST, HEAD, PUT, OPTIONS, DELETE, TRACE, CONNECT, MOVE, PROXY, PRI]

  /** values() lists every constant exactly once. */
  lemma ValuesEnumerateAll(m: HttpMethod)
    ensures m in Values
    ensures forall i, j :: 0 <= i < j < |Values| ==> Values[i] != Values[j]
  {
  }

  /** What the router reads of a request: its method and its URI path. */
  datatype Request = Request(requestMethod: HttpMethod, uri: string)
}
