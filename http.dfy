/** What the client sends to and receives from the backend. The transport
    itself (fetch) is not modelled: a reply is an input of every operation
    that issues a request. */
module Http {
  import opened Js

  /** What `response.json()` yields: the parsed value, or the message of the
      SyntaxError it rejects with when the body is not JSON. */
  datatype Body<B> = Parsed(value: B) | NotJson(syntaxError: string)

  datatype Response<B> = Response(status: nat, statusText: string, body: Body<B>) {
    /** `response.ok` of the Fetch standard: the status is in the range 200 to 299. */
    predicate Ok() {
      200 <= status <= 299
    }
  }

  /** The settled `fetch` call: a response, or the TypeError it rejects with
      when the network fails. */
  datatype Reply<B> = Delivered(response: Response<B>) | NetworkError(reason: string)

  /** A reply carrying HTTP 401, the one status the request pipeline acts on. */
  predicate Unauthorized<B>(reply: Reply<B>) {
    reply.Delivered? && reply.response.status == 401
  }

  /** An outgoing request; the path is relative to the configured API base URL. */
  datatype Request = Request(verb: string, path: string, headers: map<string, string>, body: Option<Json>)

  /** The message of the TypeError the engine raises when code reads a property
      of null or undefined (the wording of the V8 engine). */
  function PropertyReadError(ofWhat: string, property: string): string
  {
    "Cannot read properties of " + ofWhat + " (reading '" + property + "')"
  }
}
