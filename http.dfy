/** The HTTP exchange both backends go through, reduced to what the core looks at. */
module Http {
  import opened Wrappers
  import opened JsonValues

  datatype Response = Response(status: int, body: JsonText)

  /** The result of issuing one request: a response, or None when the client itself raised. */
  type Reply = Option<Response>

  /** One backend call: the request it issued (None when it returned without a request)
      and what it returned or raised. */
  datatype Call<Q, T> = Call(request: Option<Q>, result: Result<T>)

  /** `response.json()`. */
  function ResponseJson(r: Response): (j: Result<Json>)
    ensures j.Err? <==> r.body.Malformed?
    ensures j.Err? ==> j.fault == JsonDecodeError
    ensures j.Ok? ==> r.body == Parsed(j.value)
  {
    match r.body
    case Parsed(v) => Ok(v)
    case Malformed => Err(JsonDecodeError)
  }
}
