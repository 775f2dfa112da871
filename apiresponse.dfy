/** A response from the HTTP client: status code, body, headers and the
    time it was built. The body may be null; the clock read of the
    constructor is a parameter here. */
module ApiResponses {
  import opened Wrappers
  import opened JavaStrings

  datatype ApiResponse = ApiResponse(
    statusCode: int,
    body: Option<string>,
    headers: map<string, string>,
    responseTime: int)
  {
    /** isSuccess: a status of the 2xx class. */
    predicate IsSuccess(): (ok: bool)
      ensures ok <==> statusCode / 100 == 2
    {
      statusCode >= 200 && statusCode < 300
    }

    /** getHeader: the header's value, or null when it is absent. */
    function GetHeader(name: string): (v: Option<string>)
      ensures v.Some? <==> name in headers
      ensures v.Some? ==> v.value == headers[name]
    {
      if name in headers then Some(headers[name]) else None
    }

    /** isEmpty: no body, or a body with nothing left after trim, which is
        exactly a body of chars at or below the space. */
    function IsEmpty(): (empty: bool)
      ensures empty <==> body.None? || Blank(body.value)
    {
      if body.None? then true
      else
        TrimFacts(body.value);
        Trim(body.value) == []
    }
  }

  /** The constructor; `now` is what System.currentTimeMillis returned. */
  function NewApiResponse(statusCode: int, body: Option<string>, headers: map<string, string>, now: int): (r: ApiResponse)
    ensures r.statusCode == statusCode && r.body == body && r.headers == headers
    ensures r.responseTime == now
  {
    ApiResponse(statusCode, body, headers, now)
  }

  /** The response sendRequest returns once its retries are exhausted
      (status 0, an empty body, no headers): neither a success nor with
      content, and without any header. */
  function FallbackResponse(now: int): (r: ApiResponse)
    ensures !r.IsSuccess() && r.IsEmpty()
    ensures forall name :: r.GetHeader(name).None?
  {
    NewApiResponse(0, Some(""), map[], now)
  }

  /** A body of spaces and line breaks counts as empty; one with a visible
      char does not. */
  lemma EmptyBodies(r: ApiResponse)
    ensures r.body == Some(" \n\t ") ==> r.IsEmpty()
    ensures r.body == Some(" {} ") ==> !r.IsEmpty()
  {
    if r.body == Some(" {} ") {
      assert r.body.value[1] == '{';
    }
  }
}
