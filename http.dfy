/** The HTTP boundary shared by the clients: an abstract response in place of
    `requests`' response object, `raise_for_status()` and `resp.json()`. */
module Http {
  import opened Wrappers
  import opened Py

  /** What the server sent back: whether the status is below 400, the
      Content-Type header if present, the body text, and the text of the
      `HTTPError` that `raise_for_status()` raises for an error status. */
  datatype Response = Response(ok: bool, contentType: Option<string>, text: string, statusError: string)

  /** The outcome of `requests.post` / `requests.get`: a response, or a failure
      of the call itself (connection refused, DNS, a transport timeout). */
  datatype Delivery = Delivered(response: Response) | Unreachable(message: string)

  /** What `json.loads` makes of a text: a value, or a `JSONDecodeError`. */
  datatype Decoded = Parsed(value: Json) | Malformed(message: string)

  /** `json.loads`, left abstract. */
  type Decoder = string -> Decoded

  /** `resp.raise_for_status()`. */
  function RaiseForStatus(r: Response): (o: Outcome<()>)
    ensures o.Ok? <==> r.ok
    ensures o.Raised? ==> o.exc == Exc(HttpError, r.statusError)
  {
    if r.ok then Ok(()) else Raised(Exc(HttpError, r.statusError))
  }

  /** `resp.json()`. */
  function JsonOf(r: Response, decode: Decoder): (o: Outcome<Json>)
    ensures o.Raised? ==> o.exc.kind == JsonError
  {
    match decode(r.text)
    case Parsed(v) => Ok(v)
    case Malformed(m) => Raised(Exc(JsonError, m))
  }

  /** The recurring `resp = requests.<verb>(...); resp.raise_for_status();
      return resp.json()`. */
  function CheckedJson(d: Delivery, decode: Decoder): (o: Outcome<Json>)
    ensures d.Delivered? && d.response.ok ==> o == JsonOf(d.response, decode)
    ensures d.Delivered? && !d.response.ok ==> o == Raised(Exc(HttpError, d.response.statusError))
    ensures d.Unreachable? ==> o == Raised(Exc(RequestError, d.message))
  {
    match d
    case Unreachable(m) => Raised(Exc(RequestError, m))
    case Delivered(r) =>
      var _ :- RaiseForStatus(r);
      JsonOf(r, decode)
  }

  /** The Authorization header value every client sends. */
  function Bearer(token: string): string
  {
    "Bearer " + token
  }
}
