/** What a request can fail with: the Python exceptions the route bodies can
    raise, and the HTTP error a client receives. */
module Errors {
  import opened ObjectIds

  /** A built-in exception raised by the route code itself. The message Python
      attaches to it is not modelled; the key is the field being touched. */
  datatype Fault =
    | KeyError(key: string)            // `d[key]` on an absent key
    | TypeError(key: string)           // `**d.get(key, ...)` on a stored value that is not a mapping
    | AttributeError(key: string)      // `.get` or `.isoformat` on a value that has no such method
    | InvalidObjectId(text: string)    // `ObjectId(text)` on a text that is not an identity

  /** An error body: a literal text, or `str(e)` of a built-in exception. */
  datatype Detail = Text(s: string) | Raised(fault: Fault)

  datatype HttpError = HttpError(status: nat, detail: Detail)

  /** `HTTPException(status, detail)` raised directly. */
  function Raise(status: nat, detail: string): HttpError
  {
    HttpError(status, Text(detail))
  }

  /** What FastAPI answers when an exception escapes a route. */
  const InternalServerError := HttpError(500, Text("Internal Server Error"))

  /** `except Exception as e: raise HTTPException(500, str(e))` applied to an
      `HTTPException(status, detail)`, whose `str` is "<status>: <detail>". */
  function Rewrapped(status: nat, detail: string): HttpError
  {
    HttpError(500, Text(DecimalText(status) + ": " + detail))
  }

  /** The same handler applied to a built-in exception. */
  function RewrappedFault(f: Fault): HttpError
  {
    HttpError(500, Raised(f))
  }
}
