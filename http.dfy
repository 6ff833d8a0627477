/**
 * The slice of the Node/Express response object that the interceptor uses:
 * `setHeader`, `write`, `end`, `status` and `json`, and the `headersSent`
 * flag. The first `write` commits the headers; `json` sends a whole body and
 * finishes the response.
 */
module Http {
  import opened Wrappers

  /** The body `{ error: ... }` sent by `response.status(500).json(...)`. */
  datatype ErrorBody = ErrorBody(error: string)

  class Response {
    var headers: map<string, string>
    var headersSent: bool
    var statusCode: int
    var jsonBody: Option<ErrorBody>
    var written: seq<string>
    var ended: bool

    /** Nothing is sent without the headers being committed. */
    ghost predicate Valid()
      reads this
    {
      (written != [] || ended || jsonBody.Some?) ==> headersSent
    }

    /** A response nothing has been done with yet. */
    ghost predicate Untouched()
      reads this
    {
      Valid() && !headersSent
    }

    constructor ()
      ensures Untouched() && headers == map[] && statusCode == 200
      ensures written == [] && jsonBody == None && !ended
    {
      headers, headersSent, statusCode := map[], false, 200;
      jsonBody, written, ended := None, [], false;
    }

    /** `setHeader` is only possible before the headers are sent (Node throws afterwards). */
    method SetHeader(name: string, value: string)
      requires !headersSent
      modifies this
      ensures headers == old(headers)[name := value]
      ensures headersSent == old(headersSent) && statusCode == old(statusCode)
      ensures jsonBody == old(jsonBody) && written == old(written) && ended == old(ended)
    {
      headers := headers[name := value];
    }

    /** `write(chunk)`: appends to the body and commits the headers. */
    method Write(chunk: string)
      requires Valid() && !ended
      modifies this
      ensures Valid() && headersSent
      ensures written == old(written) + [chunk]
      ensures headers == old(headers) && statusCode == old(statusCode)
      ensures jsonBody == old(jsonBody) && ended == old(ended)
    {
      written := written + [chunk];
      headersSent := true;
    }

    /** `end()`: finishes the response. */
    method End()
      requires Valid() && !ended
      modifies this
      ensures Valid() && headersSent && ended
      ensures headers == old(headers) && statusCode == old(statusCode)
      ensures jsonBody == old(jsonBody) && written == old(written)
    {
      ended := true;
      headersSent := true;
    }

    /** `status(code)`. */
    method Status(code: int)
      modifies this
      ensures statusCode == code
      ensures headers == old(headers) && headersSent == old(headersSent)
      ensures jsonBody == old(jsonBody) && written == old(written) && ended == old(ended)
    {
      statusCode := code;
    }

    /** `json(body)`: sends `body` as the whole response and finishes it. */
    method Json(body: ErrorBody)
      requires Valid() && !ended
      modifies this
      ensures Valid() && headersSent && ended && jsonBody == Some(body)
      ensures headers == old(headers) && statusCode == old(statusCode) && written == old(written)
    {
      jsonBody := Some(body);
      headersSent, ended := true, true;
    }
  }
}
