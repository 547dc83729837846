/**
 * `handle_response_status_code`: the mapping from an HTTP response that does
 * not carry the expected status to the exception the SDK raises.
 */
module Exceptions {
  import opened Values

  const Unauthorized := 401
  const UnprocessableEntity := 422

  /**
   * A response body: it decodes as JSON, or it is only UTF-8 text, or its
   * bytes are not valid UTF-8 (nor any encoding `json.loads` detects), so
   * neither `json.loads` nor `.decode("utf-8")` can read it.
   */
  datatype Body = Text(text: string) | Decoded(value: Json, text: string) | Undecodable(bytes: seq<bv8>)

  /** The detail an exception carries: a decoded JSON value, the body's raw text, or its undecoded bytes. */
  datatype Detail = Parsed(value: Json) | Raw(text: string) | RawBytes(bytes: seq<bv8>)

  /** The exceptions raised for an unexpected status. */
  datatype StatusError =
    | AuthenticationError
    | ValidationError(detail: Detail)
    | UnexpectedStatus(status: int, detail: Detail)
    | TypeError
    | UnicodeDecodeError

  /** The detail lookup's outcome: a detail, or an exception it does not catch. */
  datatype Lookup = Found(detail: Detail) | Escaped(error: StatusError)

  /**
   * The detail lookup as written: the body is decoded and indexed by
   * "detail"; a body that is not JSON, or an object without "detail", falls
   * back to the raw text. Any other decoded value (a list, a string, a
   * number, null) cannot be indexed by a string key and raises `TypeError`;
   * bytes that cannot be decoded raise `UnicodeDecodeError`, a `ValueError`
   * but not a `JSONDecodeError`. The lookup catches neither.
   */
  function DetailAsWritten(body: Body): (r: Lookup)
    ensures r.Escaped? <==> body.Undecodable? || (body.Decoded? && !body.value.Obj?)
    ensures body.Undecodable? ==> r == Escaped(UnicodeDecodeError)
    ensures body.Decoded? && !body.value.Obj? ==> r == Escaped(TypeError)
    ensures body.Text? ==> r == Found(Raw(body.text))
    ensures body.Decoded? && body.value.Obj? ==>
              r == Found(if "detail" in body.value.fields then Parsed(body.value.fields["detail"]) else Raw(body.text))
  {
    match body
    case Text(t) => Found(Raw(t))
    case Decoded(v, t) =>
      (match v
       case Obj(fields) => if "detail" in fields then Found(Parsed(fields["detail"])) else Found(Raw(t))
       case _ => Escaped(TypeError))
    case Undecodable(_) => Escaped(UnicodeDecodeError)
  }

  /**
   * `handle_response_status_code` as written: `None` when the status is the
   * expected one; otherwise the detail is looked up first, and only then is
   * the status mapped, so an escaping `TypeError` or `UnicodeDecodeError`
   * preempts the mapping.
   */
  function HandleStatusAsWritten(status: int, expected: int, body: Body): (r: Option<StatusError>)
    ensures r.None? <==> status == expected
    ensures status != expected && body.Decoded? && !body.value.Obj? ==> r == Some(TypeError)
    ensures status != expected && body.Undecodable? ==> r == Some(UnicodeDecodeError)
  {
    if status == expected then None
    else match DetailAsWritten(body)
      case Escaped(e) => Some(e)
      case Found(detail) =>
        if status == Unauthorized then Some(AuthenticationError)
        else if status == UnprocessableEntity then Some(ValidationError(detail))
        else Some(UnexpectedStatus(status, detail))
  }

  /** A 401 whose body is the JSON list `[]` raises `TypeError`, not the authentication error. */
  lemma UnauthorizedWithListBodyRaisesTypeError()
    ensures HandleStatusAsWritten(Unauthorized, 200, Decoded(Arr([]), "[]")) == Some(TypeError)
    ensures HandleStatusAsWritten(Unauthorized, 200, Decoded(Arr([]), "[]")) != Some(AuthenticationError)
  {
  }

  /** A 500 whose body is the single byte 0xFF raises `UnicodeDecodeError`, not `UnexpectedStatus`. */
  lemma ServerErrorWithUndecodableBodyRaisesUnicodeError()
    ensures HandleStatusAsWritten(500, 200, Undecodable([0xFF])) == Some(UnicodeDecodeError)
    ensures HandleStatus(500, 200, Undecodable([0xFF])) == Some(UnexpectedStatus(500, RawBytes([0xFF])))
  {
  }

  /**
   * The detail lookup as evidently intended: every body that does not yield
   * a "detail" entry falls back to the raw text, or to the raw bytes when
   * they are not text.
   */
  function DetailOf(body: Body): (d: Detail)
    ensures d.Parsed? <==> body.Decoded? && body.value.Obj? && "detail" in body.value.fields
    ensures d.Parsed? ==> d.value == body.value.fields["detail"]
    ensures d.Raw? <==> !body.Undecodable? && !d.Parsed?
    ensures d.Raw? ==> d.text == body.text
    ensures d.RawBytes? <==> body.Undecodable?
    ensures d.RawBytes? ==> d.bytes == body.bytes
  {
    match body
    case Text(t) => Raw(t)
    case Decoded(v, t) =>
      if v.Obj? && "detail" in v.fields then Parsed(v.fields["detail"]) else Raw(t)
    case Undecodable(b) => RawBytes(b)
  }

  /**
   * `handle_response_status_code` as evidently intended: `None` exactly for
   * the expected status; otherwise 401 is an authentication error, 422 a
   * validation error with the detail, and anything else an unexpected status
   * with its code and detail, whatever the body holds.
   */
  function HandleStatus(status: int, expected: int, body: Body): (r: Option<StatusError>)
    ensures r.None? <==> status == expected
    ensures r.Some? ==> r.value != TypeError && r.value != UnicodeDecodeError
    ensures status != expected && status == Unauthorized ==> r == Some(AuthenticationError)
    ensures status != expected && status == UnprocessableEntity ==> r == Some(ValidationError(DetailOf(body)))
    ensures status != expected && status != Unauthorized && status != UnprocessableEntity ==>
              r == Some(UnexpectedStatus(status, DetailOf(body)))
  {
    if status == expected then None
    else if status == Unauthorized then Some(AuthenticationError)
    else if status == UnprocessableEntity then Some(ValidationError(DetailOf(body)))
    else Some(UnexpectedStatus(status, DetailOf(body)))
  }

  /** On every body the lookup as written handles (plain text or a JSON object), the two definitions agree. */
  lemma AsWrittenAgreesOnHandledBodies(status: int, expected: int, body: Body)
    requires body.Text? || (body.Decoded? && body.value.Obj?)
    ensures HandleStatusAsWritten(status, expected, body) == HandleStatus(status, expected, body)
  {
    assert DetailAsWritten(body) == Found(DetailOf(body));
  }

  /**
   * The two definitions differ exactly on an unexpected status whose body
   * makes the lookup as written escape.
   */
  lemma AsWrittenDiffersOnlyWhenEscaping(status: int, expected: int, body: Body)
    ensures HandleStatusAsWritten(status, expected, body) != HandleStatus(status, expected, body)
        <==> status != expected && DetailAsWritten(body).Escaped?
  {
    if !DetailAsWritten(body).Escaped? {
      AsWrittenAgreesOnHandledBodies(status, expected, body);
    }
  }
}
