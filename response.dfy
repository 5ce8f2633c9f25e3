/** `GwasClient::check_json_response`: the acceptance rule applied to every
    response before its body is decoded. */
module Response {
  import opened Wrappers

  /** The `content-type` header as the client sees it: missing, present but not
      visible ASCII (`to_str` fails), or readable text. */
  datatype ContentType = NoHeader | Unreadable | Header(text: string)

  /** The parts of a response the check looks at. The body text is `None` when
      reading it fails. */
  datatype HttpResponse = HttpResponse(status: int, contentType: ContentType, body: Option<string>)

  datatype ResponseError =
    | HttpError(status: int, body: string)
    | UnexpectedContentType(contentType: string)

  datatype Verdict = Accept | Reject(error: ResponseError)

  /** `StatusCode::is_success`: the 2xx range. */
  predicate IsSuccess(status: int) {
    200 <= status < 300
  }

  /** `pattern` occurs in `s` starting at index `i`. */
  predicate OccursAt(s: string, pattern: string, i: nat)
    requires i + |pattern| <= |s|
  {
    s[i..i + |pattern|] == pattern
  }

  /** `str::contains` for a string pattern. */
  predicate Contains(s: string, pattern: string) {
    exists i: nat :: i + |pattern| <= |s| && OccursAt(s, pattern, i)
  }

  const JsonMediaType := "application/json"
  const UnreadableBody := "Unable to read response body"

  function BodyText(body: Option<string>): string {
    if body.Some? then body.value else UnreadableBody
  }

  /** The decision: a non-2xx status is an HTTP error carrying the body text; a 2xx
      response is then refused only when its content type is readable and does not
      mention JSON. */
  function CheckJsonResponse(resp: HttpResponse): (v: Verdict)
    ensures v == Accept <==>
      IsSuccess(resp.status) && (resp.contentType.Header? ==> Contains(resp.contentType.text, JsonMediaType))
    ensures !IsSuccess(resp.status) ==> v == Reject(HttpError(resp.status, BodyText(resp.body)))
    ensures IsSuccess(resp.status) && resp.contentType.Header? && !Contains(resp.contentType.text, JsonMediaType)
      <==> v.Reject? && v.error.UnexpectedContentType?
    ensures v.Reject? && v.error.UnexpectedContentType? ==>
      IsSuccess(resp.status) && resp.contentType == Header(v.error.contentType)
  {
    if !IsSuccess(resp.status) then
      Reject(HttpError(resp.status, BodyText(resp.body)))
    else match resp.contentType
      case Header(ct) =>
        if !Contains(ct, JsonMediaType) then Reject(UnexpectedContentType(ct)) else Accept
      case _ => Accept
  }

  /** A success response without a readable content type is always accepted. */
  lemma MissingHeaderAccepted(status: int, ct: ContentType, body: Option<string>)
    requires IsSuccess(status) && !ct.Header?
    ensures CheckJsonResponse(HttpResponse(status, ct, body)) == Accept
  {
  }

  /** Only the literal substring counts: `application/hal+json` does not contain
      `application/json` and is refused; a parameterised JSON type is accepted;
      an HTML page is refused; a 404 is an HTTP error whatever its headers. */
  lemma ContentTypeExamples()
    ensures CheckJsonResponse(HttpResponse(200, Header("application/hal+json"), None))
      == Reject(UnexpectedContentType("application/hal+json"))
    ensures CheckJsonResponse(HttpResponse(200, Header("application/json;charset=UTF-8"), None)) == Accept
    ensures CheckJsonResponse(HttpResponse(200, Header("text/html"), None))
      == Reject(UnexpectedContentType("text/html"))
    ensures CheckJsonResponse(HttpResponse(404, Header("application/json"), Some("missing")))
      == Reject(HttpError(404, "missing"))
  {
    var hal := "application/hal+json";
    forall i: nat | i + |JsonMediaType| <= |hal| ensures !OccursAt(hal, JsonMediaType, i) {
      if i == 0 {
        assert hal[12] != JsonMediaType[12];
      } else {
        assert hal[i] != JsonMediaType[0];
      }
    }
    var js := "application/json;charset=UTF-8";
    assert OccursAt(js, JsonMediaType, 0);
  }
}
