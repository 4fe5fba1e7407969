/**
 * The HTTP exchange as the client sees it, and the classification of a failed
 * exchange into a message and a channel (`handleRequestError`).
 */
module Classifier {
  import opened Js

  /**
   * A response body: absent, or text together with what `JSON.parse` makes of it
   * (None when the text is not JSON).
   */
  datatype RawBody = NoBody | Text(raw: string, json: Option<Value>)

  datatype ResponseHead = ResponseHead(status: int, contentType: Option<string>)

  /** What the transport delivers to a request's callback. */
  datatype Exchange = TransportError | Reply(head: ResponseHead, body: RawBody)

  datatype Channel = ErrorChannel | WarningChannel

  datatype Classification =
    | Classified(message: string, channel: Channel)
    | ClassifyThrew(kind: ThrowKind)

  predicate BodyTruthy(body: RawBody) {
    body.Text? && body.raw != ""
  }

  /** `JSON.parse(body)`: None when it throws. */
  function ParseJson(body: RawBody): Option<Value> {
    match body
    case NoBody => None
    case Text(raw, json) => if raw == "" then None else json
  }

  /** The `err || response.statusCode != 200` test of every response callback. */
  predicate Failed(x: Exchange) {
    x.TransportError? || x.head.status != 200
  }

  /** The three arguments `request` hands to a callback. */
  function ResponseOf(x: Exchange): Option<ResponseHead> {
    if x.Reply? then Some(x.head) else None
  }

  function BodyOf(x: Exchange): RawBody {
    if x.Reply? then x.body else NoBody
  }

  /** `header.trim().toLowerCase().indexOf("application/json") !== -1` */
  predicate IsJsonContentType(contentType: string) {
    Contains(LowerAscii(Trim(contentType)), "application/json")
  }

  /**
   * `errorMessage && (errorMessage.error.message || errorMessage.error)`, rendered
   * as text by the string concatenation that follows. None when it throws (a truthy
   * document whose `error` is undefined or null).
   */
  function ErrorDetail(doc: Value): (r: Option<string>)
    ensures !Truthy(doc) ==> r == Some(ToJsString(doc))
    ensures Truthy(doc) && Nullish(Field(doc, "error")) ==> r.None?
    ensures Truthy(doc) && Field(doc, "error").Str? ==> r == Some(Field(doc, "error").s)
  {
    if !Truthy(doc) then Some(ToJsString(doc))
    else
      var e := Field(doc, "error");
      if Nullish(e) then None
      else
        var m := Field(e, "message");
        Some(ToJsString(if Truthy(m) then m else e))
  }

  function ChannelFor(critical: bool): Channel {
    if critical then ErrorChannel else WarningChannel
  }

  /**
   * `handleRequestError(err, response, body, context, critical)`. The emitted
   * error's message is `context + ": " + detail`; it goes to the error channel when
   * critical and to the warning channel otherwise.
   */
  function Classify(err: bool, response: Option<ResponseHead>, body: RawBody, context: string, critical: bool): (r: Classification)
    ensures r.Classified? ==> r.channel == ChannelFor(critical) && context + ": " <= r.message
    ensures r.ClassifyThrew? ==> BodyTruthy(body)
    ensures !BodyTruthy(body) && response.None? ==> r == Classified(context + ": No response", ChannelFor(critical))
  {
    var ch := ChannelFor(critical);
    if BodyTruthy(body) then
      if response.None? || response.value.contentType.None? then ClassifyThrew(TypeError)
      else if IsJsonContentType(response.value.contentType.value) then
        match ParseJson(body)
        case None => ClassifyThrew(SyntaxError)
        case Some(doc) =>
          match ErrorDetail(doc)
          case None => ClassifyThrew(TypeError)
          case Some(detail) => Classified(context + ": " + detail, ch)
      else Classified(context + ": Status code" + IntToDecimal(response.value.status), ch)
    else if response.Some? then Classified(context + ": Status code" + IntToDecimal(response.value.status), ch)
    else Classified(context + ": No response", ch)
  }

  /** The classification of a failed exchange as its callback receives it. */
  function ClassifyExchange(x: Exchange, context: string, critical: bool): Classification {
    Classify(x.TransportError?, ResponseOf(x), BodyOf(x), context, critical)
  }

  // ---------------------------------------------------------------------------
  // Properties

  /** The `err` argument never influences the outcome. */
  lemma ErrorArgumentIgnored(response: Option<ResponseHead>, body: RawBody, context: string, critical: bool)
    ensures Classify(true, response, body, context, critical) == Classify(false, response, body, context, critical)
  {
  }

  /**
   * A header that starts with `application/json`, has no trailing white space
   * and no upper-case letters is recognised as JSON.
   */
  lemma JsonPrefixedContentType(ct: string)
    requires "application/json" <= ct && !IsJsSpace(ct[|ct| - 1])
    requires forall i :: 0 <= i < |ct| ==> !('A' <= ct[i] <= 'Z')
    ensures IsJsonContentType(ct)
  {
    assert TrimStart(ct) == ct;
    assert TrimEnd(ct) == ct;
    var l := LowerAscii(ct);
    assert l == ct by {
      forall i | 0 <= i < |ct| ensures l[i] == ct[i] {
      }
    }
  }

  /** A response whose JSON body is `{"error": {"message": msg}}` yields `msg`, whatever its status. */
  lemma JsonErrorMessage(head: ResponseHead, raw: string, msg: string, context: string, critical: bool)
    requires raw != "" && msg != ""
    requires head.contentType.Some? && IsJsonContentType(head.contentType.value)
    ensures var doc := Obj(map["error" := Obj(map["message" := Str(msg)])]);
            Classify(false, Some(head), Text(raw, Some(doc)), context, critical)
              == Classified(context + ": " + msg, ChannelFor(critical))
  {
    var doc := Obj(map["error" := Obj(map["message" := Str(msg)])]);
    assert ErrorDetail(doc) == Some(msg);
  }

  /** The usual header value `application/json` is recognised. */
  lemma PlainJsonContentType()
    ensures IsJsonContentType("application/json")
  {
    var ct := "application/json";
    assert forall i :: 0 <= i < |ct| ==> !('A' <= ct[i] <= 'Z');
    JsonPrefixedContentType(ct);
  }

  /** A JSON error body whose `error` is a plain string yields that string. */
  lemma JsonErrorString(head: ResponseHead, raw: string, msg: string, context: string, critical: bool)
    requires raw != "" && head.contentType.Some? && IsJsonContentType(head.contentType.value)
    ensures Classify(false, Some(head), Text(raw, Some(Obj(map["error" := Str(msg)]))), context, critical)
              == Classified(context + ": " + msg, ChannelFor(critical))
  {
  }

  /** A body that is not JSON yields the status code, written with no space. */
  lemma NonJsonBodyGivesStatus(head: ResponseHead, body: RawBody, context: string, critical: bool)
    requires head.contentType.Some? && !IsJsonContentType(head.contentType.value)
    ensures Classify(false, Some(head), body, context, critical)
              == Classified(context + ": Status code" + IntToDecimal(head.status), ChannelFor(critical))
  {
  }

  /** An absent or empty body with a response yields the status code, whatever the content type. */
  lemma EmptyBodyGivesStatus(head: ResponseHead, body: RawBody, context: string, critical: bool)
    requires !BodyTruthy(body)
    ensures Classify(false, Some(head), body, context, critical)
              == Classified(context + ": Status code" + IntToDecimal(head.status), ChannelFor(critical))
  {
  }

  /** The source's crash paths: a body with no response, or no content-type header. */
  lemma CrashesWithoutContentType(response: Option<ResponseHead>, raw: string, json: Option<Value>, context: string, critical: bool)
    requires raw != ""
    requires response.None? || response.value.contentType.None?
    ensures Classify(false, response, Text(raw, json), context, critical) == ClassifyThrew(TypeError)
  {
  }

  /** JSON content with text that does not parse throws a SyntaxError. */
  lemma UnparsableJsonThrows(head: ResponseHead, raw: string, context: string, critical: bool)
    requires raw != "" && head.contentType.Some? && IsJsonContentType(head.contentType.value)
    ensures Classify(false, Some(head), Text(raw, None), context, critical) == ClassifyThrew(SyntaxError)
  {
  }
}
