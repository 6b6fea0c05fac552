/**
 * The HTTP transport (`fetch`, node-fetch or an injected `fetchImpl`) as an external
 * service, and the response objects it resolves to. A response may offer any of the
 * body readers `arrayBuffer()`, `buffer()` and a chunked `body` stream.
 */
module Fetch {
  import opened Wrappers
  import opened Js
  import Services

  datatype RequestInit = RequestInit(httpMethod: string, headers: map<string, string>, body: Option<string>)

  /** `fetch(url, init)`; `init` is absent for a plain download. */
  datatype FetchCall = FetchCall(url: Value, init: Option<RequestInit>)

  datatype HttpResponse = HttpResponse(
    ok: bool,
    status: int,
    text: string,                        // what `text()` (and so `json()`) reads
    arrayBuffer: Option<seq<Byte>>,      // present when `arrayBuffer` is a function
    buffer: Option<seq<Byte>>,           // present when `buffer` is a function
    stream: Option<seq<seq<Byte>>>)      // the chunks of `body`, when `body` is set

  /** A fetch either throws or resolves, possibly to a nullish value. */
  type FetchReply = Result<Option<HttpResponse>, Error>

  type Transport = Services.Service<FetchCall, FetchReply>

  type FetchOracle = (seq<FetchCall>, FetchCall) -> FetchReply

  /**
   * `await response.json()` on what a fetch produced: the transport error, a TypeError
   * for a nullish response, or the SyntaxError of an unparsable body.
   */
  function ReadJson(reply: FetchReply, codec: JsonCodec): (r: Result<(HttpResponse, Value), Error>)
    ensures reply.Failure? ==> r == Failure(reply.error)
    ensures reply.Success? && reply.value.None? ==> r == Failure(TypeError)
    ensures r.Success? ==> reply == Success(Some(r.value.0)) && codec.parse(r.value.0.text) == Success(r.value.1)
    ensures reply.Success? && reply.value.Some? ==>
      var resp := reply.value.value;
      (codec.parse(resp.text).Success? ==> r == Success((resp, codec.parse(resp.text).value)))
      && (codec.parse(resp.text).Failure? ==> r == Failure(Error(None, None, codec.parse(resp.text).error)))
  {
    match reply
    case Failure(e) => Failure(e)
    case Success(None) => Failure(TypeError)
    case Success(Some(resp)) =>
      match codec.parse(resp.text)
      case Failure(msg) => Failure(Error(None, None, msg))
      case Success(v) => Success((resp, v))
  }

  /** The JSON headers the stage and webhook handlers send to the rendering service. */
  function JsonApiHeaders(apiKey: Option<string>): map<string, string> {
    map["Authorization" := "Api-Key " + EnvText(apiKey), "Content-Type" := "application/json"]
  }

  const RenderCreateUrl: string := "https://api.virtualstagingai.app/v1/render/create"

  /** The JSON body of a render/create request; it always waits for completion. */
  function RenderCreateBody(imageUrl: Value, roomType: Value, style: Value, watermark: bool): Value {
    Obj(map[
      "image_url" := imageUrl,
      "room_type" := roomType,
      "style" := style,
      "wait_for_completion" := Bool(true),
      "add_virtually_staged_watermark" := Bool(watermark)])
  }

  /** The render/create request of the stage and webhook handlers: a POST with JSON headers. */
  function RenderCreateCall(apiKey: Option<string>, codec: JsonCodec, imageUrl: Value, roomType: Value, style: Value, watermark: bool): FetchCall {
    var body := codec.stringify(RenderCreateBody(imageUrl, roomType, style, watermark));
    FetchCall(Str(RenderCreateUrl), Some(RequestInit("POST", JsonApiHeaders(apiKey), Some(body))))
  }
}
