/**
 * `createVsaiRequest`'s `vsaiRequest` (api/_utils/vsai.js): builds the request for the
 * rendering service, sends it, and decodes the response text.
 */
module Vsai {
  import opened Wrappers
  import opened Js
  import opened Fetch

  /** The options object of `vsaiRequest`; `httpMethod` is absent when the caller gave none. */
  datatype VsaiArgs = VsaiArgs(
    url: string,
    httpMethod: Option<string>,
    body: Value,                       // Undefined when no body was given
    headers: map<string, string>,      // `{}` when no headers were given
    apiKey: string)

  /** `{ok, status, data}`. */
  datatype VsaiResponse = VsaiResponse(ok: bool, status: int, data: Value)

  /**
   * The init object `vsaiRequest` hands to fetch. The method defaults to GET. The
   * Authorization header is `Api-Key <key>` unless the caller supplied one. A string
   * body is sent verbatim and any other defined body JSON-serialised. Content-Type
   * becomes application/json only when there is a body and the caller set none.
   * The caller's headers are kept as given, and no other header is added.
   */
  function RequestInitFor(args: VsaiArgs, codec: JsonCodec): (init: RequestInit)
    ensures init.httpMethod == (if args.httpMethod.Some? then args.httpMethod.value else "GET")
    ensures init.body.None? <==> args.body.Undefined?
    ensures args.body.Str? ==> init.body == Some(args.body.s)
    ensures !args.body.Str? && !args.body.Undefined? ==> init.body == Some(codec.stringify(args.body))
    ensures "Authorization" in init.headers
    ensures "Authorization" !in args.headers ==> init.headers["Authorization"] == "Api-Key " + args.apiKey
    ensures forall k :: k in args.headers ==> k in init.headers && init.headers[k] == args.headers[k]
    ensures init.headers.Keys == args.headers.Keys + {"Authorization"}
                                 + (if args.body.Undefined? then {} else {"Content-Type"})
    ensures !args.body.Undefined? && "Content-Type" !in args.headers ==>
      init.headers["Content-Type"] == "application/json"
  {
    var headers := map["Authorization" := "Api-Key " + args.apiKey] + args.headers;
    var httpMethod := if args.httpMethod.Some? then args.httpMethod.value else "GET";
    if args.body.Undefined? then
      RequestInit(httpMethod, headers, None)
    else
      var text := if args.body.Str? then args.body.s else codec.stringify(args.body);
      var withType := if "Content-Type" in headers then headers else headers["Content-Type" := "application/json"];
      RequestInit(httpMethod, withType, Some(text))
  }

  /** `data`: null for empty text, the parsed JSON when it parses, else the raw text. */
  function ResponseData(raw: string, codec: JsonCodec): (data: Value)
    ensures raw == "" ==> data == Null
    ensures raw != "" && codec.parse(raw).Success? ==> data == codec.parse(raw).value
    ensures raw != "" && codec.parse(raw).Failure? ==> data == Str(raw)
  {
    if raw == "" then Null
    else match codec.parse(raw)
      case Success(v) => v
      case Failure(_) => Str(raw)
  }

  /** What `vsaiRequest` resolves to (or throws) given what the fetch produced. */
  function VsaiOutcome(reply: FetchReply, codec: JsonCodec): (r: Result<VsaiResponse, Error>)
    ensures reply.Failure? ==> r == Failure(reply.error)
    ensures reply == Success(None) ==> r == Failure(TypeError)
    ensures reply.Success? && reply.value.Some? ==>
      var resp := reply.value.value;
      && r.Success? && r.value.ok == resp.ok && r.value.status == resp.status
      && r.value.data == ResponseData(resp.text, codec)
  {
    match reply
    case Failure(e) => Failure(e)
    case Success(None) => Failure(TypeError)
    case Success(Some(resp)) => Success(VsaiResponse(resp.ok, resp.status, ResponseData(resp.text, codec)))
  }

  /** The one call `vsaiRequest` makes. */
  function VsaiCall(args: VsaiArgs, codec: JsonCodec): FetchCall {
    FetchCall(Str(args.url), Some(RequestInitFor(args, codec)))
  }

  /** `vsaiRequest(args)`: exactly one fetch, with the init object built from `args`. */
  method VsaiRequest(transport: Transport, args: VsaiArgs, codec: JsonCodec) returns (r: Result<VsaiResponse, Error>)
    modifies transport
    ensures transport.calls == old(transport.calls) + [VsaiCall(args, codec)]
    ensures r == VsaiOutcome(transport.respond(old(transport.calls), VsaiCall(args, codec)), codec)
  {
    var requestHeaders := map["Authorization" := "Api-Key " + args.apiKey] + args.headers;
    var body: Option<string> := None;
    if !args.body.Undefined? {
      body := Some(if args.body.Str? then args.body.s else codec.stringify(args.body));
      if "Content-Type" !in requestHeaders {
        requestHeaders := requestHeaders["Content-Type" := "application/json"];
      }
    }
    var init := RequestInit(if args.httpMethod.Some? then args.httpMethod.value else "GET", requestHeaders, body);
    assert init == RequestInitFor(args, codec);
    var reply := transport.Call(FetchCall(Str(args.url), Some(init)));
    match reply {
      case Failure(e) =>
        return Failure(e);
      case Success(None) =>
        return Failure(TypeError);
      case Success(Some(response)) =>
        var raw := response.text;
        var data := Null;
        if raw != "" {
          match codec.parse(raw) {
            case Success(v) => data := v;
            case Failure(_) => data := Str(raw);
          }
        }
        return Success(VsaiResponse(response.ok, response.status, data));
    }
  }

  /** A caller-supplied Authorization header wins over the API key. */
  lemma CallerAuthorizationWins(args: VsaiArgs, codec: JsonCodec)
    requires "Authorization" in args.headers
    ensures RequestInitFor(args, codec).headers["Authorization"] == args.headers["Authorization"]
  {
  }
}
