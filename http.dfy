/**
 * The request and response objects the handlers see, and the shared response helpers
 * of api/_utils/http.js: `applyCors`, `handleOptions`, `methodNotAllowed` and
 * `normaliseErrorPayload`.
 */
module Http {
  import opened Wrappers
  import opened Js
  import Strings

  /** An incoming request: its method, headers, parsed body and raw body bytes. */
  datatype Request = Request(httpMethod: string, headers: map<string, string>, body: Value, rawBody: seq<Byte>)

  /** What a response object holds: status, headers, body (undefined until sent) and whether it ended. */
  datatype ResponseState = ResponseState(statusCode: int, headers: map<string, string>, body: Value, ended: bool)

  /** A status and a JSON body, as a handler decides to send them. */
  datatype Reply = Reply(status: int, body: Value)

  /** `res.status(code).json(body)`. */
  function Replied(s: ResponseState, code: int, body: Value): ResponseState {
    s.(statusCode := code, body := body, ended := true)
  }

  /** The three CORS headers written by `applyCors` and by the inline preflight branches. */
  function WithCors(h: map<string, string>, methods: string, allowHeaders: string): map<string, string> {
    h["Access-Control-Allow-Origin" := "*"]["Access-Control-Allow-Methods" := methods]["Access-Control-Allow-Headers" := allowHeaders]
  }

  /** The inline preflight branch: three CORS headers, then `res.status(200).end()`. */
  function Preflighted(s: ResponseState, methods: string, allowHeaders: string): (r: ResponseState)
    ensures r.statusCode == 200 && r.ended && r.body == s.body
    ensures "Access-Control-Allow-Methods" in r.headers && r.headers["Access-Control-Allow-Methods"] == methods
    ensures "Access-Control-Allow-Headers" in r.headers && r.headers["Access-Control-Allow-Headers"] == allowHeaders
    ensures "Access-Control-Allow-Origin" in r.headers && r.headers["Access-Control-Allow-Origin"] == "*"
  {
    s.(headers := WithCors(s.headers, methods, allowHeaders), statusCode := 200, ended := true)
  }

  /**
   * A response object. `canSetHeader` records whether it offers `setHeader`
   * (`applyCors` checks `typeof res.setHeader === "function"`).
   */
  class ServerResponse {
    var statusCode: int
    var headers: map<string, string>
    var body: Value
    var ended: bool
    const canSetHeader: bool

    function State(): ResponseState
      reads this
    {
      ResponseState(statusCode, headers, body, ended)
    }

    /** A fresh response: status 200, no headers, no body, not ended. */
    constructor (canSetHeader: bool)
      ensures State() == ResponseState(200, map[], Undefined, false)
      ensures this.canSetHeader == canSetHeader
    {
      statusCode := 200;
      headers := map[];
      body := Undefined;
      ended := false;
      this.canSetHeader := canSetHeader;
    }

    method SetHeader(name: string, value: string)
      requires canSetHeader
      modifies this
      ensures State() == old(State()).(headers := old(headers)[name := value])
    {
      headers := headers[name := value];
    }

    method Status(code: int)
      modifies this
      ensures State() == old(State()).(statusCode := code)
    {
      statusCode := code;
    }

    /** `res.json(payload)`: sets the body and sends the response. */
    method Json(payload: Value)
      modifies this
      ensures State() == old(State()).(body := payload, ended := true)
    {
      body := payload;
      ended := true;
    }

    /** `res.end()` without a payload. */
    method End()
      modifies this
      ensures State() == old(State()).(ended := true)
    {
      ended := true;
    }

    /** `res.status(code).json(payload)`. */
    method Reply(code: int, payload: Value)
      modifies this
      ensures State() == Replied(old(State()), code, payload)
    {
      Status(code);
      Json(payload);
    }

    /** The inline preflight branch of the stage, checkout and webhook handlers. */
    method Preflight(methods: string, allowHeaders: string)
      requires canSetHeader
      modifies this
      ensures State() == Preflighted(old(State()), methods, allowHeaders)
    {
      SetHeader("Access-Control-Allow-Origin", "*");
      SetHeader("Access-Control-Allow-Methods", methods);
      SetHeader("Access-Control-Allow-Headers", allowHeaders);
      Status(200);
      End();
    }
  }

  const DefaultCorsMethods: seq<string> := ["GET", "POST", "OPTIONS"]

  /**
   * `applyCors(res, methods)`: when the response can take headers, allow any origin,
   * the given methods joined by ", ", and the Content-Type and Authorization headers;
   * otherwise leave the response alone.
   */
  method ApplyCors(res: ServerResponse, methods: seq<string>)
    modifies res
    ensures res.canSetHeader ==>
      res.State() == old(res.State()).(headers := WithCors(old(res.headers), Strings.Join(methods, ", "), "Content-Type, Authorization"))
    ensures !res.canSetHeader ==> res.State() == old(res.State())
  {
    if res.canSetHeader {
      res.SetHeader("Access-Control-Allow-Origin", "*");
      res.SetHeader("Access-Control-Allow-Methods", Strings.Join(methods, ", "));
      res.SetHeader("Access-Control-Allow-Headers", "Content-Type, Authorization");
    }
  }

  /** `handleOptions(req, res)`: answers a preflight with 200 and reports whether it did. */
  method HandleOptions(req: Request, res: ServerResponse) returns (handled: bool)
    modifies res
    ensures handled <==> req.httpMethod == "OPTIONS"
    ensures handled ==> res.State() == old(res.State()).(statusCode := 200, ended := true)
    ensures !handled ==> res.State() == old(res.State())
  {
    if req.httpMethod == "OPTIONS" {
      res.Status(200);
      res.End();
      return true;
    }
    return false;
  }

  /** `methodNotAllowed(res)`: 405 with `{error: "Method not allowed"}`. */
  method MethodNotAllowed(res: ServerResponse)
    modifies res
    ensures res.State() == Replied(old(res.State()), 405, ErrorBody("Method not allowed"))
  {
    res.Reply(405, ErrorBody("Method not allowed"));
  }

  const DefaultErrorMessage: string := "VSAI request failed"

  /**
   * `normaliseErrorPayload(payload, fallbackMessage)`: an object payload is passed
   * through; null and undefined become `{error: fallback}`; any other primitive
   * becomes `{error: fallback, details: payload}`.
   */
  function NormaliseErrorPayload(payload: Value, fallback: string): (r: Value)
    ensures IsObject(r)
    ensures IsObject(payload) ==> r == payload
    ensures Nullish(payload) ==> r == ErrorBody(fallback)
    ensures !IsObject(payload) && !Nullish(payload) ==>
      && r.Obj? && r.fields.Keys == {"error", "details"}
      && r.fields["error"] == Str(fallback) && r.fields["details"] == payload
  {
    if Truthy(payload) && IsObject(payload) then payload
    else if Nullish(payload) then ErrorBody(fallback)
    else ErrorDetails(fallback, payload)
  }

  /** Normalising twice is the same as normalising once. */
  lemma NormaliseIdempotent(payload: Value, fallback: string)
    ensures NormaliseErrorPayload(NormaliseErrorPayload(payload, fallback), fallback)
         == NormaliseErrorPayload(payload, fallback)
  {
  }

  /**
   * Falsy primitives other than null/undefined (false, 0, "") are kept as details. These are
   * instances of `NormaliseErrorPayload`'s non-object case, spelled out because such a
   * payload fails the truthiness test of the object branch yet is not nullish either.
   */
  lemma NormaliseKeepsFalsyDetails(fallback: string)
    ensures NormaliseErrorPayload(Bool(false), fallback) == ErrorDetails(fallback, Bool(false))
    ensures NormaliseErrorPayload(Str(""), fallback) == ErrorDetails(fallback, Str(""))
    ensures NormaliseErrorPayload(Num(0), fallback) == ErrorDetails(fallback, Num(0))
  {
  }
}
