/**
 * The checkout endpoint of api/checkout.js: it checks that the request names a
 * staging job (job id, Dropbox path and image URL in its metadata), then creates a
 * Stripe checkout session for one image and answers with the session's URL.
 */
module Checkout {
  import opened Wrappers
  import opened Js
  import opened Http
  import opened Stripe
  import StripeWebhook

  const ProductName: string := "Virtual Staging Image"

  const CheckoutFailed: Reply := Reply(500, ErrorBody("Stripe checkout failed"))

  const MissingMetadata: Reply := Reply(400, ErrorBody("Missing staging metadata"))

  /** `const { amount, currency, metadata = {}, customer_email } = req.body`. */
  datatype CheckoutRequest = CheckoutRequest(amount: Value, currency: Value, metadata: Value, customerEmail: Value)

  /** The destructuring default `metadata = {}`, which replaces `undefined` only. */
  function MetadataOf(body: Value): Value {
    var m := Get(body, "metadata");
    if m.Undefined? then Obj(map[]) else m
  }

  /** The metadata names a staging job: a job id, a Dropbox path and an image URL, all truthy. */
  predicate HasStagingMetadata(m: Value) {
    Truthy(Get(m, "job_id")) && Truthy(Get(m, "dropbox_path")) && Truthy(Get(m, "image_url"))
  }

  /**
   * The body checks before Stripe is called. Destructuring a null or undefined body,
   * or reading `job_id` of a null metadata, throws, and the catch answers 500;
   * metadata that does not name a staging job is answered 400.
   */
  function CheckoutInput(body: Value): (r: Result<CheckoutRequest, Reply>)
    ensures r.Success? <==> !Nullish(body) && HasStagingMetadata(MetadataOf(body))
    ensures Nullish(body) || Get(body, "metadata").Null? ==> r == Failure(CheckoutFailed)
    ensures !Nullish(body) && !Get(body, "metadata").Null? && !HasStagingMetadata(MetadataOf(body)) ==>
      r == Failure(MissingMetadata)
    ensures r.Success? ==>
      r.value == CheckoutRequest(Get(body, "amount"), Get(body, "currency"), MetadataOf(body), Get(body, "customer_email"))
  {
    if Nullish(body) then Failure(CheckoutFailed)
    else
      var metadata := MetadataOf(body);
      match Prop(metadata, "job_id")
      case Failure(_) => Failure(CheckoutFailed)
      case Success(jobId) =>
        if !Truthy(jobId) || !Truthy(Get(metadata, "dropbox_path")) || !Truthy(Get(metadata, "image_url")) then
          Failure(MissingMetadata)
        else
          Success(CheckoutRequest(Get(body, "amount"), Get(body, "currency"), metadata, Get(body, "customer_email")))
  }

  /**
   * The session's metadata: the job id, Dropbox path and image URL copied as they
   * are, and the room type and style copied when truthy, else the empty string.
   */
  function SessionMetadata(m: Value): (r: Value)
    ensures r.Obj? && r.fields.Keys == {"job_id", "dropbox_path", "image_url", "room_type", "style"}
    ensures Get(r, "job_id") == Get(m, "job_id")
    ensures Get(r, "dropbox_path") == Get(m, "dropbox_path")
    ensures Get(r, "image_url") == Get(m, "image_url")
    ensures HasStagingMetadata(r) <==> HasStagingMetadata(m)
    ensures Truthy(Get(m, "room_type")) ==> Get(r, "room_type") == Get(m, "room_type")
    ensures !Truthy(Get(m, "room_type")) ==> Get(r, "room_type") == Str("")
    ensures Truthy(Get(m, "style")) ==> Get(r, "style") == Get(m, "style")
    ensures !Truthy(Get(m, "style")) ==> Get(r, "style") == Str("")
  {
    Obj(map[
      "job_id" := Get(m, "job_id"),
      "dropbox_path" := Get(m, "dropbox_path"),
      "image_url" := Get(m, "image_url"),
      "room_type" := Or(Get(m, "room_type"), Str("")),
      "style" := Or(Get(m, "style"), Str(""))])
  }

  /** The one line item: the requested currency and amount for one staged image. */
  function LineItem(input: CheckoutRequest): Value {
    Obj(map[
      "price_data" := Obj(map[
        "currency" := input.currency,
        "product_data" := Obj(map["name" := Str(ProductName)]),
        "unit_amount" := input.amount]),
      "quantity" := Num(1)])
  }

  /** The parameters of `stripe.checkout.sessions.create`. */
  function SessionParams(input: CheckoutRequest, siteUrl: Option<string>): Value {
    Obj(map[
      "payment_method_types" := Arr([Str("card")]),
      "line_items" := Arr([LineItem(input)]),
      "mode" := Str("payment"),
      "success_url" := Str(EnvText(siteUrl) + "/thank-you"),
      "cancel_url" := Str(EnvText(siteUrl) + "/cancel"),
      "customer_email" := input.customerEmail,
      "metadata" := SessionMetadata(input.metadata)])
  }

  datatype CheckoutRun = CheckoutRun(response: ResponseState, escaped: Option<Error>, stripeCalls: seq<StripeCall>)

  function CheckoutRunOf(canSetHeader: bool, s: ResponseState, req: Request, env: Env,
                         stripe: StripeOracle, sh: seq<StripeCall>): CheckoutRun
  {
    if req.httpMethod == "OPTIONS" then
      if canSetHeader then CheckoutRun(Preflighted(s, "POST, OPTIONS", "Content-Type"), None, [])
      else CheckoutRun(s, Some(TypeError), [])
    else if req.httpMethod != "POST" then
      CheckoutRun(Replied(s, 405, ErrorBody("Method not allowed")), None, [])
    else
      match CheckoutInput(req.body)
      case Failure(reply) => CheckoutRun(Replied(s, reply.status, reply.body), None, [])
      case Success(input) =>
        var call := CreateCheckoutSession(SessionParams(input, env.siteUrl));
        match stripe(sh, call)
        case Failure(_) => CheckoutRun(Replied(s, CheckoutFailed.status, CheckoutFailed.body), None, [call])
        case Success(session) => CheckoutRun(Replied(s, 200, Obj(map["url" := SessionUrl(session)])), None, [call])
  }

  /** The default `handler` of api/checkout.js. */
  method Handler(req: Request, res: ServerResponse, stripe: StripeClient, env: Env) returns (escaped: Option<Error>)
    modifies res, stripe
    ensures var run := CheckoutRunOf(res.canSetHeader, old(res.State()), req, env, stripe.respond, old(stripe.calls));
      && res.State() == run.response
      && escaped == run.escaped
      && stripe.calls == old(stripe.calls) + run.stripeCalls
  {
    if req.httpMethod == "OPTIONS" {
      if !res.canSetHeader {
        return Some(TypeError);
      }
      res.Preflight("POST, OPTIONS", "Content-Type");
      return None;
    }
    escaped := None;
    if req.httpMethod != "POST" {
      res.Reply(405, ErrorBody("Method not allowed"));
      return;
    }
    var input := CheckoutInput(req.body);
    if input.Failure? {
      res.Reply(input.error.status, input.error.body);
      return;
    }
    var session := stripe.Call(CreateCheckoutSession(SessionParams(input.value, env.siteUrl)));
    if session.Failure? {
      res.Reply(CheckoutFailed.status, CheckoutFailed.body);
      return;
    }
    res.Reply(200, Obj(map["url" := SessionUrl(session.value)]));
  }

  // ---------------------------------------------------------------------------
  // Properties

  /** OPTIONS is a preflight allowing POST; other non-POST methods get 405; Stripe is not called. */
  lemma MethodGate(canSetHeader: bool, s: ResponseState, req: Request, env: Env, stripe: StripeOracle, sh: seq<StripeCall>)
    requires req.httpMethod != "POST"
    ensures var run := CheckoutRunOf(canSetHeader, s, req, env, stripe, sh);
      && run.stripeCalls == []
      && (req.httpMethod == "OPTIONS" && canSetHeader ==>
            run.escaped == None && run.response.statusCode == 200 && run.response.ended
            && run.response.headers["Access-Control-Allow-Methods"] == "POST, OPTIONS")
      && (req.httpMethod != "OPTIONS" ==>
            run.escaped == None && run.response.statusCode == 405 && run.response.body == ErrorBody("Method not allowed"))
  {
  }

  /** A request whose metadata does not name a staging job is refused before Stripe is called. */
  lemma RejectedWithoutStripeCall(canSetHeader: bool, s: ResponseState, req: Request, env: Env, stripe: StripeOracle, sh: seq<StripeCall>)
    requires req.httpMethod == "POST"
    requires Nullish(req.body) || !HasStagingMetadata(MetadataOf(req.body))
    ensures var run := CheckoutRunOf(canSetHeader, s, req, env, stripe, sh);
      && run.stripeCalls == []
      && run.escaped == None
      && (run.response.statusCode == 400 || run.response.statusCode == 500)
      && (!Nullish(req.body) && !Get(req.body, "metadata").Null? ==>
            run.response.statusCode == 400 && run.response.body == ErrorBody("Missing staging metadata"))
  {
  }

  /**
   * The session has exactly one line item, of the requested currency and amount and
   * quantity 1, and redirects to the site's thank-you and cancel pages.
   */
  lemma SessionShape(input: CheckoutRequest, siteUrl: Option<string>)
    ensures var params := SessionParams(input, siteUrl);
      var items := Get(params, "line_items");
      && items.Arr? && |items.items| == 1
      && Get(Get(items.items[0], "price_data"), "currency") == input.currency
      && Get(Get(items.items[0], "price_data"), "unit_amount") == input.amount
      && Get(items.items[0], "quantity") == Num(1)
      && Get(params, "mode") == Str("payment")
      && Get(params, "success_url") == Str(EnvText(siteUrl) + "/thank-you")
      && Get(params, "cancel_url") == Str(EnvText(siteUrl) + "/cancel")
      && Get(params, "customer_email") == input.customerEmail
  {
  }

  /**
   * A valid request reaches Stripe exactly once, with the session parameters built
   * from it; Stripe's failure is answered 500 and its session with 200 `{url}`.
   */
  lemma SessionReply(canSetHeader: bool, s: ResponseState, req: Request, env: Env, stripe: StripeOracle, sh: seq<StripeCall>)
    requires req.httpMethod == "POST" && CheckoutInput(req.body).Success?
    ensures var run := CheckoutRunOf(canSetHeader, s, req, env, stripe, sh);
      var call := CreateCheckoutSession(SessionParams(CheckoutInput(req.body).value, env.siteUrl));
      && run.stripeCalls == [call]
      && run.escaped == None
      && (stripe(sh, call).Failure? ==> run.response == Replied(s, 500, ErrorBody("Stripe checkout failed")))
      && (stripe(sh, call).Success? ==> run.response == Replied(s, 200, Obj(map["url" := SessionUrl(stripe(sh, call).value)])))
  {
  }

  /**
   * What checkout writes is what the webhook reads: a completed session carrying the
   * metadata checkout created yields an order for the same job, path and image, with
   * the room type and style defaulted to the empty string.
   */
  lemma CheckoutFeedsWebhook(input: CheckoutRequest, siteUrl: Option<string>, id: Value, details: Value, email: Value)
    requires HasStagingMetadata(input.metadata)
    ensures var metadata := Get(SessionParams(input, siteUrl), "metadata");
      var order := StripeWebhook.OrderOf(CheckoutSession(id, metadata, details, email));
      && order.Success?
      && order.value.jobId == Get(input.metadata, "job_id")
      && order.value.dropboxPath == Get(input.metadata, "dropbox_path")
      && order.value.imageUrl == Get(input.metadata, "image_url")
      && order.value.roomType == Or(Get(input.metadata, "room_type"), Str(""))
      && order.value.style == Or(Get(input.metadata, "style"), Str(""))
  {
    var metadata := SessionMetadata(input.metadata);
    assert Get(SessionParams(input, siteUrl), "metadata") == metadata;
    assert Or(metadata, Obj(map[])) == metadata;
  }
}
