/**
 * The finalize endpoint of api/finalize.js. Given a render id and a job id it:
 * - asks the rendering service for an unwatermarked variation;
 * - downloads it;
 * - stores it at `/renders/<job>/final.jpg` in Dropbox;
 * - answers with a direct-download link to it.
 */
module Finalize {
  import opened Wrappers
  import opened Js
  import opened Strings
  import opened Http
  import opened Fetch
  import opened Vsai
  import opened Dropbox

  const CreateVariationUrl: string := "https://api.virtualstagingai.app/v1/render/create-variation"

  const FinalizeMethods: seq<string> := ["POST", "OPTIONS"]

  // ---------------------------------------------------------------------------
  // downloadAsBuffer

  /** `Buffer.concat(chunks)`: the chunks' bytes, in order. */
  function Flatten(chunks: seq<seq<Byte>>): seq<Byte> {
    if chunks == [] then [] else Flatten(chunks[..|chunks| - 1]) + chunks[|chunks| - 1]
  }

  /** Concatenation distributes over splitting the chunk list. */
  lemma {:induction false} FlattenAppend(a: seq<seq<Byte>>, b: seq<seq<Byte>>)
    ensures Flatten(a + b) == Flatten(a) + Flatten(b)
    decreases |b|
  {
    if b == [] {
      assert a + b == a;
    } else {
      var c, front := a + b, b[..|b| - 1];
      assert c[..|c| - 1] == a + front;
      assert c[|c| - 1] == b[|b| - 1];
      calc {
        Flatten(c);
        Flatten(a + front) + b[|b| - 1];
        { FlattenAppend(a, front); }
        Flatten(a) + Flatten(front) + b[|b| - 1];
        Flatten(a) + Flatten(b);
      }
    }
  }

  /** Each chunk appears whole, in arrival order: chunk `i` starts after all earlier chunks. */
  lemma ChunkPlacement(chunks: seq<seq<Byte>>, i: int)
    requires 0 <= i < |chunks|
    ensures var before := |Flatten(chunks[..i])|;
      before + |chunks[i]| <= |Flatten(chunks)|
      && Flatten(chunks)[before..before + |chunks[i]|] == chunks[i]
  {
    assert chunks == chunks[..i] + [chunks[i]] + chunks[i + 1..];
    FlattenAppend(chunks[..i] + [chunks[i]], chunks[i + 1..]);
    FlattenAppend(chunks[..i], [chunks[i]]);
    var one: seq<seq<Byte>> := [chunks[i]];
    assert one[..0] == [];
    assert Flatten(one) == chunks[i];
  }

  /** The `Error` thrown when the download is not ok: the status, or "unknown" without a response. */
  function DownloadFailure(response: Option<HttpResponse>): Error {
    var status := if response.Some? then IntToDecimal(response.value.status) else "unknown";
    Error(None, None, "Failed to download asset (" + status + ")")
  }

  /**
   * What `downloadAsBuffer` returns or throws: an error unless the response is ok;
   * then the first body reader available, in the order `arrayBuffer()`, `buffer()`,
   * the body's chunks concatenated in order; with none of them, an error.
   */
  function DownloadResult(reply: FetchReply): (r: Result<seq<Byte>, Error>)
    ensures reply.Failure? ==> r == Failure(reply.error)
    ensures reply.Success? && (reply.value.None? || !reply.value.value.ok) ==> r == Failure(DownloadFailure(reply.value))
    ensures reply.Success? && reply.value.Some? && reply.value.value.ok ==>
      var response := reply.value.value;
      && (response.arrayBuffer.Some? ==> r == Success(response.arrayBuffer.value))
      && (response.arrayBuffer.None? && response.buffer.Some? ==> r == Success(response.buffer.value))
      && (response.arrayBuffer.None? && response.buffer.None? && response.stream.Some? ==>
            r == Success(Flatten(response.stream.value)))
      && (response.arrayBuffer.None? && response.buffer.None? && response.stream.None? ==>
            r == Failure(Error(None, None, "Response body is not readable")))
  {
    match reply
    case Failure(e) => Failure(e)
    case Success(response) =>
      if response.None? || !response.value.ok then Failure(DownloadFailure(response))
      else
        var resp := response.value;
        if resp.arrayBuffer.Some? then Success(resp.arrayBuffer.value)
        else if resp.buffer.Some? then Success(resp.buffer.value)
        else if resp.stream.Some? then Success(Flatten(resp.stream.value))
        else Failure(Error(None, None, "Response body is not readable"))
  }

  /** `downloadAsBuffer(fetchImpl, url)`: one plain fetch of `url`, then the body bytes. */
  method DownloadAsBuffer(transport: Transport, url: Value) returns (r: Result<seq<Byte>, Error>)
    modifies transport
    ensures transport.calls == old(transport.calls) + [FetchCall(url, None)]
    ensures r == DownloadResult(transport.respond(old(transport.calls), FetchCall(url, None)))
  {
    var reply := transport.Call(FetchCall(url, None));
    if reply.Failure? {
      return Failure(reply.error);
    }
    var response := reply.value;
    if response.None? || !response.value.ok {
      return Failure(DownloadFailure(response));
    }
    var resp := response.value;
    if resp.arrayBuffer.Some? {
      return Success(resp.arrayBuffer.value);
    }
    if resp.buffer.Some? {
      return Success(resp.buffer.value);
    }
    if resp.stream.Some? {
      var body := resp.stream.value;
      var chunks: seq<Byte> := [];
      var i := 0;
      while i < |body|
        invariant 0 <= i <= |body|
        invariant chunks == Flatten(body[..i])
      {
        assert body[..i + 1][..i] == body[..i];
        chunks := chunks + body[i];
        i := i + 1;
      }
      assert body[..|body|] == body;
      return Success(chunks);
    }
    return Failure(Error(None, None, "Response body is not readable"));
  }

  // ---------------------------------------------------------------------------
  // The handler

  /** The variation request: POST with the render id, waiting, and without watermark. */
  function VariationArgs(renderId: Value, apiKey: string): VsaiArgs {
    VsaiArgs(
      CreateVariationUrl,
      Some("POST"),
      Obj(map["render_id" := renderId, "wait_for_completion" := Bool(true), "add_virtually_staged_watermark" := Bool(false)]),
      map[],
      apiKey)
  }

  /** `/renders/<job>/final.jpg`: the folder between the two fixed parts is the job as text. */
  function RenderPath(jobId: Value): (p: string)
    ensures |p| >= 19 && p[..9] == "/renders/" && p[|p| - 10..] == "/final.jpg"
    ensures p[9..|p| - 10] == Display(jobId)
  {
    var p := "/renders/" + Display(jobId) + "/final.jpg";
    assert p[9..|p| - 10] == Display(jobId);
    p
  }

  /** The 200 body. */
  function FinalizedBody(jobId: Value, renderId: Value, downloadUrl: string, path: string, resultUrl: Value): Value {
    Obj(map[
      "job_id" := jobId,
      "render_id" := renderId,
      "download_url" := Str(downloadUrl),
      "download_dropbox_path" := Str(path),
      "vsai_result_url" := resultUrl])
  }

  const FinalizeFailed: Reply := Reply(500, ErrorBody("Failed to finalize render"))

  /** The reply of the `try` block and its calls to the rendering service and to Dropbox. */
  datatype PostRun = PostRun(reply: Reply, fetchCalls: seq<FetchCall>, dropboxCalls: seq<DropboxCall>)

  function FinalizePost(renderId: Value, jobId: Value, apiKey: string, codec: JsonCodec,
                        fetch: FetchOracle, fh: seq<FetchCall>, drop: DropboxOracle, dh: seq<DropboxCall>): PostRun
  {
    var call := VsaiCall(VariationArgs(renderId, apiKey), codec);
    match VsaiOutcome(fetch(fh, call), codec)
    case Failure(_) => PostRun(FinalizeFailed, [call], [])
    case Success(response) =>
      var resultUrl := Get(response.data, "result_image_url");
      if !response.ok || !Truthy(resultUrl) then
        PostRun(Reply(if response.ok then 500 else response.status, NormaliseErrorPayload(response.data, DefaultErrorMessage)), [call], [])
      else
        var download := FetchCall(resultUrl, None);
        match DownloadResult(fetch(fh + [call], download))
        case Failure(_) => PostRun(FinalizeFailed, [call, download], [])
        case Success(bytes) =>
          var path := RenderPath(jobId);
          var stored := StoreRun(path, bytes, drop, dh);
          match stored.result
          case Failure(_) => PostRun(FinalizeFailed, [call, download], stored.calls)
          case Success(downloadUrl) =>
            var body := FinalizedBody(jobId, Coalesce(Get(response.data, "render_id"), renderId), downloadUrl, path, resultUrl);
            PostRun(Reply(200, body), [call, download], stored.calls)
  }

  /** Uploading to `path` with overwrite and sharing it: the link or the error, and the Dropbox calls. */
  function StoreRun(path: string, bytes: seq<Byte>, drop: DropboxOracle, dh: seq<DropboxCall>): Step<Result<string, Error>> {
    var upload := UploadCall(UploadArgs(path, bytes, Overwrite, Some(false), Some(true)));
    match drop(dh, upload)
    case Failure(e) => Step(Failure(e), [upload])
    case Success(_) =>
      var link := EnsureSharedLinkRun(drop, dh + [upload], path);
      Step(link.result, [upload] + link.calls)
  }

  /** The response after `applyCors`. */
  function WithFinalizeCors(canSetHeader: bool, s: ResponseState): ResponseState {
    if canSetHeader then s.(headers := WithCors(s.headers, Join(FinalizeMethods, ", "), "Content-Type, Authorization")) else s
  }

  /** The checks before the `try` block, in order, as the early reply they produce. */
  function FinalizeGate(req: Request, env: Env): Option<Reply> {
    var body := Or(req.body, Obj(map[]));
    if !Truthy(Get(body, "render_id")) || !Truthy(Get(body, "job_id")) then Some(Reply(400, ErrorBody("Missing render_id or job_id")))
    else if !EnvTruthy(env.vsaiApiKey) then Some(Reply(500, ErrorBody("Missing Virtual Staging API key")))
    else if !EnvTruthy(env.dropboxAccessToken) then Some(Reply(500, ErrorBody("Missing Dropbox access token")))
    else None
  }

  datatype FinalizeRun = FinalizeRun(response: ResponseState, fetchCalls: seq<FetchCall>, dropboxCalls: seq<DropboxCall>)

  function FinalizeRunOf(canSetHeader: bool, s: ResponseState, req: Request, env: Env, codec: JsonCodec,
                         fetch: FetchOracle, fh: seq<FetchCall>, drop: DropboxOracle, dh: seq<DropboxCall>): FinalizeRun
  {
    var cors := WithFinalizeCors(canSetHeader, s);
    if req.httpMethod == "OPTIONS" then FinalizeRun(cors.(statusCode := 200, ended := true), [], [])
    else if req.httpMethod != "POST" then FinalizeRun(Replied(cors, 405, ErrorBody("Method not allowed")), [], [])
    else
      match FinalizeGate(req, env)
      case Some(early) => FinalizeRun(Replied(cors, early.status, early.body), [], [])
      case None =>
        var body := Or(req.body, Obj(map[]));
        var post := FinalizePost(Get(body, "render_id"), Get(body, "job_id"), env.vsaiApiKey.value, codec, fetch, fh, drop, dh);
        FinalizeRun(Replied(cors, post.reply.status, post.reply.body), post.fetchCalls, post.dropboxCalls)
  }

  /** The handler `createFinalizeHandler` returns. */
  method Handler(req: Request, res: ServerResponse, transport: Transport, dropbox: Client, env: Env, codec: JsonCodec)
    modifies res, transport, dropbox
    ensures var run := FinalizeRunOf(res.canSetHeader, old(res.State()), req, env, codec,
                                     transport.respond, old(transport.calls), dropbox.respond, old(dropbox.calls));
      && res.State() == run.response
      && transport.calls == old(transport.calls) + run.fetchCalls
      && dropbox.calls == old(dropbox.calls) + run.dropboxCalls
  {
    ApplyCors(res, FinalizeMethods);
    var handled := HandleOptions(req, res);
    if handled {
      return;
    }
    if req.httpMethod != "POST" {
      MethodNotAllowed(res);
      return;
    }
    var body := Or(req.body, Obj(map[]));
    var renderId := Get(body, "render_id");
    var jobId := Get(body, "job_id");
    if !Truthy(renderId) || !Truthy(jobId) {
      res.Reply(400, ErrorBody("Missing render_id or job_id"));
      return;
    }
    var apiKey := env.vsaiApiKey;
    if !EnvTruthy(apiKey) {
      res.Reply(500, ErrorBody("Missing Virtual Staging API key"));
      return;
    }
    if !EnvTruthy(env.dropboxAccessToken) {
      res.Reply(500, ErrorBody("Missing Dropbox access token"));
      return;
    }
    var reply := Finalize(renderId, jobId, apiKey.value, transport, dropbox, codec);
    res.Reply(reply.status, reply.body);
  }

  /** The `try` block: variation, download, upload and link, answered as one reply. */
  method Finalize(renderId: Value, jobId: Value, apiKey: string, transport: Transport, dropbox: Client, codec: JsonCodec)
    returns (reply: Reply)
    modifies transport, dropbox
    ensures var post := FinalizePost(renderId, jobId, apiKey, codec, transport.respond, old(transport.calls), dropbox.respond, old(dropbox.calls));
      && reply == post.reply
      && transport.calls == old(transport.calls) + post.fetchCalls
      && dropbox.calls == old(dropbox.calls) + post.dropboxCalls
  {
    var response := VsaiRequest(transport, VariationArgs(renderId, apiKey), codec);
    if response.Failure? {
      return FinalizeFailed;
    }
    var data := response.value.data;
    if !response.value.ok || !Truthy(Get(data, "result_image_url")) {
      return Reply(if response.value.ok then 500 else response.value.status, NormaliseErrorPayload(data, DefaultErrorMessage));
    }
    var finalBuffer := DownloadAsBuffer(transport, Get(data, "result_image_url"));
    if finalBuffer.Failure? {
      return FinalizeFailed;
    }
    var finalPath := RenderPath(jobId);
    var downloadUrl := StoreRender(finalPath, finalBuffer.value, dropbox);
    if downloadUrl.Failure? {
      return FinalizeFailed;
    }
    return Reply(200, FinalizedBody(jobId, Coalesce(Get(data, "render_id"), renderId), downloadUrl.value, finalPath, Get(data, "result_image_url")));
  }

  /** `uploadBuffer` with overwrite, no autorename and muted, then `ensureSharedLink` for the same path. */
  method StoreRender(path: string, bytes: seq<Byte>, dropbox: Client) returns (r: Result<string, Error>)
    modifies dropbox
    ensures var run := StoreRun(path, bytes, dropbox.respond, old(dropbox.calls));
      r == run.result && dropbox.calls == old(dropbox.calls) + run.calls
  {
    var uploaded := UploadBuffer(dropbox, UploadArgs(path, bytes, Overwrite, Some(false), Some(true)));
    if uploaded.Failure? {
      return Failure(uploaded.error);
    }
    r := EnsureSharedLink(dropbox, path);
  }

  // ---------------------------------------------------------------------------
  // Properties of the handler

  /**
   * CORS headers for POST and OPTIONS are applied first whenever the response can take
   * them; OPTIONS then ends with 200 and other non-POST methods get 405.
   */
  lemma MethodGate(canSetHeader: bool, s: ResponseState, req: Request, env: Env, codec: JsonCodec,
                   fetch: FetchOracle, fh: seq<FetchCall>, drop: DropboxOracle, dh: seq<DropboxCall>)
    requires req.httpMethod != "POST"
    ensures var run := FinalizeRunOf(canSetHeader, s, req, env, codec, fetch, fh, drop, dh);
      && run.fetchCalls == [] && run.dropboxCalls == []
      && (canSetHeader ==> "Access-Control-Allow-Methods" in run.response.headers
                           && run.response.headers["Access-Control-Allow-Methods"] == "POST, OPTIONS")
      && (req.httpMethod == "OPTIONS" ==> run.response.statusCode == 200 && run.response.ended && run.response.body == s.body)
      && (req.httpMethod != "OPTIONS" ==> run.response.statusCode == 405 && run.response.body == ErrorBody("Method not allowed"))
  {
    assert Join(FinalizeMethods, ", ") == "POST, OPTIONS";
  }

  /**
   * The checks come in a fixed order: the two ids first, then the API key, then the
   * Dropbox token; each failure is answered before anything is called.
   */
  lemma ValidationOrder(req: Request, env: Env)
    ensures var body := Or(req.body, Obj(map[]));
      var idsPresent := Truthy(Get(body, "render_id")) && Truthy(Get(body, "job_id"));
      && (!idsPresent ==> FinalizeGate(req, env) == Some(Reply(400, ErrorBody("Missing render_id or job_id"))))
      && (idsPresent && !EnvTruthy(env.vsaiApiKey) ==>
            FinalizeGate(req, env) == Some(Reply(500, ErrorBody("Missing Virtual Staging API key"))))
      && (idsPresent && EnvTruthy(env.vsaiApiKey) && !EnvTruthy(env.dropboxAccessToken) ==>
            FinalizeGate(req, env) == Some(Reply(500, ErrorBody("Missing Dropbox access token"))))
      && (FinalizeGate(req, env).None? <==> idsPresent && EnvTruthy(env.vsaiApiKey) && EnvTruthy(env.dropboxAccessToken))
  {
  }

  /** A request stopped by the checks makes no call at all. */
  lemma GateStopsCalls(canSetHeader: bool, s: ResponseState, req: Request, env: Env, codec: JsonCodec,
                       fetch: FetchOracle, fh: seq<FetchCall>, drop: DropboxOracle, dh: seq<DropboxCall>)
    requires req.httpMethod == "POST" && FinalizeGate(req, env).Some?
    ensures var run := FinalizeRunOf(canSetHeader, s, req, env, codec, fetch, fh, drop, dh);
      && run.fetchCalls == [] && run.dropboxCalls == []
      && run.response == Replied(WithFinalizeCors(canSetHeader, s), FinalizeGate(req, env).value.status, FinalizeGate(req, env).value.body)
  {
  }

  /**
   * The variation request is a POST to the create-variation endpoint whose JSON body is
   * exactly the render id, `wait_for_completion: true` and no watermark, authorised
   * with the API key.
   */
  lemma VariationRequest(renderId: Value, jobId: Value, apiKey: string, codec: JsonCodec,
                         fetch: FetchOracle, fh: seq<FetchCall>, drop: DropboxOracle, dh: seq<DropboxCall>)
    ensures var post := FinalizePost(renderId, jobId, apiKey, codec, fetch, fh, drop, dh);
      var init := RequestInitFor(VariationArgs(renderId, apiKey), codec);
      && |post.fetchCalls| >= 1
      && post.fetchCalls[0] == FetchCall(Str(CreateVariationUrl), Some(init))
      && init.httpMethod == "POST"
      && init.body == Some(codec.stringify(Obj(map["render_id" := renderId, "wait_for_completion" := Bool(true),
                                                   "add_virtually_staged_watermark" := Bool(false)])))
      && init.headers == map["Authorization" := "Api-Key " + apiKey, "Content-Type" := "application/json"]
  {
    var init := RequestInitFor(VariationArgs(renderId, apiKey), codec);
    assert init.headers.Keys == {"Authorization", "Content-Type"};
  }

  /**
   * A failed variation is answered with the provider's status when the response is
   * not ok, and 500 when it is ok but has no result URL; the body is the normalised
   * error payload, and nothing is downloaded or stored.
   */
  lemma VariationFailureStatus(renderId: Value, jobId: Value, apiKey: string, codec: JsonCodec,
                               fetch: FetchOracle, fh: seq<FetchCall>, drop: DropboxOracle, dh: seq<DropboxCall>)
    requires var outcome := VsaiOutcome(fetch(fh, VsaiCall(VariationArgs(renderId, apiKey), codec)), codec);
      outcome.Success? && (!outcome.value.ok || !Truthy(Get(outcome.value.data, "result_image_url")))
    ensures var response := VsaiOutcome(fetch(fh, VsaiCall(VariationArgs(renderId, apiKey), codec)), codec).value;
      var post := FinalizePost(renderId, jobId, apiKey, codec, fetch, fh, drop, dh);
      && post.reply.status == (if response.ok then 500 else response.status)
      && post.reply.body == NormaliseErrorPayload(response.data, DefaultErrorMessage)
      && |post.fetchCalls| == 1 && post.dropboxCalls == []
  {
  }

  /**
   * Storage: the downloaded bytes are uploaded to `/renders/<job>/final.jpg` with
   * overwrite, no autorename and muted notifications, and the shared link is made for
   * that same path; a 200 reply carries the raw-normalised link and the provider's
   * render id, falling back to the request's.
   */
  lemma StoredAtRenderPath(renderId: Value, jobId: Value, apiKey: string, codec: JsonCodec,
                           fetch: FetchOracle, fh: seq<FetchCall>, drop: DropboxOracle, dh: seq<DropboxCall>)
    requires var post := FinalizePost(renderId, jobId, apiKey, codec, fetch, fh, drop, dh);
      post.dropboxCalls != []
    ensures var post := FinalizePost(renderId, jobId, apiKey, codec, fetch, fh, drop, dh);
      var call := VsaiCall(VariationArgs(renderId, apiKey), codec);
      var response := VsaiOutcome(fetch(fh, call), codec).value;
      var download := FetchCall(Get(response.data, "result_image_url"), None);
      var bytes := DownloadResult(fetch(fh + [call], download)).value;
      && post.fetchCalls == [call, download]
      && post.dropboxCalls[0] == FilesUpload(RenderPath(jobId), bytes, Overwrite, false, true)
      && (|post.dropboxCalls| > 1 ==> post.dropboxCalls[1] == CreateSharedLink(RenderPath(jobId), None))
      && (post.reply.status == 200 ==>
            var link := EnsureSharedLinkRun(drop, dh + [post.dropboxCalls[0]], RenderPath(jobId));
            && link.result.Success?
            && post.reply.body == FinalizedBody(jobId, Coalesce(Get(response.data, "render_id"), renderId),
                                                link.result.value, RenderPath(jobId), Get(response.data, "result_image_url")))
  {
    var call := VsaiCall(VariationArgs(renderId, apiKey), codec);
    var outcome := VsaiOutcome(fetch(fh, call), codec);
    if outcome.Success? && outcome.value.ok && Truthy(Get(outcome.value.data, "result_image_url")) {
      var download := FetchCall(Get(outcome.value.data, "result_image_url"), None);
      var bytes := DownloadResult(fetch(fh + [call], download));
      if bytes.Success? {
        StoreRunShape(RenderPath(jobId), bytes.value, drop, dh);
      }
    }
  }

  /** The upload comes first, and the shared link is asked for the path just written. */
  lemma StoreRunShape(path: string, bytes: seq<Byte>, drop: DropboxOracle, dh: seq<DropboxCall>)
    ensures var stored := StoreRun(path, bytes, drop, dh);
      var upload := FilesUpload(path, bytes, Overwrite, false, true);
      && stored.calls != [] && stored.calls[0] == upload
      && (|stored.calls| > 1 ==> stored.calls[1] == CreateSharedLink(path, None))
      && (stored.result.Success? ==> stored.result == EnsureSharedLinkRun(drop, dh + [upload], path).result)
  {
  }

  /**
   * Every error thrown inside the `try` block is answered 500 "Failed to finalize render":
   * a thrown variation request, and after an accepted variation either that answer or a
   * 200 sent only after the download and the Dropbox calls (`StoredAtRenderPath` gives its
   * body); a refused variation is answered with its own payload.
   */
  lemma ThrownErrorsAnswered(renderId: Value, jobId: Value, apiKey: string, codec: JsonCodec,
                             fetch: FetchOracle, fh: seq<FetchCall>, drop: DropboxOracle, dh: seq<DropboxCall>)
    ensures var post := FinalizePost(renderId, jobId, apiKey, codec, fetch, fh, drop, dh);
      var outcome := VsaiOutcome(fetch(fh, VsaiCall(VariationArgs(renderId, apiKey), codec)), codec);
      && (outcome.Failure? ==> post.reply == FinalizeFailed)
      && (outcome.Success? && !(outcome.value.ok && Truthy(Get(outcome.value.data, "result_image_url"))) ==>
            post.reply.body == NormaliseErrorPayload(outcome.value.data, DefaultErrorMessage))
      && (outcome.Success? && outcome.value.ok && Truthy(Get(outcome.value.data, "result_image_url")) ==>
            || post.reply == FinalizeFailed
            || (post.reply.status == 200 && |post.fetchCalls| == 2 && post.dropboxCalls != []))
  {
    var call := VsaiCall(VariationArgs(renderId, apiKey), codec);
    var outcome := VsaiOutcome(fetch(fh, call), codec);
    if outcome.Success? && outcome.value.ok && Truthy(Get(outcome.value.data, "result_image_url")) {
      var download := FetchCall(Get(outcome.value.data, "result_image_url"), None);
      var bytes := DownloadResult(fetch(fh + [call], download));
      if bytes.Success? {
        StoreRunShape(RenderPath(jobId), bytes.value, drop, dh);
      }
    }
  }
}
