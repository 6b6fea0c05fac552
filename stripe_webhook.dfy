/**
 * The payment webhook of api/stripe-webhook.js. A verified
 * `checkout.session.completed` event for a staged image triggers fulfilment:
 * - request the unwatermarked render and download it;
 * - store it under `/final/` in Dropbox;
 * - obtain a link for it, by a three-tier fallback;
 * - share it with the payer, on a best-effort basis.
 */
module StripeWebhook {
  import opened Wrappers
  import opened Js
  import opened Strings
  import opened Http
  import opened Fetch
  import opened Dropbox
  import opened Stripe

  const CompletedEventType: string := "checkout.session.completed"

  // ---------------------------------------------------------------------------
  // ensureFolder

  /** `path.substring(0, path.lastIndexOf("/"))`: the text before the last `/`, or "" without one. */
  function ParentFolder(p: string): (r: string)
    ensures '/' !in p ==> r == ""
    ensures '/' in p ==> |r| < |p| && r == p[..|r|] && p[|r|] == '/'
    ensures forall j :: |r| < j < |p| ==> p[j] != '/'
  {
    var k := LastIndexOf(p, '/');
    if k < 0 then "" else p[..k]
  }

  /** What `ensureFolder(dropbox, path)` returns or throws, and the calls it makes. */
  function EnsureFolderRun(drop: DropboxOracle, h: seq<DropboxCall>, path: string): Step<Outcome<Error>> {
    var folder := ParentFolder(path);
    if folder == "" then Step(Pass, [])
    else
      var create := CreateFolder(folder, false);
      match drop(h, create)
      case Success(_) => Step(Pass, [create])
      case Failure(e) => if e.status == Some(409) then Step(Pass, [create]) else Step(Fail(e), [create])
  }

  /** `ensureFolder(dropbox, path)`: create the parent folder of `path`, tolerating a conflict. */
  method EnsureFolder(dropbox: Client, path: string) returns (r: Outcome<Error>)
    modifies dropbox
    ensures var run := EnsureFolderRun(dropbox.respond, old(dropbox.calls), path);
      r == run.result && dropbox.calls == old(dropbox.calls) + run.calls
  {
    var folderPath := ParentFolder(path);
    if folderPath == "" {
      return Pass;
    }
    var created := dropbox.Call(CreateFolder(folderPath, false));
    if created.Failure? && created.error.status != Some(409) {
      return Fail(created.error);
    }
    return Pass;
  }

  /**
   * No call when the parent is empty; otherwise one non-renaming folder creation for
   * the parent, where a 409 conflict counts as success and any other error is rethrown.
   */
  lemma EnsureFolderOutcome(drop: DropboxOracle, h: seq<DropboxCall>, path: string)
    ensures var run := EnsureFolderRun(drop, h, path);
      var folder := ParentFolder(path);
      var reply := drop(h, CreateFolder(folder, false));
      && (run.calls == [] <==> folder == "")
      && (folder != "" ==> run.calls == [CreateFolder(folder, false)])
      && (run.result.Fail? <==> folder != "" && reply.Failure? && reply.error.status != Some(409))
      && (run.result.Fail? ==> run.result.error == reply.error)
  {
  }

  // ---------------------------------------------------------------------------
  // Final path

  predicate InUploads(p: string) {
    |p| >= 9 && p[..9] == "/uploads/"
  }

  /**
   * Where the paid image is stored: a leading `/uploads/` becomes `/final/`; any other
   * path gets a leading `/` if it lacks one, is put under `/final`, and has every run of
   * slashes collapsed. Either way the result starts with `/final/`; `FinalPathCharacters`,
   * `FinalPathPieces`, `FinalPathEnd` and `FinalOfEmpty` say what the collapsing keeps.
   */
  function FinalPath(p: string): (r: string)
    ensures |r| >= 7 && r[..7] == "/final/"
    ensures InUploads(p) ==> r == "/final/" + p[9..]
    ensures !InUploads(p) ==> NoDoubleSlash(r)
  {
    if InUploads(p) then "/final/" + p[9..]
    else
      var normalized := if |p| > 0 && p[0] == '/' then p else "/" + p;
      FinalCollapsePrefix(normalized);
      CollapseSlashes("/final" + normalized)
  }

  /** Outside `/uploads/`, only slashes are added or removed: the other characters are `final` and those of `p`. */
  lemma FinalPathCharacters(p: string)
    requires !InUploads(p)
    ensures WithoutSlashes(FinalPath(p)) == "final" + WithoutSlashes(p)
  {
    var q := if |p| > 0 && p[0] == '/' then p else "/" + p;
    assert WithoutSlashes(q) == WithoutSlashes(p);
    FinalCollapseChars(q);
  }

  /**
   * Outside `/uploads/`, no folder or file name of the path is lost or merged: the
   * pieces between slashes are `final` followed by those of `p`.
   */
  lemma FinalPathPieces(p: string)
    requires !InUploads(p)
    ensures Segments(FinalPath(p)) == ["final"] + Segments(p)
  {
    var q := if |p| > 0 && p[0] == '/' then p else "/" + p;
    FinalIsCollapsed(p, q);
    PiecesUnderFinal(p, q, FinalPath(p));
  }

  lemma PiecesUnderFinal(p: string, q: string, r: string)
    requires q == if |p| > 0 && p[0] == '/' then p else "/" + p
    requires r == CollapseSlashes(['/'] + ("final" + q))
    ensures Segments(r) == ["final"] + Segments(p)
  {
    NormalizedPieces(p, q);
    WordPieces("final", q);
  }

  /** Outside `/uploads/`, the path ends the way `p` does: a trailing slash stays a trailing slash. */
  lemma FinalPathEnd(p: string, c: char)
    requires !InUploads(p) && p != []
    ensures EndsWith(FinalPath(p), c) <==> EndsWith(p, c)
  {
    var q := if |p| > 0 && p[0] == '/' then p else "/" + p;
    FinalIsCollapsed(p, q);
    EndUnderFinal(p, q, c);
  }

  lemma EndUnderFinal(p: string, q: string, c: char)
    requires p != [] && q == if |p| > 0 && p[0] == '/' then p else "/" + p
    ensures EndsWith(CollapseSlashes(['/'] + ("final" + q)), c) <==> EndsWith(p, c)
  {
    CollapseKeepsEnd(['/'] + ("final" + q), c);
    EndsWithAppend(['/'] + "final", q, c);
    assert ['/'] + ("final" + q) == (['/'] + "final") + q;
    if q != p {
      EndsWithAppend("/", p, c);
    }
  }

  lemma FinalIsCollapsed(p: string, q: string)
    requires !InUploads(p) && q == if |p| > 0 && p[0] == '/' then p else "/" + p
    ensures FinalPath(p) == CollapseSlashes(['/'] + ("final" + q))
  {
    FinalSplit(q);
  }

  /** The empty path is stored as `/final/`. */
  lemma FinalOfEmpty()
    ensures FinalPath("") == "/final/"
  {
    CollapseUnderFinal("/");
    assert CollapseSlashes("/") == "/";
  }

  /** Adding a missing leading slash does not change the pieces. */
  lemma NormalizedPieces(p: string, q: string)
    requires q == if |p| > 0 && p[0] == '/' then p else "/" + p
    ensures q != [] && q[0] == '/' && Segments(q) == Segments(p)
  {
    if !(|p| > 0 && p[0] == '/') {
      SegmentsAfterSlash(p);
    }
  }

  /** Putting `q` under the folder `/w` and collapsing the slashes adds one piece, `w`, in front of the pieces of `q`. */
  lemma WordPieces(w: string, q: string)
    requires w != [] && '/' !in w && q != [] && q[0] == '/'
    ensures Segments(CollapseSlashes(['/'] + (w + q))) == [w] + Segments(q)
  {
    CollapseKeepsSegments(['/'] + (w + q));
    SegmentsAfterSlash(w + q);
    SegmentsAfterWord(w, q);
  }

  lemma FinalCollapsePrefix(q: string)
    requires q != [] && q[0] == '/'
    ensures var r := CollapseSlashes("/final" + q); |r| >= 7 && r[..7] == "/final/"
  {
    CollapseUnderFinal(q);
    FinalPrefix(CollapseSlashes(q));
  }

  lemma FinalCollapseChars(q: string)
    ensures WithoutSlashes(CollapseSlashes("/final" + q)) == "final" + WithoutSlashes(q)
  {
    CollapseKeepsCharacters("/final" + q);
    WithoutSlashesAppend("/final", q);
    WithoutSlashesFinal();
  }

  lemma WithoutSlashesFinal()
    ensures WithoutSlashes("/final") == "final"
  {
    var f: string := "final";
    assert "/final" == ['/'] + f;
    assert (['/'] + f)[1..] == f;
    WithoutSlashesNone(f);
  }

  lemma CollapseUnderFinal(q: string)
    requires q != [] && q[0] == '/'
    ensures CollapseSlashes("/final" + q) == "/final" + CollapseSlashes(q)
    ensures CollapseSlashes(q)[0] == '/'
  {
    FinalSplit(q);
    CollapseAfterRootWord("final", q);
    FinalSplit(CollapseSlashes(q));
  }

  lemma FinalSplit(q: string)
    ensures "/final" + q == ['/'] + ("final" + q)
  {
  }

  lemma FinalPrefix(c: string)
    requires c != [] && c[0] == '/'
    ensures |"/final" + c| >= 7 && ("/final" + c)[..7] == "/final/"
  {
  }

  /** The folder the webhook creates is never empty: it is `/final` or a folder below it. */
  lemma FinalFolderIsUnderFinal(p: string)
    ensures var folder := ParentFolder(FinalPath(p));
      |folder| >= 6 && folder[..6] == "/final"
  {
    FolderUnderFinal(FinalPath(p));
  }

  /** A path starting with `/final/` has a parent folder starting with `/final`. */
  lemma FolderUnderFinal(r: string)
    requires |r| >= 7 && r[..7] == "/final/"
    ensures var folder := ParentFolder(r);
      |folder| >= 6 && folder[..6] == "/final"
  {
    assert r[6] == '/';
    var folder := ParentFolder(r);
    assert folder[..6] == r[..6];
  }

  // ---------------------------------------------------------------------------
  // The session and its metadata

  /** The payer's email: the customer details, else the session, else the metadata. */
  function PayerEmail(session: CheckoutSession, metadata: Value): (r: Value)
    ensures Truthy(Get(session.customerDetails, "email")) ==> r == Get(session.customerDetails, "email")
    ensures !Truthy(Get(session.customerDetails, "email")) && Truthy(session.customerEmail) ==> r == session.customerEmail
    ensures !Truthy(Get(session.customerDetails, "email")) && !Truthy(session.customerEmail) ==> r == Get(metadata, "customer_email")
    ensures Truthy(r) <==> Truthy(Get(session.customerDetails, "email")) || Truthy(session.customerEmail) || Truthy(Get(metadata, "customer_email"))
  {
    Or(Get(session.customerDetails, "email"), Or(session.customerEmail, Get(metadata, "customer_email")))
  }

  /** What the fulfilment needs from a completed session. */
  datatype Order = Order(sessionId: Value, dropboxPath: Value, imageUrl: Value, roomType: Value, style: Value, jobId: Value, email: Value)

  /**
   * Reading the session: its metadata (`{}` when absent) must name the Dropbox path
   * and the image URL, or the reply is 400 "Missing staging metadata on session".
   */
  function OrderOf(session: CheckoutSession): (r: Result<Order, Reply>)
    ensures var metadata := Or(session.metadata, Obj(map[]));
      && (r.Failure? <==> !Truthy(Get(metadata, "dropbox_path")) || !Truthy(Get(metadata, "image_url")))
      && (r.Failure? ==> r.error == Reply(400, ErrorBody("Missing staging metadata on session")))
      && (r.Success? ==> r.value == Order(session.id, Get(metadata, "dropbox_path"), Get(metadata, "image_url"),
                                          Get(metadata, "room_type"), Get(metadata, "style"), Get(metadata, "job_id"),
                                          PayerEmail(session, metadata)))
  {
    var metadata := Or(session.metadata, Obj(map[]));
    var dropboxPath := Get(metadata, "dropbox_path");
    var imageUrl := Get(metadata, "image_url");
    if !Truthy(dropboxPath) || !Truthy(imageUrl) then Failure(Reply(400, ErrorBody("Missing staging metadata on session")))
    else Success(Order(session.id, dropboxPath, imageUrl, Get(metadata, "room_type"), Get(metadata, "style"),
                       Get(metadata, "job_id"), PayerEmail(session, metadata)))
  }

  // ---------------------------------------------------------------------------
  // Fulfilment

  /** `{ error: "Webhook processing failed", details: message }`, the reply to anything thrown. */
  function Failed(message: string): Reply {
    Reply(500, ErrorDetails("Webhook processing failed", Str(message)))
  }

  /** The final render's URL, or the reply when the render failed (or its result was null). */
  function RenderedUrl(json: Result<(HttpResponse, Value), Error>): (r: Result<Value, Reply>)
    ensures json.Failure? ==> r == Failure(Failed(json.error.message))
    ensures json.Success? && !json.value.0.ok ==> r == Failure(Reply(500, ErrorDetails("Virtual staging failed", json.value.1)))
    ensures r.Success? ==> json.Success? && json.value.0.ok && Truthy(r.value) && r.value == Get(json.value.1, "result_image_url")
    ensures json.Success? && json.value.0.ok ==>
      var result := json.value.1;
      var url := Get(result, "result_image_url");
      && (Nullish(result) ==> r == Failure(Failed(TypeErrorMessage)))
      && (!Nullish(result) && Truthy(url) ==> r == Success(url))
      && (!Nullish(result) && !Truthy(url) ==> r == Failure(Reply(500, ErrorDetails("Virtual staging failed", result))))
  {
    match json
    case Failure(e) => Failure(Failed(e.message))
    case Success((response, result)) =>
      if !response.ok then Failure(Reply(500, ErrorDetails("Virtual staging failed", result)))
      else
        match Prop(result, "result_image_url")
        case Failure(e) => Failure(Failed(e.message))
        case Success(url) =>
          if !Truthy(url) then Failure(Reply(500, ErrorDetails("Virtual staging failed", result)))
          else Success(url)
  }

  /** The downloaded bytes, or the reply when the download failed. */
  function DownloadedBytes(reply: FetchReply): (r: Result<seq<Byte>, Reply>)
    ensures reply.Success? && reply.value.Some? && !reply.value.value.ok ==>
      r == Failure(Reply(500, ErrorBody("Unable to download final image")))
    ensures r.Success? ==> reply.Success? && reply.value.Some? && reply.value.value.ok
                           && reply.value.value.arrayBuffer == Some(r.value)
    ensures reply.Failure? ==> r == Failure(Failed(reply.error.message))
    ensures reply == Success(None) ==> r == Failure(Failed(TypeErrorMessage))
    ensures reply.Success? && reply.value.Some? && reply.value.value.ok ==>
      var buffer := reply.value.value.arrayBuffer;
      && (buffer.None? ==> r == Failure(Failed(TypeErrorMessage)))
      && (buffer.Some? ==> r == Success(buffer.value))
  {
    match reply
    case Failure(e) => Failure(Failed(e.message))
    case Success(None) => Failure(Failed(TypeErrorMessage))
    case Success(Some(response)) =>
      if !response.ok then Failure(Reply(500, ErrorBody("Unable to download final image")))
      else if response.arrayBuffer.None? then Failure(Failed(TypeErrorMessage))
      else Success(response.arrayBuffer.value)
  }

  /** What the secure-link block yields (the link, possibly undefined) or throws, and its calls. */
  function SecureLinkRun(drop: DropboxOracle, h: seq<DropboxCall>, path: string, password: Value): Step<Result<Value, Error>> {
    var create := CreateSharedLink(path, Some(LinkSettings("password", password)));
    match drop(h, create)
    case Success(p) => Step(Success(ResultUrl(p)), [create])
    case Failure(e) =>
      if e.status == Some(409) then
        var list := ListSharedLinks(path, true);
        match drop(h + [create], list)
        case Failure(listError) => Step(Failure(listError), [create, list])
        case Success(p) => Step(Success(FirstListedUrl(p)), [create, list])
      else
        var temporary := GetTemporaryLink(path);
        match drop(h + [create], temporary)
        case Failure(temporaryError) => Step(Failure(temporaryError), [create, temporary])
        case Success(p) => Step(Success(ResultUrl(p)), [create, temporary])
  }

  /** The secure-link block: a password link, else (409) an existing link, else a temporary link. */
  method SecureLink(dropbox: Client, path: string, password: Value) returns (r: Result<Value, Error>)
    modifies dropbox
    ensures var run := SecureLinkRun(dropbox.respond, old(dropbox.calls), path, password);
      r == run.result && dropbox.calls == old(dropbox.calls) + run.calls
  {
    var secureLink: Value;
    var link := dropbox.Call(CreateSharedLink(path, Some(LinkSettings("password", password))));
    if link.Success? {
      secureLink := ResultUrl(link.value);
    } else if link.error.status == Some(409) {
      var links := dropbox.Call(ListSharedLinks(path, true));
      if links.Failure? {
        return Failure(links.error);
      }
      secureLink := FirstListedUrl(links.value);
    } else {
      var tempLink := dropbox.Call(GetTemporaryLink(path));
      if tempLink.Failure? {
        return Failure(tempLink.error);
      }
      secureLink := ResultUrl(tempLink.value);
    }
    return Success(secureLink);
  }

  /**
   * The three tiers: the first request is for a password-protected link whose password
   * is the job id, or the session id when the job id is falsy; a 409 lists the path's
   * direct links and takes the first one's URL; any other error asks for a temporary
   * link. A failure of the second request is what the block throws.
   */
  lemma SecureLinkTiers(drop: DropboxOracle, h: seq<DropboxCall>, path: string, order: Order)
    ensures var password := Or(order.jobId, order.sessionId);
      var create := CreateSharedLink(path, Some(LinkSettings("password", password)));
      var run := SecureLinkRun(drop, h, path, password);
      && (Truthy(order.jobId) ==> password == order.jobId)
      && (!Truthy(order.jobId) ==> password == order.sessionId)
      && run.calls[0] == create
      && (drop(h, create).Success? ==> run == Step(Success(ResultUrl(drop(h, create).value)), [create]))
      && (drop(h, create).Failure? && drop(h, create).error.status == Some(409) ==>
            var list := ListSharedLinks(path, true);
            var listed := drop(h + [create], list);
            && run.calls == [create, list]
            && (listed.Success? ==> run.result == Success(FirstListedUrl(listed.value)))
            && (listed.Failure? ==> run.result == Failure(listed.error)))
      && (drop(h, create).Failure? && drop(h, create).error.status != Some(409) ==>
            var temporary := GetTemporaryLink(path);
            var got := drop(h + [create], temporary);
            && run.calls == [create, temporary]
            && (got.Success? ==> run.result == Success(ResultUrl(got.value)))
            && (got.Failure? ==> run.result == Failure(got.error)))
  {
  }

  /** The message sent with the member grant. */
  function GrantMessage(jobId: Value): string {
    "Here is your virtually staged image" + (if Truthy(jobId) then " for job " + Display(jobId) else "") + "."
  }

  /** The 200 body of a completed fulfilment; the email is null when there is none. */
  function CompletedBody(order: Order, finalPath: string, secureLink: Value): Value {
    Obj(map[
      "status" := Str("completed"),
      "job_id" := order.jobId,
      "final_image_path" := Str(finalPath),
      "secure_link" := secureLink,
      "customer_email" := Or(order.email, Null)])
  }

  /** Folder, upload, link and grant: the reply and the Dropbox calls, in order. */
  function StoreAndShare(order: Order, bytes: seq<Byte>, finalPath: string, drop: DropboxOracle, h: seq<DropboxCall>): Step<Reply> {
    var folder := EnsureFolderRun(drop, h, finalPath);
    match folder.result
    case Fail(e) => Step(Failed(e.message), folder.calls)
    case Pass =>
      var upload := FilesUpload(finalPath, bytes, Overwrite, false, false);
      match drop(h + folder.calls, upload)
      case Failure(e) => Step(Failed(e.message), folder.calls + [upload])
      case Success(_) =>
        var link := SecureLinkRun(drop, h + folder.calls + [upload], finalPath, Or(order.jobId, order.sessionId));
        match link.result
        case Failure(e) => Step(Failed(e.message), folder.calls + [upload] + link.calls)
        case Success(secureLink) =>
          var grant := if Truthy(order.email) then [AddFileMember(finalPath, order.email, "viewer", GrantMessage(order.jobId))] else [];
          Step(Reply(200, CompletedBody(order, finalPath, secureLink)), folder.calls + [upload] + link.calls + grant)
  }

  /** The reply of the fulfilment block and its calls to the rendering service and to Dropbox. */
  datatype FulfilRun = FulfilRun(reply: Reply, fetchCalls: seq<FetchCall>, dropboxCalls: seq<DropboxCall>)

  function FulfilRunOf(order: Order, env: Env, codec: JsonCodec,
                       fetch: FetchOracle, fh: seq<FetchCall>, drop: DropboxOracle, dh: seq<DropboxCall>): FulfilRun
  {
    var render := RenderCreateCall(env.vsaiApiKey, codec, order.imageUrl, order.roomType, order.style, false);
    match RenderedUrl(ReadJson(fetch(fh, render), codec))
    case Failure(reply) => FulfilRun(reply, [render], [])
    case Success(url) =>
      var download := FetchCall(url, None);
      match DownloadedBytes(fetch(fh + [render], download))
      case Failure(reply) => FulfilRun(reply, [render, download], [])
      case Success(bytes) =>
        if !order.dropboxPath.Str? then FulfilRun(Failed(TypeErrorMessage), [render, download], [])
        else
          var stored := StoreAndShare(order, bytes, FinalPath(order.dropboxPath.s), drop, dh);
          FulfilRun(stored.result, [render, download], stored.calls)
  }

  /** The `try` block of the handler, from the render request to the 200 reply. */
  method Fulfil(order: Order, transport: Transport, dropbox: Client, env: Env, codec: JsonCodec) returns (reply: Reply)
    modifies transport, dropbox
    ensures var run := FulfilRunOf(order, env, codec, transport.respond, old(transport.calls), dropbox.respond, old(dropbox.calls));
      && reply == run.reply
      && transport.calls == old(transport.calls) + run.fetchCalls
      && dropbox.calls == old(dropbox.calls) + run.dropboxCalls
  {
    var vsaiResponse := transport.Call(RenderCreateCall(env.vsaiApiKey, codec, order.imageUrl, order.roomType, order.style, false));
    var json := ReadJson(vsaiResponse, codec);
    if json.Failure? {
      return Failed(json.error.message);
    }
    var vsaiResult := json.value.1;
    if !json.value.0.ok {
      return Reply(500, ErrorDetails("Virtual staging failed", vsaiResult));
    }
    var resultUrl := Prop(vsaiResult, "result_image_url");
    if resultUrl.Failure? {
      return Failed(resultUrl.error.message);
    }
    if !Truthy(resultUrl.value) {
      return Reply(500, ErrorDetails("Virtual staging failed", vsaiResult));
    }
    var finalImageResponse := transport.Call(FetchCall(resultUrl.value, None));
    if finalImageResponse.Failure? {
      return Failed(finalImageResponse.error.message);
    }
    if finalImageResponse.value.None? {
      return Failed(TypeErrorMessage);
    }
    var response := finalImageResponse.value.value;
    if !response.ok {
      return Reply(500, ErrorBody("Unable to download final image"));
    }
    if response.arrayBuffer.None? {
      return Failed(TypeErrorMessage);
    }
    var finalBuffer := response.arrayBuffer.value;
    if !order.dropboxPath.Str? {
      return Failed(TypeErrorMessage);
    }
    var finalPath := FinalPath(order.dropboxPath.s);
    reply := Store(order, finalBuffer, finalPath, dropbox);
  }

  /** Folder, upload, secure link and the best-effort grant, as `StoreAndShare` describes. */
  method Store(order: Order, bytes: seq<Byte>, finalPath: string, dropbox: Client) returns (reply: Reply)
    modifies dropbox
    ensures var run := StoreAndShare(order, bytes, finalPath, dropbox.respond, old(dropbox.calls));
      && reply == run.result
      && dropbox.calls == old(dropbox.calls) + run.calls
  {
    ghost var h := dropbox.calls;
    ghost var folderRun := EnsureFolderRun(dropbox.respond, h, finalPath);
    var folder := EnsureFolder(dropbox, finalPath);
    if folder.Fail? {
      return Failed(folder.error.message);
    }
    var upload := FilesUpload(finalPath, bytes, Overwrite, false, false);
    var uploaded := dropbox.Call(upload);
    if uploaded.Failure? {
      return Failed(uploaded.error.message);
    }
    ghost var h2 := dropbox.calls;
    assert h2 == h + folderRun.calls + [upload];
    ghost var linkRun := SecureLinkRun(dropbox.respond, h2, finalPath, Or(order.jobId, order.sessionId));
    var secureLink := SecureLink(dropbox, finalPath, Or(order.jobId, order.sessionId));
    assert dropbox.calls == h + (folderRun.calls + [upload] + linkRun.calls);
    if secureLink.Failure? {
      return Failed(secureLink.error.message);
    }
    if Truthy(order.email) {
      var grant := AddFileMember(finalPath, order.email, "viewer", GrantMessage(order.jobId));
      var _ := dropbox.Call(grant);
      assert dropbox.calls == h + (folderRun.calls + [upload] + linkRun.calls + [grant]);
    }
    return Reply(200, CompletedBody(order, finalPath, secureLink.value));
  }

  // ---------------------------------------------------------------------------
  // The handler

  /** The signature header, when present and non-empty. */
  function Signature(req: Request): Option<string> {
    if "stripe-signature" in req.headers && req.headers["stripe-signature"] != "" then Some(req.headers["stripe-signature"])
    else None
  }

  /** What the handler leaves behind: the response, an escaping error, and the calls to each service. */
  datatype WebhookRun = WebhookRun(response: ResponseState, escaped: Option<Error>,
                                   stripeCalls: seq<StripeCall>, fetchCalls: seq<FetchCall>, dropboxCalls: seq<DropboxCall>)

  function WebhookRunOf(canSetHeader: bool, s: ResponseState, req: Request, env: Env, codec: JsonCodec,
                        stripe: StripeOracle, sh: seq<StripeCall>, fetch: FetchOracle, fh: seq<FetchCall>,
                        drop: DropboxOracle, dh: seq<DropboxCall>): WebhookRun
  {
    if req.httpMethod == "OPTIONS" then
      if canSetHeader then WebhookRun(Preflighted(s, "POST, OPTIONS", "Content-Type, Stripe-Signature"), None, [], [], [])
      else WebhookRun(s, Some(TypeError), [], [], [])
    else if req.httpMethod != "POST" then
      WebhookRun(Replied(s, 405, ErrorBody("Method not allowed")), None, [], [], [])
    else if Signature(req).None? then
      WebhookRun(Replied(s, 400, ErrorBody("Missing Stripe signature")), None, [], [], [])
    else
      var verify := ConstructEvent(req.rawBody, Signature(req).value, env.stripeWebhookSecret);
      match stripe(sh, verify)
      case Failure(_) => WebhookRun(Replied(s, 400, ErrorBody("Invalid Stripe signature")), None, [verify], [], [])
      case Success(verified) =>
        if !(verified.EventConstructed? && verified.event.eventType == CompletedEventType) then
          WebhookRun(Replied(s, 200, Obj(map["received" := Bool(true)])), None, [verify], [], [])
        else
          match OrderOf(verified.event.session)
          case Failure(reply) => WebhookRun(Replied(s, reply.status, reply.body), None, [verify], [], [])
          case Success(order) =>
            var run := FulfilRunOf(order, env, codec, fetch, fh, drop, dh);
            WebhookRun(Replied(s, run.reply.status, run.reply.body), None, [verify], run.fetchCalls, run.dropboxCalls)
  }

  /** The default export of api/stripe-webhook.js. */
  method Handler(req: Request, res: ServerResponse, stripe: StripeClient, transport: Transport, dropbox: Client, env: Env, codec: JsonCodec)
    returns (escaped: Option<Error>)
    modifies res, stripe, transport, dropbox
    ensures var run := WebhookRunOf(res.canSetHeader, old(res.State()), req, env, codec,
                                    stripe.respond, old(stripe.calls), transport.respond, old(transport.calls),
                                    dropbox.respond, old(dropbox.calls));
      && res.State() == run.response
      && escaped == run.escaped
      && stripe.calls == old(stripe.calls) + run.stripeCalls
      && transport.calls == old(transport.calls) + run.fetchCalls
      && dropbox.calls == old(dropbox.calls) + run.dropboxCalls
  {
    if req.httpMethod == "OPTIONS" {
      if !res.canSetHeader {
        return Some(TypeError);
      }
      res.Preflight("POST, OPTIONS", "Content-Type, Stripe-Signature");
      return None;
    }
    escaped := None;
    if req.httpMethod != "POST" {
      res.Reply(405, ErrorBody("Method not allowed"));
      return;
    }
    var signature := Signature(req);
    if signature.None? {
      res.Reply(400, ErrorBody("Missing Stripe signature"));
      return;
    }
    var event := stripe.Call(ConstructEvent(req.rawBody, signature.value, env.stripeWebhookSecret));
    if event.Failure? {
      res.Reply(400, ErrorBody("Invalid Stripe signature"));
      return;
    }
    if !(event.value.EventConstructed? && event.value.event.eventType == CompletedEventType) {
      res.Reply(200, Obj(map["received" := Bool(true)]));
      return;
    }
    var order := OrderOf(event.value.event.session);
    if order.Failure? {
      res.Reply(order.error.status, order.error.body);
      return;
    }
    var reply := Fulfil(order.value, transport, dropbox, env, codec);
    res.Reply(reply.status, reply.body);
  }

  // ---------------------------------------------------------------------------
  // Properties of the handler

  /**
   * The gates, in order: a missing signature header is answered 400 before the body is
   * read or anything is called; a failed verification is answered 400; an event of
   * another type is acknowledged with 200; a session without the staging metadata is
   * answered 400. None of them reaches the rendering service or Dropbox.
   */
  lemma GatesStopBeforeFulfilment(canSetHeader: bool, s: ResponseState, req: Request, env: Env, codec: JsonCodec,
                                  stripe: StripeOracle, sh: seq<StripeCall>, fetch: FetchOracle, fh: seq<FetchCall>,
                                  drop: DropboxOracle, dh: seq<DropboxCall>)
    requires req.httpMethod == "POST"
    ensures var run := WebhookRunOf(canSetHeader, s, req, env, codec, stripe, sh, fetch, fh, drop, dh);
      var verify := ConstructEvent(req.rawBody, Signature(req).GetOr(""), env.stripeWebhookSecret);
      var verified := stripe(sh, verify);
      && (Signature(req).None? ==>
            run.response == Replied(s, 400, ErrorBody("Missing Stripe signature")) && run.stripeCalls == [])
      && (Signature(req).Some? ==> run.stripeCalls == [verify])
      && (Signature(req).Some? && verified.Failure? ==>
            run.response == Replied(s, 400, ErrorBody("Invalid Stripe signature")))
      && (Signature(req).Some? && verified.Success? && !verified.value.EventConstructed? ==>
            run.response == Replied(s, 200, Obj(map["received" := Bool(true)])))
      && (Signature(req).Some? && verified.Success? && verified.value.EventConstructed?
          && verified.value.event.eventType != CompletedEventType ==>
            run.response == Replied(s, 200, Obj(map["received" := Bool(true)])))
      && (Signature(req).Some? && verified.Success? && verified.value.EventConstructed?
          && verified.value.event.eventType == CompletedEventType
          && OrderOf(verified.value.event.session).Failure? ==>
            run.response == Replied(s, 400, ErrorBody("Missing staging metadata on session")))
      && (run.fetchCalls != [] || run.dropboxCalls != [] ==>
            && Signature(req).Some? && verified.Success? && verified.value.EventConstructed?
            && verified.value.event.eventType == CompletedEventType
            && OrderOf(verified.value.event.session).Success?)
  {
  }

  /** OPTIONS is a preflight that also allows the signature header; other non-POST methods get 405. */
  lemma MethodGate(canSetHeader: bool, s: ResponseState, req: Request, env: Env, codec: JsonCodec,
                   stripe: StripeOracle, sh: seq<StripeCall>, fetch: FetchOracle, fh: seq<FetchCall>,
                   drop: DropboxOracle, dh: seq<DropboxCall>)
    requires req.httpMethod != "POST"
    ensures var run := WebhookRunOf(canSetHeader, s, req, env, codec, stripe, sh, fetch, fh, drop, dh);
      && run.stripeCalls == [] && run.fetchCalls == [] && run.dropboxCalls == []
      && (req.httpMethod == "OPTIONS" && canSetHeader ==>
            run.response == Preflighted(s, "POST, OPTIONS", "Content-Type, Stripe-Signature"))
      && (req.httpMethod != "OPTIONS" ==> run.response == Replied(s, 405, ErrorBody("Method not allowed")))
  {
  }

  /**
   * Storage order: the parent folder of the final path is created first, then the
   * image is uploaded there with overwrite (no autorename, not muted), and the link
   * is requested for that same path.
   */
  lemma FolderThenUploadThenLink(order: Order, bytes: seq<Byte>, finalPath: string, drop: DropboxOracle, h: seq<DropboxCall>)
    requires ParentFolder(finalPath) != ""
    requires EnsureFolderRun(drop, h, finalPath).result.Pass?
    ensures var run := StoreAndShare(order, bytes, finalPath, drop, h);
      && |run.calls| >= 2
      && run.calls[0] == CreateFolder(ParentFolder(finalPath), false)
      && run.calls[1] == FilesUpload(finalPath, bytes, Overwrite, false, false)
      && (|run.calls| >= 3 ==> run.calls[2] == CreateSharedLink(finalPath, Some(LinkSettings("password", Or(order.jobId, order.sessionId)))))
  {
    var folder := EnsureFolderRun(drop, h, finalPath);
    assert folder.calls == [CreateFolder(ParentFolder(finalPath), false)];
  }

  /**
   * Without a truthy payer email no member is added, and a completed reply reports
   * the email as null.
   */
  lemma NoEmailNoGrant(order: Order, bytes: seq<Byte>, finalPath: string, drop: DropboxOracle, h: seq<DropboxCall>)
    requires !Truthy(order.email)
    ensures var run := StoreAndShare(order, bytes, finalPath, drop, h);
      && (forall i :: 0 <= i < |run.calls| ==> !run.calls[i].AddFileMember?)
      && (run.result.status == 200 ==> Get(run.result.body, "customer_email") == Null)
  {
    var folder := EnsureFolderRun(drop, h, finalPath);
    assert forall i :: 0 <= i < |folder.calls| ==> !folder.calls[i].AddFileMember?;
    var upload := FilesUpload(finalPath, bytes, Overwrite, false, false);
    var link := SecureLinkRun(drop, h + folder.calls + [upload], finalPath, Or(order.jobId, order.sessionId));
    assert forall i :: 0 <= i < |link.calls| ==> !link.calls[i].AddFileMember?;
  }

  /**
   * The member grant is best effort: however the provider answers it, the reply is
   * the same. Two providers that agree on every call except the grant produce the
   * same reply and the same calls.
   */
  lemma GrantOutcomeIgnored(order: Order, bytes: seq<Byte>, finalPath: string, drop1: DropboxOracle, drop2: DropboxOracle, h: seq<DropboxCall>)
    requires forall g: seq<DropboxCall>, c: DropboxCall :: !c.AddFileMember? ==> drop1(g, c) == drop2(g, c)
    ensures StoreAndShare(order, bytes, finalPath, drop1, h) == StoreAndShare(order, bytes, finalPath, drop2, h)
  {
    var folder1 := EnsureFolderRun(drop1, h, finalPath);
    assert folder1 == EnsureFolderRun(drop2, h, finalPath);
    var upload := FilesUpload(finalPath, bytes, Overwrite, false, false);
    var h2 := h + folder1.calls + [upload];
    var password := Or(order.jobId, order.sessionId);
    var create := CreateSharedLink(finalPath, Some(LinkSettings("password", password)));
    assert drop1(h2, create) == drop2(h2, create);
    assert drop1(h2 + [create], ListSharedLinks(finalPath, true)) == drop2(h2 + [create], ListSharedLinks(finalPath, true));
    assert drop1(h2 + [create], GetTemporaryLink(finalPath)) == drop2(h2 + [create], GetTemporaryLink(finalPath));
    assert SecureLinkRun(drop1, h2, finalPath, password) == SecureLinkRun(drop2, h2, finalPath, password);
  }

  /**
   * A render that is not ok, or whose result has no truthy `result_image_url`, is
   * answered 500 "Virtual staging failed" with the result, and nothing is downloaded.
   */
  lemma RenderFailureStopsFulfilment(order: Order, env: Env, codec: JsonCodec,
                                     fetch: FetchOracle, fh: seq<FetchCall>, drop: DropboxOracle, dh: seq<DropboxCall>)
    requires var render := RenderCreateCall(env.vsaiApiKey, codec, order.imageUrl, order.roomType, order.style, false);
      var json := ReadJson(fetch(fh, render), codec);
      json.Success? && (!json.value.0.ok || (!Nullish(json.value.1) && !Truthy(Get(json.value.1, "result_image_url"))))
    ensures var render := RenderCreateCall(env.vsaiApiKey, codec, order.imageUrl, order.roomType, order.style, false);
      var json := ReadJson(fetch(fh, render), codec);
      var run := FulfilRunOf(order, env, codec, fetch, fh, drop, dh);
      && run.reply == Reply(500, ErrorDetails("Virtual staging failed", json.value.1))
      && run.fetchCalls == [render] && run.dropboxCalls == []
  {
  }
}
