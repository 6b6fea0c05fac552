/**
 * The staging endpoint of api/stage.js: it validates a JSON body holding a data URL
 * (or bare base64 text), a room type and a style; uploads the decoded image to
 * Dropbox under `/uploads/job_<timestamp>.jpg`; shares it; asks the rendering
 * service for a watermarked preview; and answers with the preview and job details.
 */
module Stage {
  import opened Wrappers
  import opened Js
  import opened Strings
  import opened Base64
  import opened Http
  import opened Fetch
  import opened Dropbox

  const InvalidImagePayload: string := "Invalid image payload"

  /** A request that passed validation: the decoded image and the two style fields. */
  datatype StageFields = StageFields(image: seq<Byte>, roomType: Value, style: Value)

  /** `{ error: "Server error", details: message }`, the reply to anything thrown. */
  function ServerErrorBody(message: string): Value {
    ErrorDetails("Server error", Str(message))
  }

  // ---------------------------------------------------------------------------
  // Payload extraction

  /** `image.slice(image.indexOf(",") + 1)` when there is a comma, the whole text otherwise. */
  function AfterFirstComma(s: string): (r: string)
    ensures ',' !in s ==> r == s
    ensures ',' in s ==>
      && |r| < |s|
      && s == s[..|s| - |r| - 1] + [','] + r
      && ',' !in s[..|s| - |r| - 1]
  {
    var i := IndexOf(s, ",");
    ContainsChar(s, ',');
    if i == -1 then s
    else
      FirstCommaFacts(s, i);
      s[i + 1..]
  }

  lemma FirstCommaFacts(s: string, i: int)
    requires i >= 0 && OccursAt(s, ",", i) && forall j :: 0 <= j < i ==> !OccursAt(s, ",", j)
    ensures i < |s| && s[i] == ','
    ensures s == s[..i] + [','] + s[i + 1..]
    ensures ',' !in s[..i]
  {
    assert s[i..i + 1][0] == s[i];
    forall j | 0 <= j < i ensures s[..i][j] != ',' {
      assert !OccursAt(s, ",", j);
      assert s[j..j + 1] == [s[j]];
      assert s[..i][j] == s[j];
    }
  }

  /** What the handler hands to the alphabet check: the payload, trimmed, without white space. */
  function SanitizedPayload(image: string): (r: string)
    ensures forall i :: 0 <= i < |r| ==> !IsWhitespace(r[i])
  {
    RemoveWhitespace(Trim(AfterFirstComma(image)))
  }

  /** The payload keeps exactly the characters after the first comma that are not white space, in order. */
  lemma SanitizedKeepsPayload(image: string)
    ensures SanitizedPayload(image) == RemoveWhitespace(AfterFirstComma(image))
  {
    RemoveWhitespaceIgnoresTrim(AfterFirstComma(image));
  }

  /**
   * The image bytes, or None when the handler answers 400 "Invalid image payload":
   * the payload must be non-empty after trimming, pass the base64 check once its
   * white space is removed, and decode to at least one byte.
   */
  function ImageBytes(image: string): (r: Option<seq<Byte>>)
    ensures r.Some? <==> IsBase64Text(SanitizedPayload(image)) && Decode(SanitizedPayload(image)) != []
    ensures r.Some? ==> r.value == Decode(SanitizedPayload(image))
  {
    var payload := Trim(AfterFirstComma(image));
    if payload == "" then None
    else
      var sanitized := RemoveWhitespace(payload);
      if !IsBase64Text(sanitized) then None
      else
        var bytes := Decode(sanitized);
        if bytes == [] then None else Some(bytes)
  }

  /**
   * Destructuring `req.body` and the checks that follow, in the handler's order: a
   * null or undefined body throws (500); a falsy field gives 400 "Missing required
   * fields"; a non-string image or an unusable payload gives 400 "Invalid image payload".
   */
  function StageInput(body: Value): (r: Result<StageFields, Reply>)
    ensures Nullish(body) ==> r == Failure(Reply(500, ServerErrorBody(TypeErrorMessage)))
    ensures !Nullish(body) && !(Truthy(Get(body, "image_base64")) && Truthy(Get(body, "room_type")) && Truthy(Get(body, "style")))
      ==> r == Failure(Reply(400, ErrorBody("Missing required fields")))
    ensures !Nullish(body) && Truthy(Get(body, "image_base64")) && Truthy(Get(body, "room_type")) && Truthy(Get(body, "style"))
      ==> if Get(body, "image_base64").Str? && ImageBytes(Get(body, "image_base64").s).Some?
          then r == Success(StageFields(ImageBytes(Get(body, "image_base64").s).value, Get(body, "room_type"), Get(body, "style")))
          else r == Failure(Reply(400, ErrorBody(InvalidImagePayload)))
  {
    if Nullish(body) then Failure(Reply(500, ServerErrorBody(TypeErrorMessage)))
    else
      var image := Get(body, "image_base64");
      var roomType := Get(body, "room_type");
      var style := Get(body, "style");
      if !Truthy(image) || !Truthy(roomType) || !Truthy(style) then
        Failure(Reply(400, ErrorBody("Missing required fields")))
      else if !image.Str? then
        Failure(Reply(400, ErrorBody(InvalidImagePayload)))
      else
        match ImageBytes(image.s)
        case None => Failure(Reply(400, ErrorBody(InvalidImagePayload)))
        case Some(bytes) => Success(StageFields(bytes, roomType, style))
  }

  /** The bytes of an encoded image never contain white space. */
  lemma EncodedHasNoWhitespace(b: seq<Byte>)
    ensures forall i :: 0 <= i < |Encode(b)| ==> !IsWhitespace(Encode(b)[i])
  {
    var body := Chars(EncodeSextets(b));
    var pad := Padding(|b|);
    assert Encode(b) == body + pad;
    forall i | 0 <= i < |body + pad| ensures !IsWhitespace((body + pad)[i]) {
      if i < |body| {
        assert IsAlphabetChar(body[i]);
      } else {
        assert pad[i - |body|] == '=';
      }
    }
  }

  /**
   * Round trip: a data URL whose header has no comma, followed by the base64 encoding
   * of any non-empty image, is accepted and yields exactly that image.
   */
  lemma DataUrlRoundTrip(header: string, b: seq<Byte>)
    requires ',' !in header && b != []
    ensures ImageBytes(header + "," + Encode(b)) == Some(b)
  {
    var s := header + "," + Encode(b);
    assert s[|header|] == ',' && s[..|header|] == header;
    IndexOfChar(s, ',', |header|);
    assert s[|header| + 1..] == Encode(b);
    assert AfterFirstComma(s) == Encode(b);
    DecodeEncode(b);
    EncodedHasNoWhitespace(b);
    var e := Encode(b);
    assert Trim(e) == e;
    assert RemoveWhitespace(e) == e;
  }

  const JpegHeader: string := "data:image/jpeg;base64"

  /**
   * `data:image/jpeg;base64,Zm9v` is accepted and yields the bytes of "foo". This is one
   * instance of `DataUrlRoundTrip`, kept as the concrete case of tests/stage.test.js:112-127.
   */
  lemma DataUrlFoo()
    ensures ImageBytes(JpegHeader + "," + "Zm9v") == Some([0x66, 0x6f, 0x6f])
  {
    EncodeFoo();
    DataUrlRoundTrip(JpegHeader, [0x66, 0x6f, 0x6f]);
  }

  /** The bytes of "foo" encode to `Zm9v`; the encoding side of the case at tests/stage.test.js:112-127. */
  lemma EncodeFoo()
    ensures Encode([0x66, 0x6f, 0x6f]) == "Zm9v"
  {
    var foo: seq<Byte> := [0x66, 0x6f, 0x6f];
    assert EncodeSextets(foo) == [25, 38, 61, 47];
    assert Chars([25, 38, 61, 47]) == "Zm9v";
  }

  // ---------------------------------------------------------------------------
  // The handler

  /** `job_<timestamp>`; `JobIdDenotesTime` says what its digits mean. */
  function JobId(now: nat): (id: string)
    ensures |id| > 4 && id[..4] == "job_"
    ensures forall i :: 4 <= i < |id| ==> '0' <= id[i] <= '9'
  {
    "job_" + NatToDecimal(now)
  }

  /** The digits after `job_` denote the timestamp, so different times give different jobs. */
  lemma JobIdDenotesTime(now: nat)
    ensures var id := JobId(now); DecimalValue(id[4..]) == now
  {
    var id := JobId(now);
    assert id[4..] == NatToDecimal(now);
    NatToDecimalDenotes(now);
  }

  /** `/uploads/job_<timestamp>.jpg`, where the upload goes; `UploadPathNamesJob` says what it is named after. */
  function UploadPath(now: nat): (p: string)
    ensures |p| > 17 && p[..13] == "/uploads/job_" && p[|p| - 4..] == ".jpg"
    ensures forall i :: 13 <= i < |p| - 4 ==> '0' <= p[i] <= '9'
  {
    var p := "/uploads/" + JobId(now) + ".jpg";
    assert forall i :: 13 <= i < |p| - 4 ==> p[i] == JobId(now)[i - 9];
    p
  }

  /** The upload is named after the job, and the digits in its name denote the timestamp. */
  lemma UploadPathNamesJob(now: nat)
    ensures var p := UploadPath(now);
      p[9..|p| - 4] == JobId(now) && DecimalValue(p[13..|p| - 4]) == now
  {
    var id := JobId(now);
    var p := UploadPath(now);
    assert p[9..|p| - 4] == id;
    assert p[13..|p| - 4] == id[4..];
    JobIdDenotesTime(now);
  }

  /** The 200 body: the preview, the job, where the original is, and what was staged. */
  function StagedBody(preview: Value, jobId: string, path: string, imageUrl: string, f: StageFields): Value {
    Obj(map[
      "preview_url" := preview,
      "job_id" := Str(jobId),
      "dropbox_path" := Str(path),
      "image_url" := Str(imageUrl),
      "room_type" := f.roomType,
      "style" := f.style])
  }

  /** The reply once the rendering service has answered. */
  function RenderReply(json: Result<(HttpResponse, Value), Error>, jobId: string, path: string, imageUrl: string, f: StageFields): Reply {
    match json
    case Failure(e) => Reply(500, ServerErrorBody(e.message))
    case Success((_, result)) =>
      match Prop(result, "result_image_url")
      case Failure(e) => Reply(500, ServerErrorBody(e.message))
      case Success(preview) =>
        if Truthy(preview) then Reply(200, StagedBody(preview, jobId, path, imageUrl, f))
        else Reply(500, ErrorDetails("Staging failed", result))
  }

  /** The reply to a POST, and the calls made to Dropbox and to the rendering service. */
  datatype PostRun = PostRun(reply: Reply, dropboxCalls: seq<DropboxCall>, fetchCalls: seq<FetchCall>)

  function StagePost(body: Value, env: Env, now: nat, codec: JsonCodec,
                     drop: DropboxOracle, dh: seq<DropboxCall>, fetch: FetchOracle, fh: seq<FetchCall>): PostRun
  {
    match StageInput(body)
    case Failure(early) => PostRun(early, [], [])
    case Success(f) =>
      var path := UploadPath(now);
      var upload := FilesUpload(path, f.image, Add, true, false);
      match drop(dh, upload)
      case Failure(e) => PostRun(Reply(500, ServerErrorBody(e.message)), [upload], [])
      case Success(_) =>
        var create := CreateSharedLink(path, None);
        match drop(dh + [upload], create)
        case Failure(e) => PostRun(Reply(500, ServerErrorBody(e.message)), [upload, create], [])
        case Success(link) =>
          var url := ResultUrl(link);
          if !url.Str? then PostRun(Reply(500, ServerErrorBody(TypeErrorMessage)), [upload, create], [])
          else
            var imageUrl := ReplaceFirst(url.s, "?dl=0", "?raw=1");
            var render := RenderCreateCall(env.vsaiApiKey, codec, Str(imageUrl), f.roomType, f.style, true);
            var json := ReadJson(fetch(fh, render), codec);
            PostRun(RenderReply(json, JobId(now), path, imageUrl, f), [upload, create], [render])
  }

  /** What the handler leaves behind: the response, an error it lets escape, and its calls. */
  datatype StageRun = StageRun(response: ResponseState, escaped: Option<Error>, dropboxCalls: seq<DropboxCall>, fetchCalls: seq<FetchCall>)

  function StageRunOf(canSetHeader: bool, s: ResponseState, req: Request, env: Env, now: nat, codec: JsonCodec,
                      drop: DropboxOracle, dh: seq<DropboxCall>, fetch: FetchOracle, fh: seq<FetchCall>): StageRun
  {
    if req.httpMethod == "OPTIONS" then
      if canSetHeader then StageRun(Preflighted(s, "POST, OPTIONS", "Content-Type"), None, [], [])
      else StageRun(s, Some(TypeError), [], [])
    else if req.httpMethod != "POST" then
      StageRun(Replied(s, 405, ErrorBody("Method not allowed")), None, [], [])
    else
      var post := StagePost(req.body, env, now, codec, drop, dh, fetch, fh);
      StageRun(Replied(s, post.reply.status, post.reply.body), None, post.dropboxCalls, post.fetchCalls)
  }

  /** The default export of api/stage.js. */
  method Handler(req: Request, res: ServerResponse, dropbox: Client, transport: Transport, env: Env, now: nat, codec: JsonCodec)
    returns (escaped: Option<Error>)
    modifies res, dropbox, transport
    ensures var run := StageRunOf(res.canSetHeader, old(res.State()), req, env, now, codec,
                                  dropbox.respond, old(dropbox.calls), transport.respond, old(transport.calls));
      && res.State() == run.response
      && escaped == run.escaped
      && dropbox.calls == old(dropbox.calls) + run.dropboxCalls
      && transport.calls == old(transport.calls) + run.fetchCalls
  {
    if req.httpMethod == "OPTIONS" {
      if !res.canSetHeader {
        return Some(TypeError);
      }
      res.Preflight("POST, OPTIONS", "Content-Type");
      return None;
    }
    if req.httpMethod != "POST" {
      res.Reply(405, ErrorBody("Method not allowed"));
      return None;
    }
    escaped := None;
    var input := StageInput(req.body);
    if input.Failure? {
      res.Reply(input.error.status, input.error.body);
      return;
    }
    var fields := input.value;
    var jobId := JobId(now);
    var fileName := UploadPath(now);
    var uploaded := dropbox.Call(FilesUpload(fileName, fields.image, Add, true, false));
    if uploaded.Failure? {
      res.Reply(500, ServerErrorBody(uploaded.error.message));
      return;
    }
    var link := dropbox.Call(CreateSharedLink(fileName, None));
    if link.Failure? {
      res.Reply(500, ServerErrorBody(link.error.message));
      return;
    }
    var url := ResultUrl(link.value);
    if !url.Str? {
      res.Reply(500, ServerErrorBody(TypeErrorMessage));
      return;
    }
    var imageUrl := ReplaceFirst(url.s, "?dl=0", "?raw=1");
    var vsaiResponse := transport.Call(RenderCreateCall(env.vsaiApiKey, codec, Str(imageUrl), fields.roomType, fields.style, true));
    var json := ReadJson(vsaiResponse, codec);
    if json.Failure? {
      res.Reply(500, ServerErrorBody(json.error.message));
      return;
    }
    var vsaiResult := json.value.1;
    var preview := Prop(vsaiResult, "result_image_url");
    if preview.Failure? {
      res.Reply(500, ServerErrorBody(preview.error.message));
    } else if Truthy(preview.value) {
      res.Reply(200, StagedBody(preview.value, jobId, fileName, imageUrl, fields));
    } else {
      res.Reply(500, ErrorDetails("Staging failed", vsaiResult));
    }
  }

  // ---------------------------------------------------------------------------
  // Properties of the handler

  /** OPTIONS is a preflight allowing POST; any other non-POST method is refused; neither calls out. */
  lemma MethodGate(canSetHeader: bool, s: ResponseState, req: Request, env: Env, now: nat, codec: JsonCodec,
                   drop: DropboxOracle, dh: seq<DropboxCall>, fetch: FetchOracle, fh: seq<FetchCall>)
    requires req.httpMethod != "POST"
    ensures var run := StageRunOf(canSetHeader, s, req, env, now, codec, drop, dh, fetch, fh);
      && run.dropboxCalls == [] && run.fetchCalls == []
      && (req.httpMethod == "OPTIONS" && canSetHeader ==>
            run.response == Preflighted(s, "POST, OPTIONS", "Content-Type") && run.escaped == None)
      && (req.httpMethod != "OPTIONS" ==>
            run.response == Replied(s, 405, ErrorBody("Method not allowed")) && run.escaped == None)
  {
  }

  /** A request rejected by validation is answered without any Dropbox or rendering call. */
  lemma RejectedBeforeAnyCall(body: Value, env: Env, now: nat, codec: JsonCodec,
                              drop: DropboxOracle, dh: seq<DropboxCall>, fetch: FetchOracle, fh: seq<FetchCall>)
    requires StageInput(body).Failure?
    ensures var post := StagePost(body, env, now, codec, drop, dh, fetch, fh);
      && post.reply == StageInput(body).error
      && post.dropboxCalls == [] && post.fetchCalls == []
  {
  }

  /**
   * A valid request uploads once, to `/uploads/job_<now>.jpg` in add mode with
   * autorename, and the share link, if requested, is for that same path.
   */
  lemma UploadThenLinkSamePath(body: Value, env: Env, now: nat, codec: JsonCodec,
                               drop: DropboxOracle, dh: seq<DropboxCall>, fetch: FetchOracle, fh: seq<FetchCall>)
    requires StageInput(body).Success?
    ensures var post := StagePost(body, env, now, codec, drop, dh, fetch, fh);
      && 1 <= |post.dropboxCalls| <= 2
      && post.dropboxCalls[0] == FilesUpload(UploadPath(now), StageInput(body).value.image, Add, true, false)
      && (|post.dropboxCalls| == 2 ==> post.dropboxCalls[1] == CreateSharedLink(UploadPath(now), None))
      && (post.fetchCalls != [] ==> |post.dropboxCalls| == 2)
  {
  }

  /**
   * Once the link exists, exactly one render request is sent: its `image_url` is the
   * link with `?dl=0` rewritten to `?raw=1`, and it asks for a watermarked result.
   */
  lemma RenderRequestUsesRewrittenLink(body: Value, env: Env, now: nat, codec: JsonCodec,
                                       drop: DropboxOracle, dh: seq<DropboxCall>, fetch: FetchOracle, fh: seq<FetchCall>, u: string)
    requires StageInput(body).Success?
    requires var f := StageInput(body).value;
      var upload := FilesUpload(UploadPath(now), f.image, Add, true, false);
      && drop(dh, upload).Success?
      && drop(dh + [upload], CreateSharedLink(UploadPath(now), None)) == Success(LinkPayload(u))
    ensures var f := StageInput(body).value;
      StagePost(body, env, now, codec, drop, dh, fetch, fh).fetchCalls
        == [RenderCreateCall(env.vsaiApiKey, codec, Str(ReplaceFirst(u, "?dl=0", "?raw=1")), f.roomType, f.style, true)]
  {
  }

  /**
   * The reply to the rendering result: 200 with the preview and job details when it
   * has a truthy `result_image_url`, 500 "Staging failed" with the result otherwise.
   */
  lemma ReplyFollowsRenderResult(resp: HttpResponse, result: Value, jobId: string, path: string, imageUrl: string, f: StageFields)
    requires !Nullish(result)
    ensures var reply := RenderReply(Success((resp, result)), jobId, path, imageUrl, f);
      && (reply.status == 200 <==> Truthy(Get(result, "result_image_url")))
      && (reply.status == 200 ==> reply.body == StagedBody(Get(result, "result_image_url"), jobId, path, imageUrl, f))
      && (reply.status != 200 ==> reply == Reply(500, ErrorDetails("Staging failed", result)))
  {
  }
}
