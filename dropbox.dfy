/**
 * The Dropbox adapter of api/_utils/dropbox.js: link normalisation (`toRawDropboxUrl`),
 * idempotent shared-link creation (`ensureSharedLink`) and `uploadBuffer`, over the
 * Dropbox SDK seen as an external service.
 */
module Dropbox {
  import opened Wrappers
  import opened Js
  import opened Strings
  import Services

  datatype WriteMode = Add | Overwrite

  /** `settings` of a shared-link request: the visibility and the password. */
  datatype LinkSettings = LinkSettings(requestedVisibility: string, linkPassword: Value)

  /** The SDK calls the core makes. */
  datatype DropboxCall =
    | FilesUpload(path: string, contents: seq<Byte>, mode: WriteMode, autorename: bool, mute: bool)
    | CreateSharedLink(path: string, settings: Option<LinkSettings>)
    | ListSharedLinks(path: string, directOnly: bool)
    | CreateFolder(folder: string, autorename: bool)
    | GetTemporaryLink(path: string)
    | AddFileMember(file: string, email: Value, accessLevel: string, customMessage: string)

  /** The `result` of a successful call: nothing the core reads, a link, or a list of links. */
  datatype Payload = NoPayload | LinkPayload(url: string) | LinkListPayload(urls: seq<string>)

  type DropboxReply = Result<Payload, Error>

  type Client = Services.Service<DropboxCall, DropboxReply>

  type DropboxOracle = (seq<DropboxCall>, DropboxCall) -> DropboxReply

  /** What a sequence of calls produced, and the calls it made, oldest first. */
  datatype Step<T> = Step(result: T, calls: seq<DropboxCall>)

  /** `reply.result.url` (and `reply.result.link` of a temporary link). */
  function ResultUrl(p: Payload): Value {
    if p.LinkPayload? then Str(p.url) else Undefined
  }

  /** `reply?.result?.links?.[0]?.url`. */
  function FirstListedUrl(p: Payload): Value {
    if p.LinkListPayload? && |p.urls| > 0 then Str(p.urls[0]) else Undefined
  }

  // ---------------------------------------------------------------------------
  // toRawDropboxUrl

  /**
   * `toRawDropboxUrl(url)`: "" for a non-string or empty input; a URL that already
   * has `?raw=1` unchanged; otherwise the first `?dl=0` replaced by `?raw=1`;
   * otherwise `raw=1` appended, after `&` when the URL has a `?` and after `?` when not.
   */
  function ToRawDropboxUrl(url: Value): (r: string)
    ensures !url.Str? || url.s == "" ==> r == ""
    ensures url.Str? && Contains(url.s, "?raw=1") ==> r == url.s
    ensures url.Str? && !Contains(url.s, "?raw=1") && Contains(url.s, "?dl=0") ==>
      r == ReplaceFirst(url.s, "?dl=0", "?raw=1")
    ensures url.Str? && url.s != "" && !Contains(url.s, "?raw=1") && !Contains(url.s, "?dl=0") ==>
      r == url.s + (if Contains(url.s, "?") then "&raw=1" else "?raw=1")
  {
    if !url.Str? || url.s == "" then ""
    else if Contains(url.s, "?raw=1") then url.s
    else if Contains(url.s, "?dl=0") then ReplaceFirst(url.s, "?dl=0", "?raw=1")
    else url.s + (if Contains(url.s, "?") then "&" else "?") + "raw=1"
  }

  lemma RawMarkerAt(s: string, i: int)
    requires OccursAt(s, "?raw=1", i)
    ensures Contains(s, "raw=1")
  {
    assert s[i + 1..i + 6] == s[i..i + 6][1..];
    assert OccursAt(s, "raw=1", i + 1);
  }

  /** Every non-empty result carries the direct-content marker `raw=1`. */
  lemma RawUrlHasMarker(url: Value)
    ensures ToRawDropboxUrl(url) != "" ==> Contains(ToRawDropboxUrl(url), "raw=1")
  {
    var r := ToRawDropboxUrl(url);
    if r != "" {
      var s := url.s;
      if Contains(s, "?raw=1") {
        var i :| 0 <= i <= |s| - 6 && OccursAt(s, "?raw=1", i);
        RawMarkerAt(s, i);
      } else if Contains(s, "?dl=0") {
        RawMarkerAt(r, IndexOf(s, "?dl=0"));
      } else {
        var sep := if Contains(s, "?") then "&raw=1" else "?raw=1";
        assert r[|s| + 1..|s| + 6] == "raw=1";
        assert OccursAt(r, "raw=1", |s| + 1);
      }
    }
  }

  /**
   * Appending a tail `t` creates no new occurrence of `p` when the first character of
   * `p` is not in `t` and the first character of `t` is not in `p`.
   */
  lemma NoOccurrenceAcrossAppend(s: string, t: string, p: string)
    requires p != [] && t != [] && p[0] !in t && t[0] !in p
    ensures Contains(s + t, p) ==> Contains(s, p)
  {
    if Contains(s + t, p) {
      var i :| 0 <= i <= |s + t| - |p| && OccursAt(s + t, p, i);
      OccurrencePlacement(s, t, p, i);
      assert (s + t)[i..i + |p|] == s[i..i + |p|];
      assert OccursAt(s, p, i);
    }
  }

  /** An occurrence in `s + t` lies inside `s`, or it shares a character with `t`. */
  lemma OccurrencePlacement(s: string, t: string, p: string, i: int)
    requires p != [] && t != [] && 0 <= i <= |s + t| - |p| && OccursAt(s + t, p, i)
    ensures i + |p| <= |s| || p[0] in t || t[0] in p
  {
    assert forall k :: 0 <= k < |p| ==> (s + t)[i + k] == p[k];
    if i >= |s| {
      assert p[0] == t[i - |s|];
    } else if i + |p| > |s| {
      assert p[|s| - i] == t[0];
    }
  }

  /**
   * A second application changes nothing, except when the input is a non-empty URL
   * with a `?` query holding neither `?dl=0` nor `?raw=1`: then `&raw=1` is appended again.
   */
  lemma RawUrlIdempotentUnlessBareQuery(s: string)
    ensures ToRawDropboxUrl(Str(ToRawDropboxUrl(Str(s)))) == ToRawDropboxUrl(Str(s))
        <==> !(s != "" && !Contains(s, "?raw=1") && !Contains(s, "?dl=0") && Contains(s, "?"))
  {
    var r := ToRawDropboxUrl(Str(s));
    if s == "" || Contains(s, "?raw=1") {
    } else if Contains(s, "?dl=0") {
      OccursContains(r, "?raw=1", IndexOf(s, "?dl=0"));
    } else if !Contains(s, "?") {
      assert r == s + "?raw=1";
      OccursContains(r, "?raw=1", |s|);
    } else {
      assert r == s + "&raw=1";
      NoOccurrenceAcrossAppend(s, "&raw=1", "?raw=1");
      NoOccurrenceAcrossAppend(s, "&raw=1", "?dl=0");
      assert |ToRawDropboxUrl(Str(r))| > |r|;
    }
  }

  // ---------------------------------------------------------------------------
  // ensureSharedLink

  /** The error signature that makes `ensureSharedLink` fall back to listing links. */
  predicate AlreadyExists(e: Error) {
    Contains(if e.summary.Some? then e.summary.value else "", "shared_link_already_exists")
  }

  /** What `ensureSharedLink(dropbox, path)` returns or throws, and the calls it makes. */
  function EnsureSharedLinkRun(respond: DropboxOracle, h: seq<DropboxCall>, path: string): Step<Result<string, Error>> {
    var create := CreateSharedLink(path, None);
    match respond(h, create)
    case Success(p) => Step(Success(ToRawDropboxUrl(ResultUrl(p))), [create])
    case Failure(e) =>
      if !AlreadyExists(e) then Step(Failure(e), [create])
      else
        var list := ListSharedLinks(path, true);
        match respond(h + [create], list)
        case Failure(listError) => Step(Failure(listError), [create, list])
        case Success(p) =>
          var url := FirstListedUrl(p);
          if !Truthy(url) then Step(Failure(e), [create, list])
          else Step(Success(ToRawDropboxUrl(url)), [create, list])
  }

  /** `ensureSharedLink(dropbox, path)`: create a link, or reuse the first existing one. */
  method EnsureSharedLink(dropbox: Client, path: string) returns (r: Result<string, Error>)
    modifies dropbox
    ensures var run := EnsureSharedLinkRun(dropbox.respond, old(dropbox.calls), path);
      r == run.result && dropbox.calls == old(dropbox.calls) + run.calls
  {
    var created := dropbox.Call(CreateSharedLink(path, None));
    match created {
      case Success(p) =>
        return Success(ToRawDropboxUrl(ResultUrl(p)));
      case Failure(error) =>
        if !AlreadyExists(error) {
          return Failure(error);
        }
        var existing := dropbox.Call(ListSharedLinks(path, true));
        match existing {
          case Failure(listError) =>
            return Failure(listError);
          case Success(p) =>
            var url := FirstListedUrl(p);
            if !Truthy(url) {
              return Failure(error);
            }
            return Success(ToRawDropboxUrl(url));
        }
    }
  }

  /** A successful create returns its link in raw form and never lists. */
  lemma SharedLinkCreated(respond: DropboxOracle, h: seq<DropboxCall>, path: string)
    requires respond(h, CreateSharedLink(path, None)).Success?
    ensures var run := EnsureSharedLinkRun(respond, h, path);
      && run.calls == [CreateSharedLink(path, None)]
      && run.result == Success(ToRawDropboxUrl(ResultUrl(respond(h, CreateSharedLink(path, None)).value)))
  {
  }

  /** Any other create error is rethrown unchanged, and nothing is listed. */
  lemma SharedLinkOtherErrorRethrown(respond: DropboxOracle, h: seq<DropboxCall>, path: string)
    requires respond(h, CreateSharedLink(path, None)).Failure?
    requires !AlreadyExists(respond(h, CreateSharedLink(path, None)).error)
    ensures var run := EnsureSharedLinkRun(respond, h, path);
      && run.calls == [CreateSharedLink(path, None)]
      && run.result == Failure(respond(h, CreateSharedLink(path, None)).error)
  {
  }

  /**
   * On "already exists" the same path is listed with `direct_only`; the first listed
   * link is returned in raw form, and without one the original create error is rethrown.
   */
  lemma SharedLinkFallsBackToList(respond: DropboxOracle, h: seq<DropboxCall>, path: string)
    requires respond(h, CreateSharedLink(path, None)).Failure?
    requires AlreadyExists(respond(h, CreateSharedLink(path, None)).error)
    ensures var run := EnsureSharedLinkRun(respond, h, path);
      var create := CreateSharedLink(path, None);
      var listed := respond(h + [create], ListSharedLinks(path, true));
      && run.calls == [create, ListSharedLinks(path, true)]
      && (listed.Success? && Truthy(FirstListedUrl(listed.value)) ==>
            run.result == Success(ToRawDropboxUrl(FirstListedUrl(listed.value))))
      && (listed.Success? && !Truthy(FirstListedUrl(listed.value)) ==>
            run.result == Failure(respond(h, create).error))
      && (listed.Failure? ==> run.result == Failure(listed.error))
  {
  }

  /** The provider reports link `u` for `path`, through create or through the listing. */
  predicate ReportsLink(respond: DropboxOracle, h: seq<DropboxCall>, path: string, u: string) {
    var create := CreateSharedLink(path, None);
    var created := respond(h, create);
    && u != ""
    && (|| created == Success(LinkPayload(u))
        || (&& created.Failure?
            && AlreadyExists(created.error)
            && respond(h + [create], ListSharedLinks(path, true)).Success?
            && FirstListedUrl(respond(h + [create], ListSharedLinks(path, true)).value) == Str(u)))
  }

  /**
   * Idempotence: two calls on the same path, whichever route each takes (a fresh
   * create or the "already exists" listing), return the same normalised URL as long
   * as the provider reports the same link.
   */
  lemma SharedLinkStable(respond: DropboxOracle, h1: seq<DropboxCall>, h2: seq<DropboxCall>, path: string, u: string)
    requires ReportsLink(respond, h1, path, u) && ReportsLink(respond, h2, path, u)
    ensures EnsureSharedLinkRun(respond, h1, path).result == Success(ToRawDropboxUrl(Str(u)))
    ensures EnsureSharedLinkRun(respond, h1, path).result == EnsureSharedLinkRun(respond, h2, path).result
  {
  }

  // ---------------------------------------------------------------------------
  // uploadBuffer

  /** The options of `uploadBuffer`; `autorename` and `mute` are absent when not given. */
  datatype UploadArgs = UploadArgs(path: string, contents: seq<Byte>, mode: WriteMode, autorename: Option<bool>, mute: Option<bool>)

  /** The `filesUpload` call `uploadBuffer` makes: fields forwarded, flags default to false. */
  function UploadCall(args: UploadArgs): (c: DropboxCall)
    ensures c.FilesUpload? && c.path == args.path && c.contents == args.contents && c.mode == args.mode
    ensures c.autorename <==> args.autorename == Some(true)
    ensures c.mute <==> args.mute == Some(true)
  {
    FilesUpload(args.path, args.contents, args.mode, args.autorename.GetOr(false), args.mute.GetOr(false))
  }

  /** `uploadBuffer(dropbox, args)`: one `filesUpload` call, whose reply is returned. */
  method UploadBuffer(dropbox: Client, args: UploadArgs) returns (r: DropboxReply)
    modifies dropbox
    ensures dropbox.calls == old(dropbox.calls) + [UploadCall(args)]
    ensures r == dropbox.respond(old(dropbox.calls), UploadCall(args))
  {
    r := dropbox.Call(UploadCall(args));
  }
}
