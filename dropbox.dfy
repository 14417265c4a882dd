/**
 * The Dropbox backend that stores multiplayer game files
 * (`com.unciv.logic.multiplayer.storage.DropBox`).
 *
 * HTTP is abstracted as a `server` function from the request that would be
 * sent to the response that comes back, and the one-second rate-limit timer
 * as an explicit `TimerTick` step.
 */
module MultiplayerStorage {
  import opened Wrappers
  import KotlinInt

  // ---------------------------------------------------------------------------
  // Error payloads and their classification
  // ---------------------------------------------------------------------------

  /** `ErrorResponse.Details`: `retry_after` is read as a string. */
  datatype Details = Details(retryAfter: string)

  /** The JSON error body Dropbox sends with a failed request. */
  datatype ErrorResponse = ErrorResponse(errorSummary: string, error: Option<Details>)

  const TooManyRequestsPrefix: string := "too_many_requests/"
  const PathNotFoundPrefix: string := "path/not_found/"
  const PathConflictPrefix: string := "path/conflict/file"

  /** Seconds to wait when the error body gives no usable `retry_after`. */
  const DefaultRetrySeconds: int := 300

  datatype ErrorKind = TooManyRequests | PathNotFound | PathConflict | Unrecognised

  /** No summary starts with two of the three prefixes. */
  lemma PrefixesExclusive(summary: string)
    ensures !(TooManyRequestsPrefix <= summary && PathNotFoundPrefix <= summary)
    ensures !(TooManyRequestsPrefix <= summary && PathConflictPrefix <= summary)
    ensures !(PathNotFoundPrefix <= summary && PathConflictPrefix <= summary)
  {
    if TooManyRequestsPrefix <= summary {
      assert summary[0] == 't';
    }
    if PathNotFoundPrefix <= summary {
      assert summary[5] == 'n';
    }
  }

  /** The `when` over the prefix of `error_summary`. */
  function Classify(summary: string): (k: ErrorKind)
    ensures k == TooManyRequests <==> TooManyRequestsPrefix <= summary
    ensures k == PathNotFound <==> PathNotFoundPrefix <= summary
    ensures k == PathConflict <==> PathConflictPrefix <= summary
  {
    PrefixesExclusive(summary);
    if TooManyRequestsPrefix <= summary then TooManyRequests
    else if PathNotFoundPrefix <= summary then PathNotFound
    else if PathConflictPrefix <= summary then PathConflict
    else Unrecognised
  }

  /**
   * The seconds to wait after a rate-limit error: the `retry_after` detail
   * when it is present and parses as an `Int`, otherwise the default.
   */
  function RetryAfterSeconds(response: ErrorResponse): (seconds: int)
    ensures KotlinInt.InIntRange(seconds)
    ensures response.error.None? ==> seconds == DefaultRetrySeconds
    ensures response.error.Some? ==>
      var parsed := KotlinInt.ToIntOrNull(response.error.value.retryAfter);
      (parsed.Some? && seconds == parsed.value) || (parsed.None? && seconds == DefaultRetrySeconds)
  {
    match response.error
    case None => DefaultRetrySeconds
    case Some(details) =>
      match KotlinInt.ToIntOrNull(details.retryAfter)
      case Some(n) => n
      case None => DefaultRetrySeconds
  }

  /** A `retry_after` written as any `Int` is the number of seconds the limiter is armed with. */
  lemma RetryAfterWrittenAsInt(summary: string, n: int)
    requires KotlinInt.InIntRange(n)
    ensures RetryAfterSeconds(ErrorResponse(summary, Some(Details(KotlinInt.IntToString(n))))) == n
  {
    KotlinInt.ParseIntToString(n);
  }

  // ---------------------------------------------------------------------------
  // The rate limiter
  // ---------------------------------------------------------------------------

  /**
   * The rate-limit state of the object: the counter `remainingRateLimitSeconds`,
   * whether the timer that `rateLimitTimer` refers to is still scheduled, and how
   * many earlier timers are still running although nothing refers to them any
   * more (arming again replaces `rateLimitTimer` without cancelling the old one).
   */
  datatype LimiterState = LimiterState(remaining: int, scheduled: bool, orphaned: nat)
  {
    /** The gate of `dropboxApi`: a request is refused while the counter is positive. */
    predicate Admits() {
      !(remaining > 0)
    }

    function LiveTimers(): nat {
      orphaned + if scheduled then 1 else 0
    }
  }

  /** The state when the object is created. */
  const Idle: LimiterState := LimiterState(0, false, 0)

  /** The state in which the counter is a countdown kept by exactly one timer. */
  predicate Settled(l: LimiterState) {
    l.orphaned == 0 && l.remaining >= 0 && (l.scheduled <==> l.remaining > 0)
  }

  /** `triggerRateLimit`: the counter takes the new value and a new timer starts. */
  function Arm(l: LimiterState, seconds: int): (a: LimiterState)
    ensures a.remaining == seconds && a.scheduled
    ensures a.LiveTimers() == l.LiveTimers() + 1
    ensures Settled(l) && l.Admits() && seconds > 0 ==> Settled(a) && !a.Admits()
  {
    LimiterState(seconds, true, l.orphaned + if l.scheduled then 1 else 0)
  }

  /** One run of a timer's body: decrement, and cancel `rateLimitTimer` on reaching 0. */
  function Fire(l: LimiterState): (f: LimiterState)
    ensures f.remaining == l.remaining - 1
    ensures f.orphaned == l.orphaned
    ensures f.scheduled <==> l.scheduled && f.remaining != 0
  {
    LimiterState(l.remaining - 1, l.scheduled && l.remaining - 1 != 0, l.orphaned)
  }

  /** The state after `n` timer runs. */
  function Countdown(l: LimiterState, n: nat): LimiterState
    decreases n
  {
    if n == 0 then l else Countdown(Fire(l), n - 1)
  }

  /** From a settled state, every run keeps the state settled and takes exactly one second off. */
  lemma {:induction false} CountdownSettled(l: LimiterState, n: nat)
    requires Settled(l) && n <= l.remaining
    ensures Countdown(l, n) == LimiterState(l.remaining - n, n < l.remaining, 0)
    decreases n
  {
    if n > 0 {
      CountdownSettled(Fire(l), n - 1);
    }
  }

  /**
   * Arming with `seconds > 0` closes the gate for exactly `seconds` timer runs:
   * before each of them the timer is still scheduled and the gate refuses, and
   * after the last one the counter is 0, the timer is cancelled and the gate admits.
   */
  lemma ArmedGateOpensAfter(l: LimiterState, seconds: int)
    requires Settled(l) && l.Admits() && seconds > 0
    ensures forall k :: 0 <= k < seconds ==>
      Countdown(Arm(l, seconds), k).scheduled && !Countdown(Arm(l, seconds), k).Admits()
    ensures Countdown(Arm(l, seconds), seconds) == Idle
  {
    var a := Arm(l, seconds);
    forall k | 0 <= k < seconds
      ensures Countdown(a, k).scheduled && !Countdown(a, k).Admits()
    {
      CountdownSettled(a, k);
    }
    CountdownSettled(a, seconds);
  }

  /**
   * A counter that is not positive while its timer is scheduled (after arming
   * with a `retry_after` of 0 or less) only moves further below 0: it never
   * equals 0 after a decrement, so the timer is never cancelled.
   */
  lemma {:induction false} NonPositiveCountdownNeverStops(l: LimiterState, n: nat)
    requires l.scheduled && l.remaining <= 0
    ensures Countdown(l, n) == LimiterState(l.remaining - n, true, l.orphaned)
    decreases n
  {
    if n > 0 {
      NonPositiveCountdownNeverStops(Fire(l), n - 1);
    }
  }

  /** Arming with 0 leaves the gate open, but the timer keeps running and the counter goes negative. */
  lemma ZeroRetryTimerRunsForever(n: nat)
    ensures Countdown(Arm(Idle, 0), n) == LimiterState(-(n as int), true, 0)
  {
    NonPositiveCountdownNeverStops(Arm(Idle, 0), n);
  }

  // ---------------------------------------------------------------------------
  // Requests
  // ---------------------------------------------------------------------------

  const DeleteUrl: string := "https://api.dropboxapi.com/2/files/delete_v2"
  const MetadataUrl: string := "https://api.dropboxapi.com/2/files/get_metadata"
  const UploadUrl: string := "https://content.dropboxapi.com/2/files/upload"
  const DownloadUrl: string := "https://content.dropboxapi.com/2/files/download"

  const AuthorizationHeader: string := "Authorization"
  const ApiArgHeader: string := "Dropbox-API-Arg"
  const ContentTypeHeader: string := "Content-Type"

  /** A POST request: the target URL, the request properties and the bytes written, if any. */
  datatype HttpRequest = HttpRequest(url: string, headers: map<string, string>, body: Option<string>)

  /** The request properties and body `dropboxApi` sets up on the connection. */
  function BuildRequest(token: string, url: string, data: string, contentType: string, apiArg: string): (req: HttpRequest)
    ensures req.url == url
    ensures AuthorizationHeader in req.headers && req.headers[AuthorizationHeader] == "Bearer " + token
    ensures ApiArgHeader in req.headers <==> apiArg != ""
    ensures ApiArgHeader in req.headers ==> req.headers[ApiArgHeader] == apiArg
    ensures ContentTypeHeader in req.headers <==> contentType != ""
    ensures ContentTypeHeader in req.headers ==> req.headers[ContentTypeHeader] == contentType
    ensures req.headers.Keys <= {AuthorizationHeader, ApiArgHeader, ContentTypeHeader}
    ensures req.body.Some? <==> data != ""
    ensures req.body.Some? ==> req.body.value == data
  {
    var auth := map[AuthorizationHeader := "Bearer " + token];
    var withArg := if apiArg != "" then auth[ApiArgHeader := apiArg] else auth;
    var headers := if contentType != "" then withArg[ContentTypeHeader := contentType] else withArg;
    HttpRequest(url, headers, if data != "" then Some(data) else None)
  }

  const Folder: string := "/MultiplayerGames/"

  /** `getLocalGameLocation`: the Dropbox path of a game file. */
  function GameLocation(fileName: string): (path: string)
    ensures Folder <= path && path[|Folder|..] == fileName
  {
    Folder + fileName
  }

  const ArgHead: string := "{\"path\":\""
  const OverwriteMode: string := ",\"mode\":{\".tag\":\"overwrite\"}"

  /**
   * The JSON argument naming a path: the head, the path verbatim, the closing
   * quote, the overwrite mode when asked for, and the closing brace.
   */
  function PathArg(path: string, overwrite: bool): (arg: string)
    ensures |arg| >= |ArgHead| + |path| + 2
    ensures ArgHead <= arg && arg[|ArgHead|..|ArgHead| + |path|] == path
    ensures overwrite ==> arg[|ArgHead| + |path|..] == "\"" + OverwriteMode + "}"
    ensures !overwrite ==> arg[|ArgHead| + |path|..] == "\"}"
  {
    ArgHead + path + "\"" + (if overwrite then OverwriteMode else "") + "}"
  }

  /** How the backend reads a path argument back: the path and whether overwrite mode was given. */
  function ParseArg(arg: string): Option<(string, bool)> {
    var overwriteTail := "\"" + OverwriteMode + "}";
    if !(ArgHead <= arg) then None
    else
      var rest := arg[|ArgHead|..];
      if |rest| >= |overwriteTail| && rest[|rest| - |overwriteTail|..] == overwriteTail then
        Some((rest[..|rest| - |overwriteTail|], true))
      else if |rest| >= 2 && rest[|rest| - 2..] == "\"}" then
        Some((rest[..|rest| - 2], false))
      else None
  }

  /** The backend reads back exactly the path and the mode the argument was written with. */
  lemma ParsePathArg(path: string, overwrite: bool)
    ensures ParseArg(PathArg(path, overwrite)) == Some((path, overwrite))
  {
    var arg := PathArg(path, overwrite);
    var overwriteTail := "\"" + OverwriteMode + "}";
    assert ArgHead <= arg;
    var rest := arg[|ArgHead|..];
    if overwrite {
      assert rest == path + overwriteTail;
      assert rest[|rest| - |overwriteTail|..] == overwriteTail;
    } else {
      assert rest == path + "\"}";
      assert rest[|rest| - 2] != overwriteTail[|overwriteTail| - 2];
      assert rest[|rest| - 2..] == "\"}";
    }
  }

  /** The upload argument of `saveFileData`. */
  function UploadArg(fileName: string, overwrite: bool): (arg: string)
    ensures ParseArg(arg) == Some((GameLocation(fileName), overwrite))
  {
    ParsePathArg(GameLocation(fileName), overwrite);
    PathArg(GameLocation(fileName), overwrite)
  }

  /** `deleteFile`: the path argument of the game file, sent as a JSON body. */
  function DeleteRequest(token: string, fileName: string): (req: HttpRequest)
    ensures req.url == DeleteUrl && ApiArgHeader !in req.headers
    ensures ContentTypeHeader in req.headers && req.headers[ContentTypeHeader] == "application/json"
    ensures Target(req) == Some((GameLocation(fileName), false))
  {
    ParsePathArg(GameLocation(fileName), false);
    BuildRequest(token, DeleteUrl, PathArg(GameLocation(fileName), false), "application/json", "")
  }

  /** `getFileMetaData`: the path argument of the game file, sent as a JSON body. */
  function MetadataRequest(token: string, fileName: string): (req: HttpRequest)
    ensures req.url == MetadataUrl && ApiArgHeader !in req.headers
    ensures ContentTypeHeader in req.headers && req.headers[ContentTypeHeader] == "application/json"
    ensures Target(req) == Some((GameLocation(fileName), false))
  {
    ParsePathArg(GameLocation(fileName), false);
    BuildRequest(token, MetadataUrl, PathArg(GameLocation(fileName), false), "application/json", "")
  }

  /** `saveFileData`: the data as the body, the path and mode in `Dropbox-API-Arg`. */
  function UploadRequest(token: string, fileName: string, data: string, overwrite: bool): (req: HttpRequest)
    ensures req.url == UploadUrl
    ensures ContentTypeHeader in req.headers && req.headers[ContentTypeHeader] == "application/octet-stream"
    ensures ApiArgHeader in req.headers
    ensures req.body.Some? <==> data != ""
    ensures req.body.Some? ==> req.body.value == data
    ensures Target(req) == Some((GameLocation(fileName), overwrite))
  {
    BuildRequest(token, UploadUrl, data, "application/octet-stream", UploadArg(fileName, overwrite))
  }

  /** `downloadFile` is given a Dropbox path, not a file name; it sends no body. */
  function DownloadRequest(token: string, path: string): (req: HttpRequest)
    ensures req.url == DownloadUrl && req.body.None?
    ensures ContentTypeHeader in req.headers && req.headers[ContentTypeHeader] == "text/plain"
    ensures Target(req) == Some((path, false))
  {
    ParsePathArg(path, false);
    BuildRequest(token, DownloadUrl, "", "text/plain", PathArg(path, false))
  }

  /** `fileExists` asks for the metadata of the name as given. */
  function ExistsRequest(token: string, fileName: string): (req: HttpRequest)
    ensures req.url == MetadataUrl && ApiArgHeader !in req.headers
    ensures ContentTypeHeader in req.headers && req.headers[ContentTypeHeader] == "application/json"
    ensures Target(req) == Some((fileName, false))
  {
    ParsePathArg(fileName, false);
    BuildRequest(token, MetadataUrl, PathArg(fileName, false), "application/json", "")
  }

  /** The path (and mode) a request addresses: in `Dropbox-API-Arg` if present, else in the body. */
  function Target(req: HttpRequest): Option<(string, bool)> {
    if ApiArgHeader in req.headers then ParseArg(req.headers[ApiArgHeader])
    else if req.body.Some? then ParseArg(req.body.value)
    else None
  }

  /**
   * `deleteFile`, `getFileMetaData`, `saveFileData` and `loadFileData` address
   * the file in the game folder; `fileExists` addresses the bare name. Only an
   * upload with `overwrite` asks for overwrite mode. A summary, side by side,
   * of what each request function above states on its own.
   */
  lemma RequestTargets(token: string, fileName: string, data: string, overwrite: bool)
    ensures Target(DeleteRequest(token, fileName)) == Some((GameLocation(fileName), false))
    ensures Target(MetadataRequest(token, fileName)) == Some((GameLocation(fileName), false))
    ensures Target(UploadRequest(token, fileName, data, overwrite)) == Some((GameLocation(fileName), overwrite))
    ensures Target(DownloadRequest(token, GameLocation(fileName))) == Some((GameLocation(fileName), false))
    ensures Target(ExistsRequest(token, fileName)) == Some((fileName, false))
  {
  }

  /** The metadata request of `fileExists` never addresses the same path as that of `getFileMetaData`. */
  lemma ExistsSkipsFolder(token: string, fileName: string)
    ensures Target(ExistsRequest(token, fileName)) != Target(MetadataRequest(token, fileName))
  {
    RequestTargets(token, fileName, "", false);
    assert |GameLocation(fileName)| != |fileName|;
  }

  // ---------------------------------------------------------------------------
  // Responses
  // ---------------------------------------------------------------------------

  /**
   * What the connection yields: the input stream (its text) on success, or the
   * error body read from the error stream; `None` when reading or parsing that
   * body throws.
   */
  datatype HttpResponse = Delivered(stream: string) | Rejected(errorBody: Option<ErrorResponse>)

  /** The exceptions the storage calls throw. */
  datatype Failure =
    | RateLimitReached(remainingSeconds: int)  // FileStorageRateLimitReached
    | FileNotFound                             // FileNotFoundException
    | Conflict                                 // FileStorageConflictException
    | NullStream                               // the `!!` on a null stream
    | ErrorBodyUnreadable                      // reading or parsing the error body threw

  /** The result of `dropboxApi`: a stream, `null`, or an exception. */
  type ApiResult = Result<Option<string>, Failure>

  predicate SummaryStarts(resp: HttpResponse, prefix: string) {
    resp.Rejected? && resp.errorBody.Some? && prefix <= resp.errorBody.value.errorSummary
  }

  /** How `dropboxApi` turns an admitted request's response into its result. */
  function Reply(resp: HttpResponse): (r: ApiResult)
    ensures r.Ok? && r.value.Some? <==> resp.Delivered?
    ensures resp.Delivered? ==> r.value.value == resp.stream
    ensures r.Err? && r.error.RateLimitReached? <==> SummaryStarts(resp, TooManyRequestsPrefix)
    ensures SummaryStarts(resp, TooManyRequestsPrefix) ==>
      r.error.remainingSeconds == RetryAfterSeconds(resp.errorBody.value)
    ensures r == Err(FileNotFound) <==> SummaryStarts(resp, PathNotFoundPrefix)
    ensures r == Err(Conflict) <==> SummaryStarts(resp, PathConflictPrefix)
    ensures r == Err(ErrorBodyUnreadable) <==> resp == Rejected(None)
    ensures r == Ok(None) <==>
      resp.Rejected? && resp.errorBody.Some? && Classify(resp.errorBody.value.errorSummary) == Unrecognised
    ensures r != Err(NullStream)
  {
    match resp
    case Delivered(stream) => Ok(Some(stream))
    case Rejected(None) => Err(ErrorBodyUnreadable)
    case Rejected(Some(error)) =>
      match Classify(error.errorSummary)
      case TooManyRequests => Err(RateLimitReached(RetryAfterSeconds(error)))
      case PathNotFound => Err(FileNotFound)
      case PathConflict => Err(Conflict)
      case Unrecognised => Ok(None)
  }

  /** One call of `dropboxApi`: its result, the limiter afterwards, and the request sent, if any. */
  datatype Exchange = Exchange(result: ApiResult, limiter: LimiterState, sent: Option<HttpRequest>)

  function Call(l: LimiterState, req: HttpRequest, server: HttpRequest -> HttpResponse): (x: Exchange)
    ensures !l.Admits() ==> x == Exchange(Err(RateLimitReached(l.remaining)), l, None)
    ensures l.Admits() ==> x.sent == Some(req) && x.result == Reply(server(req))
    ensures x.result.Err? && x.result.error.RateLimitReached? ==>
      x.result.error.remainingSeconds == x.limiter.remaining
    ensures x.limiter == l || (SummaryStarts(server(req), TooManyRequestsPrefix) && x.sent.Some?)
    ensures l.Admits() && SummaryStarts(server(req), TooManyRequestsPrefix) ==>
      x.limiter == Arm(l, RetryAfterSeconds(server(req).errorBody.value))
  {
    if !l.Admits() then Exchange(Err(RateLimitReached(l.remaining)), l, None)
    else
      var resp := server(req);
      var l' := if SummaryStarts(resp, TooManyRequestsPrefix)
        then Arm(l, RetryAfterSeconds(resp.errorBody.value)) else l;
      Exchange(Reply(resp), l', Some(req))
  }

  /** A caller that ignores the stream (`deleteFile`, `saveFileData`). */
  function IgnoreStream(a: ApiResult): (r: Result<(), Failure>)
    ensures r.Ok? <==> a.Ok?
    ensures a.Err? ==> r.error == a.error
  {
    match a
    case Ok(_) => Ok(())
    case Err(e) => Err(e)
  }

  /** A caller that applies `!!` to the stream (`getFileMetaData`, `downloadFile`). */
  function NonNull(a: ApiResult): (r: Result<string, Failure>)
    ensures r.Ok? <==> a.Ok? && a.value.Some?
    ensures r.Ok? ==> r.value == a.value.value
    ensures a == Ok(None) ==> r == Err(NullStream)
    ensures a.Err? ==> r == Err(a.error)
  {
    match a
    case Ok(Some(stream)) => Ok(stream)
    case Ok(None) => Err(NullStream)
    case Err(e) => Err(e)
  }

  /** `fileExists`: only `FileNotFoundException` is caught, as `false`. */
  function ExistsOf(a: ApiResult): (r: Result<bool, Failure>)
    ensures r == Ok(false) <==> a == Err(FileNotFound)
    ensures r == Ok(true) <==> a.Ok?
    ensures a.Err? && a.error != FileNotFound ==> r == Err(a.error)
  {
    match a
    case Ok(_) => Ok(true)
    case Err(FileNotFound) => Ok(false)
    case Err(e) => Err(e)
  }

  /**
   * An admitted request whose error summary is none of the three known ones
   * throws nothing inside `dropboxApi`: deleting and saving succeed, `fileExists`
   * answers true, and reading the metadata or the file fails on `!!`.
   */
  lemma UnrecognisedSummary(l: LimiterState, req: HttpRequest, server: HttpRequest -> HttpResponse)
    requires l.Admits()
    requires server(req).Rejected? && server(req).errorBody.Some?
    requires Classify(server(req).errorBody.value.errorSummary) == Unrecognised
    ensures Call(l, req, server).limiter == l
    ensures IgnoreStream(Call(l, req, server).result) == Ok(())
    ensures NonNull(Call(l, req, server).result) == Err(NullStream)
    ensures ExistsOf(Call(l, req, server).result) == Ok(true)
  {
  }

  // ---------------------------------------------------------------------------
  // The storage object
  // ---------------------------------------------------------------------------

  /** The `DropBox` object, with its bearer token as a constant. */
  class DropBox {
    const token: string
    var remainingRateLimitSeconds: int
    /** `rateLimitTimer` refers to a timer that has not been cancelled. */
    var timerScheduled: bool
    /** Timers started before the one `rateLimitTimer` refers to, never cancelled. */
    var orphanedTimers: nat

    function Limiter(): LimiterState
      reads this
    {
      LimiterState(remainingRateLimitSeconds, timerScheduled, orphanedTimers)
    }

    constructor (token: string)
      ensures this.token == token && Limiter() == Idle
    {
      this.token := token;
      remainingRateLimitSeconds := 0;
      timerScheduled := false;
      orphanedTimers := 0;
    }

    /** `dropboxApi`: the gate, the request, and the classification of an error body. */
    method DropboxApi(url: string, data: string, contentType: string, apiArg: string,
                      server: HttpRequest -> HttpResponse)
      returns (r: ApiResult, sent: Option<HttpRequest>)
      modifies this
      ensures Exchange(r, Limiter(), sent) == Call(old(Limiter()), BuildRequest(token, url, data, contentType, apiArg), server)
    {
      if remainingRateLimitSeconds > 0 {
        return Err(RateLimitReached(remainingRateLimitSeconds)), None;
      }
      var req := BuildRequest(token, url, data, contentType, apiArg);
      sent := Some(req);
      match server(req)
      case Delivered(stream) =>
        r := Ok(Some(stream));
      case Rejected(None) =>
        r := Err(ErrorBodyUnreadable);
      case Rejected(Some(error)) =>
        match Classify(error.errorSummary)
        case TooManyRequests =>
          var f := TriggerRateLimit(error);
          r := Err(f);
        case PathNotFound =>
          r := Err(FileNotFound);
        case PathConflict =>
          r := Err(Conflict);
        case Unrecognised =>
          r := Ok(None);
    }

    /** `triggerRateLimit`: arm the counter, start a timer, throw. */
    method TriggerRateLimit(response: ErrorResponse) returns (f: Failure)
      modifies this
      ensures Limiter() == Arm(old(Limiter()), RetryAfterSeconds(response))
      ensures f == RateLimitReached(remainingRateLimitSeconds)
    {
      remainingRateLimitSeconds := RetryAfterSeconds(response);
      if timerScheduled {
        orphanedTimers := orphanedTimers + 1;
      }
      timerScheduled := true;
      f := RateLimitReached(remainingRateLimitSeconds);
    }

    /** One run of the body of a rate-limit timer; only a timer that is still running runs. */
    method TimerTick()
      requires Limiter().LiveTimers() > 0
      modifies this
      ensures Limiter() == Fire(old(Limiter()))
    {
      remainingRateLimitSeconds := remainingRateLimitSeconds - 1;
      if remainingRateLimitSeconds == 0 {
        timerScheduled := false;
      }
    }

    method DeleteFile(fileName: string, server: HttpRequest -> HttpResponse)
      returns (r: Result<(), Failure>, sent: Option<HttpRequest>)
      modifies this
      ensures var x := Call(old(Limiter()), DeleteRequest(token, fileName), server);
        Limiter() == x.limiter && sent == x.sent && r == IgnoreStream(x.result)
    {
      var a;
      a, sent := DropboxApi(DeleteUrl, PathArg(GameLocation(fileName), false), "application/json", "", server);
      r := IgnoreStream(a);
    }

    /** The metadata is returned as the text of the response; its JSON decoding is not modelled. */
    method GetFileMetaData(fileName: string, server: HttpRequest -> HttpResponse)
      returns (r: Result<string, Failure>, sent: Option<HttpRequest>)
      modifies this
      ensures var x := Call(old(Limiter()), MetadataRequest(token, fileName), server);
        Limiter() == x.limiter && sent == x.sent && r == NonNull(x.result)
    {
      var a;
      a, sent := DropboxApi(MetadataUrl, PathArg(GameLocation(fileName), false), "application/json", "", server);
      r := NonNull(a);
    }

    method SaveFileData(fileName: string, data: string, overwrite: bool, server: HttpRequest -> HttpResponse)
      returns (r: Result<(), Failure>, sent: Option<HttpRequest>)
      modifies this
      ensures var x := Call(old(Limiter()), UploadRequest(token, fileName, data, overwrite), server);
        Limiter() == x.limiter && sent == x.sent && r == IgnoreStream(x.result)
    {
      var a;
      a, sent := DropboxApi(UploadUrl, data, "application/octet-stream", UploadArg(fileName, overwrite), server);
      r := IgnoreStream(a);
    }

    method LoadFileData(fileName: string, server: HttpRequest -> HttpResponse)
      returns (r: Result<string, Failure>, sent: Option<HttpRequest>)
      modifies this
      ensures var x := Call(old(Limiter()), DownloadRequest(token, GameLocation(fileName)), server);
        Limiter() == x.limiter && sent == x.sent && r == NonNull(x.result)
    {
      r, sent := DownloadFile(GameLocation(fileName), server);
    }

    method DownloadFile(fileName: string, server: HttpRequest -> HttpResponse)
      returns (r: Result<string, Failure>, sent: Option<HttpRequest>)
      modifies this
      ensures var x := Call(old(Limiter()), DownloadRequest(token, fileName), server);
        Limiter() == x.limiter && sent == x.sent && r == NonNull(x.result)
    {
      var a;
      a, sent := DropboxApi(DownloadUrl, "", "text/plain", PathArg(fileName, false), server);
      r := NonNull(a);
    }

    method FileExists(fileName: string, server: HttpRequest -> HttpResponse)
      returns (r: Result<bool, Failure>, sent: Option<HttpRequest>)
      modifies this
      ensures var x := Call(old(Limiter()), ExistsRequest(token, fileName), server);
        Limiter() == x.limiter && sent == x.sent && r == ExistsOf(x.result)
    {
      var a;
      a, sent := DropboxApi(MetadataUrl, PathArg(fileName, false), "application/json", "", server);
      r := ExistsOf(a);
    }
  }
}
