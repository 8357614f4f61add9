/**
 * How NetField.Do reacts to particular answers of the transport and of the
 * cancellation token: cancellation before anything is sent, the
 * classification of each kind of outcome, the download of a 200 body, and
 * a transport that fails every time, which exhausts the fail-over URLs and
 * the retry budget in a fixed order.
 */
module FieldScenarios {
  import opened Wrappers
  import opened Transport
  import opened NetTasks
  import opened Passes
  import opened FieldRequest
  import opened FieldSpec
  import opened FieldInvariants

  /** The cancellation token is never cancelled. */
  predicate NoCancel(env: Env) {
    forall k :: 0 <= k < |env.cancel| ==> !env.cancel[k]
  }

  // ---------------------------------------------------------------- cancellation

  /** A token cancelled before Do starts: CancleCallback only, nothing sent, no pass run. */
  lemma CancelledAtEntry(env: Env, passes: seq<Pass>, t: NetTask)
    requires CancelRequested(env, 0)
    ensures Spec(env, passes, t) == Report(t, [Cancel], [], [], false)
  {
    var c := Initial(t);
    AdvanceRetryProcedure(env, passes, c, RetryProcedureStep(env, passes, c));
  }

  /** Cancelled after the pipeline ran but before the first send: the passes' result, CancleCallback only. */
  lemma CancelledBeforeSend(env: Env, passes: seq<Pass>, t: NetTask)
    requires !CancelRequested(env, 0) && CancelRequested(env, 1)
    ensures Spec(env, passes, t) == Report(Fold(passes, t), [Cancel], [], [], false)
  {
    var c := Initial(t);
    var c1 := RetryProcedureStep(env, passes, c);
    AdvanceRetryProcedure(env, passes, c, c1);
    AdvanceRedirection(env, passes, c1, RedirectionStep(env, c1));
  }

  /**
   * Cancelled at `REDIRECTION`, whether on the first attempt, after a redirect
   * or after a retry: CancleCallback ends the run, nothing is sent and no
   * request is recorded.
   */
  lemma CancelledAtRedirection(env: Env, passes: seq<Pass>, c: Config)
    requires c.phase == Redirection && c.sent <= |env.outcomes| && CancelRequested(env, c.checks)
    ensures Run(env, passes, c) == c.(phase := Finished, checks := c.checks + 1, log := c.log + [Cancel])
  {
    AdvanceRedirection(env, passes, c, RedirectionStep(env, c));
  }

  // ---------------------------------------------------------------- one send, classified

  /** At `REDIRECTION`, no checkpoint cancels and the transport has an outcome for the send. */
  predicate Sends(env: Env, c: Config) {
    c.phase == Redirection && c.sent < |env.outcomes|
    && !CancelRequested(env, c.checks) && !(WritesBody(c.task) && CancelRequested(env, c.checks + 1))
  }

  /** An invalid URI ends the run after StartCallback, whatever retries are left. */
  lemma UriFormatStops(env: Env, c: Config)
    requires c.phase == Redirection && c.sent < |env.outcomes| && !CancelRequested(env, c.checks)
    requires env.outcomes[c.sent].UriFormat?
    ensures var r := RedirectionStep(env, c);
      r.phase == Finished && r.log == c.log + [Start, Error(UriFormatError, UriFailure)]
      && r.requests == c.requests && r.retryCount == c.retryCount && r.sent == c.sent + 1
  {
  }

  /** A critical status (400, 401, 403, 404, 500) returned normally ends the run with one error. */
  lemma CriticalStatusStops(env: Env, c: Config)
    requires Sends(env, c)
    requires var o := env.outcomes[c.sent]; o.Response? && IsCritical(o.status)
    ensures var o := env.outcomes[c.sent];
      RedirectionStep(env, c)
        == Stop(Prepared(env, c), [Error(CannotContinueByCriticalError, StatusCode(o.status))])
  {
  }

  /**
   * 301 or 302 with AutoRedirection: the next send goes to the Location at
   * once, with no callback, no retry counted and no pass run. Without
   * AutoRedirection the retry section follows.
   */
  lemma RedirectStatus(env: Env, c: Config)
    requires Sends(env, c)
    requires var o := env.outcomes[c.sent]; o.Response? && (o.status == Moved || o.status == Redirect)
    ensures var o := env.outcomes[c.sent];
      var p := Prepared(env, c);
      RedirectionStep(env, c)
        == if c.task.autoRedirection then p.(phase := Redirection, task := p.task.(url := o.location))
           else p.(phase := RetrySection)
  {
  }

  /** Any other status that is not 200 goes to the retry section without a callback. */
  lemma OtherStatusRetries(env: Env, c: Config)
    requires Sends(env, c)
    requires var o := env.outcomes[c.sent];
      o.Response? && !IsCritical(o.status) && o.status !in {Moved, Redirect, OK}
    ensures RedirectionStep(env, c) == Prepared(env, c).(phase := RetrySection)
  {
  }

  /** A WebException carrying a 301 with AutoRedirection follows the Location even when fail-over URLs remain. */
  lemma WebExRedirect(env: Env, c: Config)
    requires Sends(env, c)
    requires var o := env.outcomes[c.sent];
      o.WebEx? && o.response.Some? && o.response.value.status == Moved && c.task.autoRedirection
    ensures var o := env.outcomes[c.sent];
      var p := Prepared(env, c);
      RedirectionStep(env, c) == p.(phase := Redirection, task := p.task.(url := o.response.value.location))
  {
  }

  /** Any other WebException switches to the next fail-over URL while one remains, even for a critical status. */
  lemma WebExFailoverFirst(env: Env, c: Config)
    requires Sends(env, c) && HasFailover(c)
    requires var o := env.outcomes[c.sent];
      o.WebEx? && !(o.response.Some? && o.response.value.status == Moved && c.task.autoRedirection)
    ensures RedirectionStep(env, c) == Failover(Prepared(env, c))
    ensures RedirectionStep(env, c).task.url == FailUrls(c.task)[c.retryCount]
  {
  }

  /** With no fail-over left, a 403 WebException carrying cookies ends the run with CookieReceive and no error. */
  lemma ForbiddenWithCookies(env: Env, c: Config)
    requires Sends(env, c) && !HasFailover(c)
    requires var o := env.outcomes[c.sent];
      o.WebEx? && o.response.Some? && o.response.value.status == Forbidden && o.response.value.cookies.Some?
    ensures var o := env.outcomes[c.sent];
      RedirectionStep(env, c) == Stop(Prepared(env, c), [Cookies(o.response.value.cookies)])
  {
  }

  /** The WebException is neither a 301 to follow nor a 403 carrying cookies. */
  predicate NotRedirectNorCookies(c: Config, o: Outcome)
    requires o.WebEx?
  {
    !(o.response.Some? && o.response.value.status == Moved && c.task.autoRedirection)
    && !(o.response.Some? && o.response.value.status == Forbidden && o.response.value.cookies.Some?)
  }

  /**
   * With no fail-over left, a failed name resolution ends the run with a
   * critical error, unless the exception carries a 301 to follow or a 403
   * with cookies.
   */
  lemma NameResolutionStops(env: Env, c: Config)
    requires Sends(env, c) && !HasFailover(c)
    requires var o := env.outcomes[c.sent];
      o.WebEx? && o.webStatus == NameResolutionFailure && NotRedirectNorCookies(c, o)
    ensures var o := env.outcomes[c.sent];
      RedirectionStep(env, c)
        == Stop(Prepared(env, c), [Error(CannotContinueByCriticalError, WebFailure(o.webStatus, o.response))])
  {
  }

  /** With no fail-over left, a WebException of status UnknownError ends the run with UnknowError. */
  lemma WebExUnknownStops(env: Env, c: Config)
    requires Sends(env, c) && !HasFailover(c)
    requires var o := env.outcomes[c.sent];
      o.WebEx? && o.webStatus == UnknownError && NotRedirectNorCookies(c, o)
    ensures var o := env.outcomes[c.sent];
      RedirectionStep(env, c)
        == Stop(Prepared(env, c), [Error(UnknowError, WebFailure(o.webStatus, o.response))])
  {
  }

  /**
   * With no fail-over left, a WebException carrying a critical status (and
   * not a 403 with cookies) ends the run with a critical error, unless its
   * status is UnknownError.
   */
  lemma WebExCriticalStops(env: Env, c: Config)
    requires Sends(env, c) && !HasFailover(c)
    requires var o := env.outcomes[c.sent];
      o.WebEx? && o.response.Some? && IsCritical(o.response.value.status)
      && o.webStatus != UnknownError && NotRedirectNorCookies(c, o)
    ensures var o := env.outcomes[c.sent];
      RedirectionStep(env, c)
        == Stop(Prepared(env, c), [Error(CannotContinueByCriticalError, WebFailure(o.webStatus, o.response))])
  {
  }

  /** With no fail-over left, a WebException of any other kind and status goes to the retry section silently. */
  lemma OtherWebExRetries(env: Env, c: Config)
    requires Sends(env, c) && !HasFailover(c)
    requires var o := env.outcomes[c.sent];
      o.WebEx? && o.webStatus !in {NameResolutionFailure, UnknownError}
      && (o.response.Some? ==> !IsCritical(o.response.value.status) && o.response.value.status != Moved)
    ensures RedirectionStep(env, c) == Prepared(env, c).(phase := RetrySection)
  {
  }

  /** Any other exception reports UnknowError and goes to the retry section. */
  lemma TransportFaultRetries(env: Env, c: Config)
    requires Sends(env, c) && env.outcomes[c.sent].Other?
    ensures RedirectionStep(env, c) == Fault(Prepared(env, c), TransportFault)
  {
  }

  // ---------------------------------------------------------------- the retry section

  /** An aborted task ends with the Aborted error before any fail-over or retry. */
  lemma AbortedStops(c: Config)
    requires c.task.aborted
    ensures RetrySectionStep(c) == Stop(c, [Error(Aborted, NoDetail)])
  {
  }

  /** With RetryWhenFail and the retry budget used up, ManyRetry is reported and then Unhandled. */
  lemma RetriesExhausted(c: Config)
    requires !c.task.aborted && !HasFailover(c) && c.task.retryWhenFail && c.task.retryCount <= c.retryCount
    ensures RetrySectionStep(c) == Stop(c, [Error(ManyRetry, NoDetail), Error(Unhandled, NoDetail)])
  {
  }

  // ---------------------------------------------------------------- the body of a 200 response

  /** The total of the lengths reported by DownloadCallback. */
  function Total(es: seq<Event>): int
    decreases |es|
  {
    if es == [] then 0 else (if es[0].Chunk? then es[0].length else 0) + Total(es[1..])
  }

  /** The lengths DownloadCallback reports add up to the bytes written. */
  lemma {:induction false} ChunksAddUp(chunks: seq<seq<byte>>, i: nat, bufferSize: nat)
    ensures Total(ChunkEvents(chunks, i, bufferSize)) == |Received(chunks, i, bufferSize)|
    decreases |chunks| - i
  {
    var data := ReadAt(chunks, i, bufferSize);
    if data != [] {
      var rest := ChunkEvents(chunks, i + 1, bufferSize);
      ChunksAddUp(chunks, i + 1, bufferSize);
      assert ([Chunk(|data|)] + rest)[1..] == rest;
    }
  }

  /** The last DownloadCallback reports 0 and every one before it a positive length. */
  lemma {:induction false} EmptyReadEnds(chunks: seq<seq<byte>>, i: nat, bufferSize: nat)
    ensures var es := ChunkEvents(chunks, i, bufferSize);
      |es| > 0 && es[|es| - 1] == Chunk(0)
      && forall k :: 0 <= k < |es| - 1 ==> es[k].Chunk? && es[k].length > 0
    decreases |chunks| - i
  {
    var data := ReadAt(chunks, i, bufferSize);
    if data != [] {
      EmptyReadEnds(chunks, i + 1, bufferSize);
      PositiveFirst(|data|, ChunkEvents(chunks, i + 1, bufferSize));
    }
  }

  /** Putting a positive report in front of reports that end with the empty read. */
  lemma PositiveFirst(n: int, rest: seq<Event>)
    requires n > 0 && |rest| > 0 && rest[|rest| - 1] == Chunk(0)
    requires forall k :: 0 <= k < |rest| - 1 ==> rest[k].Chunk? && rest[k].length > 0
    ensures var es := [Chunk(n)] + rest;
      |es| > 0 && es[|es| - 1] == Chunk(0)
      && forall k :: 0 <= k < |es| - 1 ==> es[k].Chunk? && es[k].length > 0
  {
    var es := [Chunk(n)] + rest;
    forall k | 0 <= k < |es| - 1
      ensures es[k].Chunk? && es[k].length > 0
    {
      if k > 0 {
        assert es[k] == rest[k - 1];
      }
    }
  }

  /** All chunks one after the other. */
  function Flatten(chunks: seq<seq<byte>>): seq<byte>
    decreases |chunks|
  {
    if chunks == [] then [] else chunks[0] + Flatten(chunks[1..])
  }

  /** With a positive buffer and no empty read before the end, the bytes written are the whole body, in order. */
  lemma {:induction false} ReceivesWholeBody(chunks: seq<seq<byte>>, i: nat, bufferSize: nat)
    requires bufferSize > 0 && i <= |chunks|
    requires forall k :: i <= k < |chunks| ==> chunks[k] != []
    ensures Received(chunks, i, bufferSize) == Flatten(chunks[i..])
    decreases |chunks| - i
  {
    if i < |chunks| {
      ReceivesWholeBody(chunks, i + 1, bufferSize);
      assert chunks[i..][1..] == chunks[i + 1..];
    } else {
      assert chunks[i..] == [];
    }
  }

  /** Without cancellation, a loop that has somewhere to write reads until the empty read. */
  lemma {:induction false} UncancelledLoopDrains(env: Env, chunks: seq<seq<byte>>, i: nat, bufferSize: nat,
                                                 sink: Sink, checks: nat)
    requires NoCancel(env) && sink != NullSink
    ensures ReadLoop(env, chunks, i, bufferSize, sink, checks).end == Drained
    decreases |chunks| - i
  {
    if ReadAt(chunks, i, bufferSize) != [] {
      UncancelledLoopDrains(env, chunks, i + 1, bufferSize, sink, checks + 2);
    }
  }

  /** A 200 response whose body has somewhere to go, with nothing cancelled. */
  predicate Downloads(env: Env, c: Config) {
    var t := c.task;
    Sends(env, c) && NoCancel(env)
    && env.outcomes[c.sent].Response? && env.outcomes[c.sent].status == OK
    && (t.downloadString || t.memoryCache || (!t.driveCache && t.filename.Some?))
    && t.downloadBufferSize >= 0
  }

  /**
   * A 200 response, nothing cancelled: StartCallback, HeaderReceive,
   * CookieReceive, SizeCallback, one DownloadCallback per read, and the
   * completion callback of the sink with the bytes received.
   */
  lemma Downloaded(env: Env, c: Config)
    requires Downloads(env, c) && !c.task.notifyOnlySize
    ensures var o := env.outcomes[c.sent];
      var body := Received(o.chunks, 0, c.task.downloadBufferSize);
      var r := RedirectionStep(env, c);
      r.phase == Finished && r.written == body && r.retryCount == c.retryCount
      && r.requests == c.requests + [BuildRequest(c.task, env.host(c.task.url))]
      && r.log == c.log + [Start, Headers(o.headers), Cookies(o.cookies), Size(o.contentLength)]
                  + ChunkEvents(o.chunks, 0, c.task.downloadBufferSize)
                  + [Completion(env, c.task, body)]
  {
    var o := env.outcomes[c.sent];
    var c2, sink := ReachesBody(env, c);
    DrainedBody(env, c2, o, sink, c.task);
  }

  /** The completion callback depends on the sink flags and the encoding only. */
  lemma SameCompletion(env: Env, a: NetTask, b: NetTask, bytes: seq<byte>)
    requires a.downloadString == b.downloadString && a.memoryCache == b.memoryCache && a.encoding == b.encoding
    ensures Completion(env, a, bytes) == Completion(env, b, bytes)
  {
  }

  /** A 200 response to a send, nothing cancelled: the run is at SizeCallback with the sink the task asks for. */
  lemma ReachesBody(env: Env, c: Config) returns (c2: Config, sink: Sink)
    requires Sends(env, c) && NoCancel(env)
    requires env.outcomes[c.sent].Response? && env.outcomes[c.sent].status == OK
    requires c.task.downloadString || c.task.memoryCache || c.task.driveCache || c.task.filename.Some?
    ensures var o := env.outcomes[c.sent];
      && RedirectionStep(env, c) == OnSized(env, c2, o, sink)
      && c2.log == c.log + [Start, Headers(o.headers), Cookies(o.cookies), Size(o.contentLength)]
      && c2.task == c.task.(request := Some(BuildRequest(c.task, env.host(c.task.url))))
      && c2.written == [] && c2.retryCount == c.retryCount
      && c2.requests == c.requests + [BuildRequest(c.task, env.host(c.task.url))]
      && sink == (if c.task.downloadString || c.task.memoryCache then MemorySink
                  else if c.task.driveCache then NullSink else FileSink)
  {
    var o := env.outcomes[c.sent];
    var p := Prepared(env, c);
    sink := if c.task.downloadString || c.task.memoryCache then MemorySink
            else if c.task.driveCache then NullSink else FileSink;
    c2 := AfterSize(env, p, o);
    assert RedirectionStep(env, c) == OnSized(env, c2, o, sink);
    Assoc(c.log, [Start], [Headers(o.headers), Cookies(o.cookies), Size(o.contentLength)]);
  }

  /** After SizeCallback, nothing cancelled and a sink to write to: the whole body, then the completion callback. */
  lemma DrainedBody(env: Env, c: Config, o: Outcome, sink: Sink, t: NetTask)
    requires o.Response? && NoCancel(env) && sink != NullSink
    requires !c.task.notifyOnlySize && c.task.downloadBufferSize >= 0
    requires c.task == t.(request := c.task.request)
    ensures var bs := t.downloadBufferSize;
      var r := OnSized(env, c, o, sink);
      r.phase == Finished && r.written == Received(o.chunks, 0, bs)
      && r.retryCount == c.retryCount && r.requests == c.requests
      && r.log == c.log + ChunkEvents(o.chunks, 0, bs) + [Completion(env, t, Received(o.chunks, 0, bs))]
  {
    UncancelledLoopDrains(env, o.chunks, 0, c.task.downloadBufferSize, sink, c.checks + 1);
    SameCompletion(env, c.task, t, Received(o.chunks, 0, t.downloadBufferSize));
  }

  /** After SizeCallback with no stream to write to: UnknowError and the retry section. */
  lemma NullBody(env: Env, c: Config, o: Outcome)
    requires o.Response? && NoCancel(env) && c.task.downloadBufferSize >= 0 && c.written == []
    ensures var r := OnSized(env, c, o, NullSink);
      r.phase == RetrySection && r.written == [] && r.log == c.log + [Error(UnknowError, Thrown(NullStream))]
  {
    if !c.task.notifyOnlySize {
      var s := ReadLoop(env, o.chunks, 0, c.task.downloadBufferSize, NullSink, c.checks + 1);
      assert s.events == [] && s.written == [];
      assert c.log + s.events == c.log;
    }
  }

  /** The state the 200 branch hands on once SizeCallback is made. */
  function AfterSize(env: Env, p: Config, o: Outcome): (r: Config)
    requires o.Response?
    ensures r.log == p.log + [Headers(o.headers), Cookies(o.cookies), Size(o.contentLength)]
    ensures r.task == p.task && r.written == [] && r.checks == p.checks + 1
    ensures r.requests == p.requests && r.retryCount == p.retryCount
  {
    var c1 := Tick(p.(written := [])).(log := p.log + [Headers(o.headers), Cookies(o.cookies)]);
    c1.(log := c1.log + [Size(o.contentLength)])
  }

  /** NotifyOnlySize: the run ends at SizeCallback and no body is read. */
  lemma SizeOnly(env: Env, c: Config)
    requires Downloads(env, c) && c.task.notifyOnlySize
    ensures var o := env.outcomes[c.sent];
      var r := RedirectionStep(env, c);
      r.phase == Finished && r.written == []
      && r.log == c.log + [Start, Headers(o.headers), Cookies(o.cookies), Size(o.contentLength)]
  {
    var c2, sink := ReachesBody(env, c);
  }

  /** The DriveCache branch has no stream to write to: UnknowError, then the retry section. */
  lemma DriveCacheFails(env: Env, c: Config)
    requires Sends(env, c) && NoCancel(env)
    requires env.outcomes[c.sent].Response? && env.outcomes[c.sent].status == OK
    requires !c.task.downloadString && !c.task.memoryCache && c.task.driveCache
    requires c.task.downloadBufferSize >= 0
    ensures var o := env.outcomes[c.sent];
      var r := RedirectionStep(env, c);
      r.phase == RetrySection && r.written == []
      && r.log == c.log + [Start, Headers(o.headers), Cookies(o.cookies), Size(o.contentLength)]
                  + [Error(UnknowError, Thrown(NullStream))]
  {
    var c2, sink := ReachesBody(env, c);
    NullBody(env, c2, env.outcomes[c.sent]);
  }

  // ---------------------------------------------------------------- a transport that always fails

  /** Passes that leave the URL, the fail-over list and the retry policy as they are. */
  predicate SamePolicy(a: NetTask, b: NetTask) {
    a.failUrls == b.failUrls && a.aborted == b.aborted
    && a.retryWhenFail == b.retryWhenFail && a.retryCount == b.retryCount
  }

  ghost predicate KeepsRoute(passes: seq<Pass>) {
    forall t :: Fold(passes, t).url == t.url && SamePolicy(Fold(passes, t), t)
  }

  /** How many RetryCallback calls a task allows: one per fail-over URL, at least RetryCount with RetryWhenFail. */
  function Budget(t: NetTask): nat {
    if t.retryWhenFail && t.retryCount > |FailUrls(t)| then t.retryCount else |FailUrls(t)|
  }

  /** The URL of attempt k: the original, then each fail-over URL, then the last one again. */
  function UrlAt(t: NetTask, k: nat): string {
    var f := FailUrls(t);
    if k == 0 || f == [] then t.url else if k <= |f| then f[k - 1] else f[|f| - 1]
  }

  /** The URLs of attempts k to the last. */
  function Tried(t: NetTask, k: nat): seq<string>
    requires k <= Budget(t)
    decreases Budget(t) - k
  {
    [UrlAt(t, k)] + (if k < Budget(t) then Tried(t, k + 1) else [])
  }

  /** The URLs of the requests built. */
  function Urls(rs: seq<HttpRequest>): (r: seq<string>)
    ensures |r| == |rs|
    decreases |rs|
  {
    if rs == [] then [] else [rs[0].url] + Urls(rs[1..])
  }

  /** Attempts k to the last, each failing with a generic exception; a RetryCallback joins each to the next. */
  function Attempts(t: NetTask, k: nat): seq<Event>
    requires k <= Budget(t)
    decreases Budget(t) - k
  {
    [Start, Error(UnknowError, Thrown(TransportFault))]
    + (if k < Budget(t) then [Retry(k + 1)] + Attempts(t, k + 1) else [])
  }

  /** The errors that end a run whose attempts are used up. */
  function GiveUp(t: NetTask): seq<Event> {
    if t.retryWhenFail then [Error(ManyRetry, NoDetail), Error(Unhandled, NoDetail)]
    else [Error(Unhandled, NoDetail)]
  }

  lemma {:induction false} UrlsAppend(a: seq<HttpRequest>, b: seq<HttpRequest>)
    ensures Urls(a + b) == Urls(a) + Urls(b)
    decreases |a|
  {
    if a == [] {
      assert a + b == b;
    } else {
      UrlsAppend(a[1..], b);
      assert (a + b)[1..] == a[1..] + b;
      Assoc([a[0].url], Urls(a[1..]), Urls(b));
    }
  }

  /** Attempts k to the last visit the URLs UrlAt(t, k), ..., UrlAt(t, Budget(t)). */
  lemma {:induction false} TriedUrls(t: NetTask, k: nat)
    requires k <= Budget(t)
    ensures |Tried(t, k)| == Budget(t) - k + 1
    ensures forall j :: 0 <= j < |Tried(t, k)| ==> Tried(t, k)[j] == UrlAt(t, k + j)
    decreases Budget(t) - k
  {
    if k < Budget(t) {
      TriedUrls(t, k + 1);
    }
  }

  /** One failing attempt from `RETRY_PROCEDURE` to the retry section. */
  lemma FailedAttempt(env: Env, passes: seq<Pass>, t: NetTask, c: Config) returns (c2: Config)
    requires NoCancel(env) && KeepsRoute(passes)
    requires c.phase == RetryProcedure && SamePolicy(c.task, t)
    requires c.sent < |env.outcomes| && env.outcomes[c.sent].Other?
    ensures c2.phase == RetrySection && c2.sent == c.sent + 1 && c2.retryCount == c.retryCount
    ensures Run(env, passes, c2) == Run(env, passes, c)
    ensures SamePolicy(c2.task, t) && c2.task.url == c.task.url
    ensures c2.log == c.log + [Start, Error(UnknowError, Thrown(TransportFault))]
    ensures Urls(c2.requests) == Urls(c.requests) + [c.task.url]
  {
    var c1 := RetryProcedureStep(env, passes, c);
    AdvanceRetryProcedure(env, passes, c, c1);
    c2 := RedirectionStep(env, c1);
    AdvanceRedirection(env, passes, c1, c2);
    assert c2 == Fault(Prepared(env, c1), TransportFault);
    var req := BuildRequest(c1.task, env.host(c1.task.url));
    UrlsAppend(c.requests, [req]);
  }

  /** From attempt k on, every send failing with a generic exception: the callbacks. */
  lemma {:induction false} FailingFrom(env: Env, passes: seq<Pass>, t: NetTask, c: Config)
    requires NoCancel(env) && KeepsRoute(passes) && !t.aborted
    requires c.phase == RetryProcedure && c.retryCount <= Budget(t)
    requires SamePolicy(c.task, t) && c.task.url == UrlAt(t, c.retryCount)
    requires c.sent + (Budget(t) - c.retryCount) < |env.outcomes|
    requires forall j :: c.sent <= j < |env.outcomes| ==> env.outcomes[j].Other?
    ensures Run(env, passes, c).log == c.log + Attempts(t, c.retryCount) + GiveUp(t)
    decreases Budget(t) - c.retryCount
  {
    var k := c.retryCount;
    if k < Budget(t) {
      var c3 := RetriedAttempt(env, passes, t, c);
      FailingFrom(env, passes, t, c3);
      ComposeLog(Run(env, passes, c3).log, c3.log, c.log, t, k, c3.retryCount);
    } else {
      LastAttempt(env, passes, t, c);
      AttemptsLog(c.log, t, k);
    }
  }

  /** From attempt k on, every send failing with a generic exception: the URLs requested. */
  lemma {:induction false} FailingUrls(env: Env, passes: seq<Pass>, t: NetTask, c: Config)
    requires NoCancel(env) && KeepsRoute(passes) && !t.aborted
    requires c.phase == RetryProcedure && c.retryCount <= Budget(t)
    requires SamePolicy(c.task, t) && c.task.url == UrlAt(t, c.retryCount)
    requires c.sent + (Budget(t) - c.retryCount) < |env.outcomes|
    requires forall j :: c.sent <= j < |env.outcomes| ==> env.outcomes[j].Other?
    ensures Urls(Run(env, passes, c).requests) == Urls(c.requests) + Tried(t, c.retryCount)
    decreases Budget(t) - c.retryCount
  {
    var k := c.retryCount;
    if k < Budget(t) {
      var c3 := RetriedAttempt(env, passes, t, c);
      FailingUrls(env, passes, t, c3);
      ComposeUrls(Urls(Run(env, passes, c3).requests), Urls(c3.requests), Urls(c.requests), t, k, c3.retryCount);
    } else {
      LastAttempt(env, passes, t, c);
    }
  }

  /** The log of attempt k followed by the log from attempt k + 1 on. */
  lemma ComposeLog(rlog: seq<Event>, log3: seq<Event>, log: seq<Event>, t: NetTask, k: nat, k3: nat)
    requires k < Budget(t) && k3 == k + 1
    requires rlog == log3 + Attempts(t, k3) + GiveUp(t)
    requires log3 == log + [Start, Error(UnknowError, Thrown(TransportFault))] + [Retry(k3)]
    ensures rlog == log + Attempts(t, k) + GiveUp(t)
  {
    AttemptsLog(log, t, k);
  }

  /** The URL of attempt k followed by the URLs from attempt k + 1 on. */
  lemma ComposeUrls(r: seq<string>, u3: seq<string>, u: seq<string>, t: NetTask, k: nat, k3: nat)
    requires k < Budget(t) && k3 == k + 1
    requires r == u3 + Tried(t, k3) && u3 == u + [UrlAt(t, k)]
    ensures r == u + Tried(t, k)
  {
    Assoc(u, [UrlAt(t, k)], Tried(t, k + 1));
  }

  /** Attempt k fails and attempt k + 1 follows at `RETRY_PROCEDURE`. */
  lemma RetriedAttempt(env: Env, passes: seq<Pass>, t: NetTask, c: Config) returns (c3: Config)
    requires NoCancel(env) && KeepsRoute(passes) && !t.aborted
    requires c.phase == RetryProcedure && c.retryCount < Budget(t)
    requires SamePolicy(c.task, t) && c.task.url == UrlAt(t, c.retryCount)
    requires c.sent < |env.outcomes| && env.outcomes[c.sent].Other?
    ensures c3.sent == c.sent + 1 && Run(env, passes, c3) == Run(env, passes, c)
    ensures Urls(c3.requests) == Urls(c.requests) + [UrlAt(t, c.retryCount)]
    ensures c3.phase == RetryProcedure && c3.retryCount == c.retryCount + 1
    ensures SamePolicy(c3.task, t) && c3.task.url == UrlAt(t, c3.retryCount)
    ensures c3.log == c.log + [Start, Error(UnknowError, Thrown(TransportFault))] + [Retry(c3.retryCount)]
  {
    var c2 := FailedAttempt(env, passes, t, c);
    c3 := RetryNext(env, passes, t, c2);
  }

  /** The last attempt fails and the run gives up. */
  lemma LastAttempt(env: Env, passes: seq<Pass>, t: NetTask, c: Config)
    requires NoCancel(env) && KeepsRoute(passes) && !t.aborted
    requires c.phase == RetryProcedure && c.retryCount == Budget(t)
    requires SamePolicy(c.task, t) && c.task.url == UrlAt(t, c.retryCount)
    requires c.sent < |env.outcomes| && env.outcomes[c.sent].Other?
    ensures Urls(Run(env, passes, c).requests) == Urls(c.requests) + [UrlAt(t, c.retryCount)]
    ensures Run(env, passes, c).log == c.log + [Start, Error(UnknowError, Thrown(TransportFault))] + GiveUp(t)
  {
    var c2 := FailedAttempt(env, passes, t, c);
    var c3 := RetryGiveUp(env, passes, t, c2);
  }

  /** Attempt k followed by the rest, as the log grows. */
  lemma AttemptsLog(log: seq<Event>, t: NetTask, k: nat)
    requires k <= Budget(t)
    ensures var first := [Start, Error(UnknowError, Thrown(TransportFault))];
      if k < Budget(t) then
        log + first + [Retry(k + 1)] + Attempts(t, k + 1) + GiveUp(t) == log + Attempts(t, k) + GiveUp(t)
      else log + first + GiveUp(t) == log + Attempts(t, k) + GiveUp(t)
  {
    var first := [Start, Error(UnknowError, Thrown(TransportFault))];
    if k < Budget(t) {
      Assoc(log + first, [Retry(k + 1)], Attempts(t, k + 1));
      Assoc(log, first, [Retry(k + 1)] + Attempts(t, k + 1));
    } else {
      assert Attempts(t, k) == first + [];
      assert first + [] == first;
    }
  }

  /** The retry section after a failed attempt k within the budget: RetryCallback and attempt k + 1. */
  lemma RetryNext(env: Env, passes: seq<Pass>, t: NetTask, c: Config) returns (r: Config)
    requires c.phase == RetrySection && SamePolicy(c.task, t) && !t.aborted && c.sent <= |env.outcomes|
    requires c.retryCount < Budget(t) && c.task.url == UrlAt(t, c.retryCount)
    ensures r.sent == c.sent && r.requests == c.requests && Run(env, passes, r) == Run(env, passes, c)
    ensures r.phase == RetryProcedure && r.retryCount == c.retryCount + 1
    ensures r.log == c.log + [Retry(c.retryCount + 1)]
    ensures SamePolicy(r.task, t) && r.task.url == UrlAt(t, c.retryCount + 1)
  {
    r := RetrySectionStep(c);
    AdvanceRetrySection(env, passes, c, r);
    if HasFailover(c) {
      assert r == Failover(c);
    } else {
      assert r.task == c.task;
    }
  }

  /** The retry section after the last attempt: ManyRetry (with RetryWhenFail) and Unhandled. */
  lemma RetryGiveUp(env: Env, passes: seq<Pass>, t: NetTask, c: Config) returns (r: Config)
    requires c.phase == RetrySection && SamePolicy(c.task, t) && !t.aborted && c.sent <= |env.outcomes|
    requires c.retryCount == Budget(t)
    ensures r.sent == c.sent && r.requests == c.requests && Run(env, passes, r) == Run(env, passes, c)
    ensures r.phase == Finished && r.log == c.log + GiveUp(t)
  {
    r := RetrySectionStep(c);
    AdvanceRetrySection(env, passes, c, r);
  }

  /**
   * A transport that fails every send with a generic exception, nothing
   * cancelled, passes that keep the route: the run tries the original URL,
   * then each fail-over URL in order, then (with RetryWhenFail) the last
   * URL again until RetryCount is reached, and then gives up.
   */
  lemma PersistentFailure(env: Env, passes: seq<Pass>, t: NetTask)
    requires NoCancel(env) && KeepsRoute(passes) && !t.aborted
    requires Budget(t) < |env.outcomes| && forall j :: 0 <= j < |env.outcomes| ==> env.outcomes[j].Other?
    ensures Spec(env, passes, t).log == Attempts(t, 0) + GiveUp(t)
    ensures Urls(Spec(env, passes, t).requests) == Tried(t, 0)
  {
    FailingFrom(env, passes, t, Initial(t));
    FailingUrls(env, passes, t, Initial(t));
  }

  /** The attempts send once each and number their RetryCallback calls 1 to the budget. */
  lemma {:induction false} AttemptsCount(t: NetTask, k: nat)
    requires k <= Budget(t)
    ensures RetryArgs(Attempts(t, k)) == Iota(Budget(t))[k..]
    ensures Starts(Attempts(t, k)) == Budget(t) - k + 1
    decreases Budget(t) - k
  {
    var first := [Start, Error(UnknowError, Thrown(TransportFault))];
    Chain([Start], [Error(UnknowError, Thrown(TransportFault))], false);
    assert first == [Start] + [Error(UnknowError, Thrown(TransportFault))];
    if k < Budget(t) {
      AttemptsCount(t, k + 1);
      var rest := [Retry(k + 1)] + Attempts(t, k + 1);
      RetryArgsAppend([Retry(k + 1)], Attempts(t, k + 1));
      StartsAppend([Retry(k + 1)], Attempts(t, k + 1));
      RetryArgsAppend(first, rest);
      StartsAppend(first, rest);
      assert Iota(Budget(t))[k..] == [k + 1] + Iota(Budget(t))[k + 1..];
    } else {
      assert first + [] == first;
    }
  }

  lemma GiveUpQuiet(t: NetTask)
    ensures ClosedBy(GiveUp(t), false) && RetryArgs(GiveUp(t)) == [] && Starts(GiveUp(t)) == 0
  {
    if t.retryWhenFail {
      Chain([Error(ManyRetry, NoDetail)], [Error(Unhandled, NoDetail)], false);
      assert GiveUp(t) == [Error(ManyRetry, NoDetail)] + [Error(Unhandled, NoDetail)];
    }
  }

  /**
   * RetryWhenFail with RetryCount n and no fail-over list: n + 1 sends to
   * the same URL, RetryCallback with 1 to n, then ManyRetry and Unhandled.
   */
  lemma RetryBudget(env: Env, passes: seq<Pass>, t: NetTask, n: nat)
    requires NoCancel(env) && KeepsRoute(passes) && !t.aborted
    requires FailUrls(t) == [] && t.retryWhenFail && t.retryCount == n
    requires n < |env.outcomes| && forall j :: 0 <= j < |env.outcomes| ==> env.outcomes[j].Other?
    ensures var r := Spec(env, passes, t);
      RetryArgs(r.log) == Iota(n) && Starts(r.log) == n + 1 && |r.log| >= 2
      && r.log[|r.log| - 2..] == [Error(ManyRetry, NoDetail), Error(Unhandled, NoDetail)]
      && Urls(r.requests) == seq(n + 1, _ => t.url)
  {
    PersistentFailure(env, passes, t);
    AttemptsCount(t, 0);
    GiveUpQuiet(t);
    var a := Attempts(t, 0);
    RetryArgsAppend(a, GiveUp(t));
    StartsAppend(a, GiveUp(t));
    assert Iota(n)[0..] == Iota(n);
    assert (a + GiveUp(t))[|a + GiveUp(t)| - 2..] == GiveUp(t);
    TriedUrls(t, 0);
    assert Tried(t, 0) == seq(n + 1, _ => t.url);
  }

  /**
   * Fail-over URLs u1..um, and either no RetryWhenFail or a RetryCount of at
   * most m: m + 1 sends, to the original URL and then to u1..um in order.
   * Fail-overs and generic retries share one counter, so no generic retry
   * follows the fail-overs.
   */
  lemma FailoverOrder(env: Env, passes: seq<Pass>, t: NetTask)
    requires NoCancel(env) && KeepsRoute(passes) && !t.aborted
    requires !t.retryWhenFail || t.retryCount <= |FailUrls(t)|
    requires |FailUrls(t)| < |env.outcomes| && forall j :: 0 <= j < |env.outcomes| ==> env.outcomes[j].Other?
    ensures Urls(Spec(env, passes, t).requests) == [t.url] + FailUrls(t)
    ensures RetryArgs(Spec(env, passes, t).log) == Iota(|FailUrls(t)|)
  {
    PersistentFailure(env, passes, t);
    AttemptsCount(t, 0);
    GiveUpQuiet(t);
    RetryArgsAppend(Attempts(t, 0), GiveUp(t));
    var f := FailUrls(t);
    assert Iota(|f|)[0..] == Iota(|f|);
    TriedUrls(t, 0);
    forall j | 0 <= j < |Tried(t, 0)|
      ensures Tried(t, 0)[j] == ([t.url] + f)[j]
    {
      if j > 0 {
        assert UrlAt(t, j) == f[j - 1];
      }
    }
    assert Tried(t, 0) == [t.url] + f;
  }
}
