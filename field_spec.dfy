/**
 * The behaviour of NetField.Do as a small-step machine. A `Config` is the
 * state at one of the source's control points: the `RETRY_PROCEDURE` label,
 * the `REDIRECTION` label, the retry section after the `try` (the code
 * from "Request Aborted" on), or the end of the run. `Step` moves from one
 * control point to the next as the code between them does, for the outcomes
 * the model distinguishes, and `Run` iterates it to the end.
 */
module FieldSpec {
  import opened Wrappers
  import opened Transport
  import opened NetTasks
  import opened Passes
  import opened FieldRequest

  /**
   * What one run takes from the outside world: the transport's answer to
   * each send in turn, the cancellation token's state at each checkpoint
   * the run visits (checkpoints past the end see no cancellation), the host
   * part of a URL as the Uri class parses it, and Encoding.GetString.
   */
  datatype Env = Env(
    outcomes: seq<Outcome>,
    cancel: seq<bool>,
    host: string -> string,
    decode: (Encoding, seq<byte>) -> string)

  /** `content.Cancel.IsCancellationRequested` at the k-th checkpoint visited. */
  predicate CancelRequested(env: Env, k: nat) {
    k < |env.cancel| && env.cancel[k]
  }

  datatype Phase = RetryProcedure | Redirection | RetrySection | Finished

  /**
   * The state of a run: the control point, the task, the local
   * `retry_count`, how many transport outcomes and cancellation checkpoints
   * have been used, the callbacks invoked so far, the requests built, the
   * bytes written to the output stream of the current body, how often the
   * pass pipeline has run, and whether the run stopped because the
   * transport had no outcome left.
   */
  datatype Config = Config(
    phase: Phase,
    task: NetTask,
    retryCount: nat,
    sent: nat,
    checks: nat,
    log: seq<Event>,
    requests: seq<HttpRequest>,
    written: seq<byte>,
    passRuns: nat,
    truncated: bool)

  function Initial(t: NetTask): Config {
    Config(RetryProcedure, t, 0, 0, 0, [], [], [], 0, false)
  }

  function Rank(p: Phase): nat {
    match p
    case Finished => 0
    case Redirection => 1
    case RetryProcedure => 2
    case RetrySection => 3
  }

  /** Every send uses up an outcome; between sends the control points only move down in rank. */
  function Measure(env: Env, c: Config): nat
    requires c.sent <= |env.outcomes|
  {
    (|env.outcomes| - c.sent) * 4 + Rank(c.phase)
  }

  /** One checkpoint visited. */
  function Tick(c: Config): Config {
    c.(checks := c.checks + 1)
  }

  /** The run ends after the given callbacks. */
  function Stop(c: Config, events: seq<Event>): Config {
    c.(phase := Finished, log := c.log + events)
  }

  /** A generic exception: UnknowError is reported and the retry section follows. */
  function Fault(c: Config, cause: Cause): Config {
    c.(phase := RetrySection, log := c.log + [Error(UnknowError, Thrown(cause))])
  }

  // ---------------------------------------------------------------- retries

  /** `content.FailUrls != null && retry_count < content.FailUrls.Count`. */
  predicate HasFailover(c: Config) {
    c.retryCount < |FailUrls(c.task)|
  }

  /** Switch to the next fail-over URL, report the attempt and go back to `RETRY_PROCEDURE`. */
  function Failover(c: Config): (r: Config)
    requires HasFailover(c)
    ensures r.phase == RetryProcedure && r.retryCount == c.retryCount + 1
    ensures r.task.url == FailUrls(c.task)[r.retryCount - 1] && FailUrls(r.task) == FailUrls(c.task)
    ensures r.log == c.log + [Retry(r.retryCount)]
    ensures r.sent == c.sent && r.checks == c.checks && r.passRuns == c.passRuns
  {
    var n := c.retryCount;
    c.(phase := RetryProcedure, task := c.task.(url := FailUrls(c.task)[n]),
       retryCount := n + 1, log := c.log + [Retry(n + 1)])
  }

  /** The code after the `try`: abort, then fail-over, then generic retry, then the final errors. */
  function RetrySectionStep(c: Config): (r: Config)
    ensures r.sent == c.sent && r.checks == c.checks && r.passRuns == c.passRuns
    ensures r.phase == Finished || r.phase == RetryProcedure
    ensures r.phase == RetryProcedure <==>
      !c.task.aborted && (HasFailover(c) || (c.task.retryWhenFail && c.task.retryCount > c.retryCount))
    ensures r.phase == RetryProcedure ==> r.retryCount == c.retryCount + 1 && r.log == c.log + [Retry(r.retryCount)]
    ensures r.phase == Finished ==>
      r.retryCount == c.retryCount && r.task == c.task && |r.log| > |c.log|
      && r.log[|r.log| - 1] == Error(if c.task.aborted then Aborted else Unhandled, NoDetail)
  {
    if c.task.aborted then Stop(c, [Error(Aborted, NoDetail)])
    else if HasFailover(c) then Failover(c)
    else if c.task.retryWhenFail then
      if c.task.retryCount > c.retryCount then
        c.(phase := RetryProcedure, retryCount := c.retryCount + 1, log := c.log + [Retry(c.retryCount + 1)])
      else
        Stop(c, [Error(ManyRetry, NoDetail), Error(Unhandled, NoDetail)])
    else Stop(c, [Error(Unhandled, NoDetail)])
  }

  // ---------------------------------------------------------------- the label RETRY_PROCEDURE

  function RetryProcedureStep(env: Env, passes: seq<Pass>, c: Config): (r: Config)
    ensures r.checks == c.checks + 1 && r.sent == c.sent && r.retryCount == c.retryCount
    ensures r.phase == Finished <==> CancelRequested(env, c.checks)
    ensures r.phase == Finished ==> r.log == c.log + [Cancel] && r.task == c.task && r.passRuns == c.passRuns
    ensures r.phase != Finished ==>
      r.phase == Redirection && r.log == c.log && r.task == Fold(passes, c.task) && r.passRuns == c.passRuns + 1
  {
    if CancelRequested(env, c.checks) then Stop(Tick(c), [Cancel])
    else Tick(c).(phase := Redirection, task := Fold(passes, c.task), passRuns := c.passRuns + 1)
  }

  // ---------------------------------------------------------------- the body of a 200 response

  /** Where the body goes: a MemoryStream, a file, or nowhere (the unfinished DriveCache branch). */
  datatype Sink = MemorySink | FileSink | NullSink

  datatype StreamEnd = Drained | Cancelled | Faulted

  datatype StreamResult = StreamResult(events: seq<Event>, written: seq<byte>, checks: nat, end: StreamEnd)

  /** What the read of index `i` returns: nothing past the last chunk or into an empty buffer. */
  function ReadAt(chunks: seq<seq<byte>>, i: nat, bufferSize: nat): seq<byte> {
    if bufferSize == 0 || i >= |chunks| then [] else chunks[i]
  }

  /** The body bytes delivered by the reads from index `i` up to the first empty one. */
  function Received(chunks: seq<seq<byte>>, i: nat, bufferSize: nat): seq<byte>
    decreases |chunks| - i
  {
    var data := ReadAt(chunks, i, bufferSize);
    if data == [] then [] else data + Received(chunks, i + 1, bufferSize)
  }

  /** One DownloadCallback per read, the final empty one included. */
  function ChunkEvents(chunks: seq<seq<byte>>, i: nat, bufferSize: nat): seq<Event>
    decreases |chunks| - i
  {
    var data := ReadAt(chunks, i, bufferSize);
    if data == [] then [Chunk(0)] else [Chunk(|data|)] + ChunkEvents(chunks, i + 1, bufferSize)
  }

  /**
   * The download loop from read `i` on: the callbacks it makes, the bytes it
   * writes, the checkpoints used and how it ends. Each round checks for
   * cancellation, reads, writes, checks again and reports the read's length;
   * an empty read ends the loop.
   */
  function ReadLoop(env: Env, chunks: seq<seq<byte>>, i: nat, bufferSize: nat, sink: Sink,
                    checks: nat): (r: StreamResult)
    ensures forall k :: 0 <= k < |r.events| ==> r.events[k].Chunk?
    ensures r.checks > checks
    ensures r.end == Drained ==>
      r.events == ChunkEvents(chunks, i, bufferSize) && r.written == Received(chunks, i, bufferSize)
    decreases |chunks| - i
  {
    if CancelRequested(env, checks) then StreamResult([], [], checks + 1, Cancelled)
    else
      var data := ReadAt(chunks, i, bufferSize);
      if sink == NullSink then StreamResult([], [], checks + 1, Faulted)
      else if CancelRequested(env, checks + 1) then StreamResult([], data, checks + 2, Cancelled)
      else if data == [] then StreamResult([Chunk(0)], [], checks + 2, Drained)
      else
        var rest := ReadLoop(env, chunks, i + 1, bufferSize, sink, checks + 2);
        StreamResult([Chunk(|data|)] + rest.events, data + rest.written, rest.checks, rest.end)
  }

  /** The completion callback the sink calls for. */
  function Completion(env: Env, t: NetTask, bytes: seq<byte>): (e: Event)
    ensures e.CompleteString? || e.CompleteBytes? || e == Complete
    ensures e.CompleteString? <==> t.downloadString
    ensures e.CompleteBytes? <==> !t.downloadString && t.memoryCache
    ensures e.CompleteString? ==> e.text == env.decode(if t.encoding.Some? then t.encoding.value else UTF8, bytes)
    ensures e.CompleteBytes? ==> e.bytes == bytes
  {
    if t.downloadString then
      CompleteString(env.decode(if t.encoding.Some? then t.encoding.value else UTF8, bytes))
    else if t.memoryCache then CompleteBytes(bytes)
    else Complete
  }

  /**
   * The `HttpStatusCode.OK` branch: headers, cookies, size, then the body.
   * `written` starts afresh, as each 200 response opens a new output stream.
   */
  function OnOk(env: Env, c: Config, o: Outcome): (r: Config)
    requires o.Response?
    ensures r.sent == c.sent && r.retryCount == c.retryCount && r.task == c.task
    ensures r.phase == Finished || r.phase == RetrySection
    ensures r.truncated == c.truncated && r.passRuns == c.passRuns
  {
    var c0 := c.(written := []);
    if CancelRequested(env, c.checks) then Stop(Tick(c0), [Cancel])
    else
      var t := c.task;
      var c1 := Tick(c0).(log := c.log + [Headers(o.headers), Cookies(o.cookies)]);
      if !(t.downloadString || t.memoryCache) && !t.driveCache && t.filename.None? then
        Fault(c1, MissingFilename)
      else
        var sink := if t.downloadString || t.memoryCache then MemorySink
                    else if t.driveCache then NullSink else FileSink;
        OnSized(env, c1.(log := c1.log + [Size(o.contentLength)]), o, sink)
  }

  /** After SizeCallback: stop there when only the size was asked for, otherwise read the body into the sink. */
  function OnSized(env: Env, c: Config, o: Outcome, sink: Sink): (r: Config)
    requires o.Response?
    ensures r.sent == c.sent && r.retryCount == c.retryCount && r.task == c.task
    ensures r.phase == Finished || r.phase == RetrySection
    ensures r.truncated == c.truncated && r.passRuns == c.passRuns
  {
    var t := c.task;
    if t.notifyOnlySize then
      if sink == NullSink then Fault(c, NullStream) else c.(phase := Finished)
    else if CancelRequested(env, c.checks) then Stop(Tick(c), [Cancel])
    else if t.downloadBufferSize < 0 then Fault(Tick(c), NegativeBufferSize)
    else
      var s := ReadLoop(env, o.chunks, 0, t.downloadBufferSize, sink, c.checks + 1);
      var c3 := c.(checks := s.checks, log := c.log + s.events, written := s.written);
      match s.end
      case Cancelled => Stop(c3, [Cancel])
      case Faulted => Fault(c3, NullStream)
      case Drained => Stop(c3, [Completion(env, t, s.written)])
  }

  // ---------------------------------------------------------------- classifying an outcome

  /** GetResponse returned: critical statuses stop, 301/302 redirect, 200 streams, the rest retry. */
  function OnResponse(env: Env, c: Config, o: Outcome): (r: Config)
    requires o.Response?
    ensures r.sent == c.sent && r.retryCount == c.retryCount && r.truncated == c.truncated
  {
    if IsCritical(o.status) then
      Stop(c, [Error(CannotContinueByCriticalError, StatusCode(o.status))])
    else if o.status == Moved || o.status == Redirect then
      if c.task.autoRedirection then c.(phase := Redirection, task := c.task.(url := o.location))
      else c.(phase := RetrySection)
    else if o.status == OK then OnOk(env, c, o)
    else c.(phase := RetrySection)
  }

  /** The `catch (WebException e)` block. */
  function OnWebException(c: Config, o: Outcome): (r: Config)
    requires o.WebEx?
    ensures r.sent == c.sent && r.truncated == c.truncated
  {
    var resp := o.response;
    if resp.Some? && resp.value.status == Moved && c.task.autoRedirection then
      c.(phase := Redirection, task := c.task.(url := resp.value.location))
    else if HasFailover(c) then Failover(c)
    else if (resp.Some? && IsCritical(resp.value.status))
            || o.webStatus == NameResolutionFailure || o.webStatus == UnknownError then
      if resp.Some? && resp.value.status == Forbidden && resp.value.cookies.Some? then
        Stop(c, [Cookies(resp.value.cookies)])
      else if o.webStatus == UnknownError then
        Stop(c, [Error(UnknowError, WebFailure(o.webStatus, resp))])
      else
        Stop(c, [Error(CannotContinueByCriticalError, WebFailure(o.webStatus, resp))])
    else c.(phase := RetrySection)
  }

  /** Does the request write a body (and so visit the checkpoint after writing it)? */
  predicate WritesBody(t: NetTask) {
    t.query.Some? || t.requestBody.Some?
  }

  // ---------------------------------------------------------------- the label REDIRECTION

  /**
   * The state once a send is under way: the checkpoint at `REDIRECTION`
   * passed, StartCallback made, the next outcome taken, the request built
   * and recorded, and the checkpoint after writing a body passed.
   */
  function Prepared(env: Env, c: Config): (r: Config)
    requires c.sent < |env.outcomes|
    ensures r.sent == c.sent + 1 && r.retryCount == c.retryCount && r.passRuns == c.passRuns
    ensures r.truncated == c.truncated && r.written == c.written
    ensures r.log == c.log + [Start]
    ensures r.requests == c.requests + [BuildRequest(c.task, env.host(c.task.url))]
    ensures r.task == c.task.(request := Some(BuildRequest(c.task, env.host(c.task.url))))
  {
    var req := BuildRequest(c.task, env.host(c.task.url));
    var c1 := Tick(c).(sent := c.sent + 1, log := c.log + [Start],
                       task := c.task.(request := Some(req)), requests := c.requests + [req]);
    if WritesBody(c.task) then Tick(c1) else c1
  }

  /** Dispatch on the outcome of GetResponse: normal return, WebException, or another exception. */
  function Classify(env: Env, c: Config, o: Outcome): (r: Config)
    requires !o.UriFormat?
    ensures r.sent == c.sent && r.truncated == c.truncated
  {
    if o.Response? then OnResponse(env, c, o)
    else if o.WebEx? then OnWebException(c, o)
    else Fault(c, TransportFault)
  }

  /** The code from the `REDIRECTION` label to the end of the `try` and its `catch` blocks. */
  function RedirectionStep(env: Env, c: Config): (r: Config)
    requires c.sent <= |env.outcomes|
    ensures r.sent <= |env.outcomes|
    ensures r.phase == Finished || r.sent == c.sent + 1
    ensures r.phase != Finished ==> r.truncated == c.truncated
  {
    if CancelRequested(env, c.checks) then Stop(Tick(c), [Cancel])
    else if c.sent == |env.outcomes| then Stop(Tick(c), [Start]).(truncated := true)
    else
      var o := env.outcomes[c.sent];
      if o.UriFormat? then
        Stop(Tick(c).(sent := c.sent + 1, log := c.log + [Start]), [Error(UriFormatError, UriFailure)])
      else if WritesBody(c.task) && CancelRequested(env, c.checks + 1) then
        Stop(Prepared(env, c), [Cancel])
      else
        Classify(env, Prepared(env, c), o)
  }

  // ---------------------------------------------------------------- the whole run

  function Step(env: Env, passes: seq<Pass>, c: Config): (r: Config)
    requires c.phase != Finished && c.sent <= |env.outcomes|
    ensures r.sent <= |env.outcomes| && Measure(env, r) < Measure(env, c)
  {
    match c.phase
    case RetryProcedure => RetryProcedureStep(env, passes, c)
    case Redirection => RedirectionStep(env, c)
    case RetrySection => RetrySectionStep(c)
  }

  function Run(env: Env, passes: seq<Pass>, c: Config): (r: Config)
    requires c.sent <= |env.outcomes|
    ensures r.phase == Finished
    decreases Measure(env, c)
  {
    if c.phase == Finished then c else Run(env, passes, Step(env, passes, c))
  }

  // One step of each kind leaves the end of the run where it was.

  lemma AdvanceRetryProcedure(env: Env, passes: seq<Pass>, c: Config, d: Config)
    requires c.phase == RetryProcedure && c.sent <= |env.outcomes|
    requires d == RetryProcedureStep(env, passes, c)
    ensures d.sent <= |env.outcomes| && Run(env, passes, d) == Run(env, passes, c)
    ensures Measure(env, d) < Measure(env, c)
    ensures d.phase != Finished ==> d.truncated == c.truncated
  {
    assert d == Step(env, passes, c);
  }

  lemma AdvanceRedirection(env: Env, passes: seq<Pass>, c: Config, d: Config)
    requires c.phase == Redirection && c.sent <= |env.outcomes|
    requires d == RedirectionStep(env, c)
    ensures d.sent <= |env.outcomes| && Run(env, passes, d) == Run(env, passes, c)
    ensures Measure(env, d) < Measure(env, c)
    ensures d.phase != Finished ==> d.truncated == c.truncated
  {
    assert d == Step(env, passes, c);
  }

  lemma AdvanceRetrySection(env: Env, passes: seq<Pass>, c: Config, d: Config)
    requires c.phase == RetrySection && c.sent <= |env.outcomes|
    requires d == RetrySectionStep(c)
    ensures d.sent <= |env.outcomes| && Run(env, passes, d) == Run(env, passes, c)
    ensures Measure(env, d) < Measure(env, c)
    ensures d.phase != Finished ==> d.truncated == c.truncated
  {
    assert d == Step(env, passes, c);
  }

  /** What a run of Do leaves behind: the task, the callbacks, the requests, the bytes written. */
  datatype Report = Report(task: NetTask, log: seq<Event>, requests: seq<HttpRequest>,
                           written: seq<byte>, truncated: bool)

  function ReportOf(c: Config): Report {
    Report(c.task, c.log, c.requests, c.written, c.truncated)
  }

  /** NetField.Do(content) with the registry's passes. */
  function Spec(env: Env, passes: seq<Pass>, content: NetTask): Report {
    ReportOf(Run(env, passes, Initial(content)))
  }

  /** Regrouping a concatenation, spelled out for the proofs about logs and buffers. */
  lemma Assoc<T>(a: seq<T>, b: seq<T>, c: seq<T>)
    ensures a + b + c == a + (b + c)
  {
  }
}
