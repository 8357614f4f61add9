/**
 * What every run of NetField.Do guarantees, whatever the transport, the
 * cancellation token and the passes do: CancleCallback and the completion
 * callbacks are always the last callback of a run, RetryCallback counts
 * its attempts 1, 2, 3, ..., StartCallback is called once per send, and
 * the pass pipeline runs once for the first attempt and once after every
 * RetryCallback.
 */
module FieldInvariants {
  import opened Wrappers
  import opened Transport
  import opened NetTasks
  import opened Passes
  import opened FieldSpec

  /** CancleCallback and the completion callbacks each end a run. */
  predicate Closing(e: Event) {
    e.Cancel? || e.CompleteString? || e.CompleteBytes? || e.Complete?
  }

  /** A closing callback in `es` can only be its last, and only in a run that has ended. */
  predicate ClosedBy(es: seq<Event>, finished: bool) {
    forall i :: 0 <= i < |es| && Closing(es[i]) ==> finished && i == |es| - 1
  }

  /** The attempt numbers passed to RetryCallback, in order. */
  function RetryArgs(log: seq<Event>): seq<int>
    decreases |log|
  {
    if log == [] then []
    else (if log[0].Retry? then [log[0].attempt] else []) + RetryArgs(log[1..])
  }

  /** How often StartCallback was called. */
  function Starts(log: seq<Event>): nat
    decreases |log|
  {
    if log == [] then 0 else (if log[0] == Start then 1 else 0) + Starts(log[1..])
  }

  /** The numbers 1 to n. */
  function Iota(n: nat): (r: seq<int>)
    ensures |r| == n && forall i :: 0 <= i < n ==> r[i] == i + 1
  {
    if n == 0 then [] else Iota(n - 1) + [n]
  }

  lemma {:induction false} RetryArgsAppend(a: seq<Event>, b: seq<Event>)
    ensures RetryArgs(a + b) == RetryArgs(a) + RetryArgs(b)
    decreases |a|
  {
    if a == [] {
      assert a + b == b;
    } else {
      assert (a + b)[1..] == a[1..] + b;
      RetryArgsAppend(a[1..], b);
      var h := if a[0].Retry? then [a[0].attempt] else [];
      assert RetryArgs(a + b) == h + RetryArgs(a[1..] + b);
      Assoc(h, RetryArgs(a[1..]), RetryArgs(b));
    }
  }

  lemma {:induction false} StartsAppend(a: seq<Event>, b: seq<Event>)
    ensures Starts(a + b) == Starts(a) + Starts(b)
    decreases |a|
  {
    if a == [] {
      assert a + b == b;
    } else {
      assert (a + b)[1..] == a[1..] + b;
      StartsAppend(a[1..], b);
    }
  }

  /** Appending the callbacks `b` to the callbacks `a` of a run that has not ended. */
  lemma Chain(a: seq<Event>, b: seq<Event>, finished: bool)
    requires ClosedBy(a, false) && ClosedBy(b, finished)
    ensures ClosedBy(a + b, finished)
    ensures RetryArgs(a + b) == RetryArgs(a) + RetryArgs(b)
    ensures Starts(a + b) == Starts(a) + Starts(b)
  {
    RetryArgsAppend(a, b);
    StartsAppend(a, b);
    forall i | 0 <= i < |a + b| && Closing((a + b)[i])
      ensures finished && i == |a + b| - 1
    {
      if i >= |a| {
        assert (a + b)[i] == b[i - |a|];
      }
    }
  }

  /** The callbacks of the download loop are DownloadCallback calls only. */
  lemma {:induction false} ChunksOnly(es: seq<Event>)
    requires forall k :: 0 <= k < |es| ==> es[k].Chunk?
    ensures ClosedBy(es, false) && RetryArgs(es) == [] && Starts(es) == 0
    decreases |es|
  {
    if es != [] {
      ChunksOnly(es[1..]);
      assert es == [es[0]] + es[1..];
      Chain([es[0]], es[1..], false);
    }
  }

  /** What holds at every control point of a run. */
  predicate Inv(c: Config) {
    && ClosedBy(c.log, c.phase == Finished)
    && RetryArgs(c.log) == Iota(c.retryCount)
    && Starts(c.log) == c.sent + (if c.truncated then 1 else 0)
    && (c.truncated ==> c.phase == Finished)
    && (c.phase == RetryProcedure ==> c.passRuns == c.retryCount)
    && (c.phase == Redirection || c.phase == RetrySection ==> c.passRuns == c.retryCount + 1)
    && (c.phase == Finished ==> c.passRuns == c.retryCount || c.passRuns == c.retryCount + 1)
    && (c.phase == Finished && c.passRuns == c.retryCount ==> |c.log| > 0 && c.log[|c.log| - 1] == Cancel)
  }

  /** One step that appends `es` to the callbacks keeps `Inv` when its counters move with it. */
  lemma Extend(c: Config, es: seq<Event>, r: Config)
    requires Inv(c) && c.phase != Finished
    requires r.log == c.log + es && ClosedBy(es, r.phase == Finished)
    requires (r.retryCount == c.retryCount && RetryArgs(es) == [])
          || (r.retryCount == c.retryCount + 1 && RetryArgs(es) == [r.retryCount])
    requires c.sent + Starts(es) == r.sent + (if r.truncated then 1 else 0)
    requires r.truncated ==> r.phase == Finished
    requires r.phase == RetryProcedure ==> r.passRuns == r.retryCount
    requires r.phase == Redirection || r.phase == RetrySection ==> r.passRuns == r.retryCount + 1
    requires r.phase == Finished ==> r.passRuns == r.retryCount || r.passRuns == r.retryCount + 1
    requires r.phase == Finished && r.passRuns == r.retryCount ==> |r.log| > 0 && r.log[|r.log| - 1] == Cancel
    ensures Inv(r)
  {
    Chain(c.log, es, r.phase == Finished);
  }

  /** The callbacks of the 200 branch: no retry, no send. */
  lemma OnOkLog(env: Env, c: Config, o: Outcome) returns (es: seq<Event>)
    requires o.Response?
    ensures OnOk(env, c, o).log == c.log + es
    ensures ClosedBy(es, OnOk(env, c, o).phase == Finished)
    ensures RetryArgs(es) == [] && Starts(es) == 0
  {
    var t := c.task;
    if CancelRequested(env, c.checks) {
      es := [Cancel];
    } else if !(t.downloadString || t.memoryCache) && !t.driveCache && t.filename.None? {
      var head := [Headers(o.headers), Cookies(o.cookies)];
      Chain([Headers(o.headers)], [Cookies(o.cookies)], false);
      assert head == [Headers(o.headers)] + [Cookies(o.cookies)];
      es := head + [Error(UnknowError, Thrown(MissingFilename))];
      Chain(head, [Error(UnknowError, Thrown(MissingFilename))], false);
    } else {
      es := OnOkBodyLog(env, c, o);
    }
  }

  /** The 200 branch once a sink is chosen: HeaderReceive, CookieReceive, SizeCallback, then the body. */
  lemma OnOkBodyLog(env: Env, c: Config, o: Outcome) returns (es: seq<Event>)
    requires o.Response? && !CancelRequested(env, c.checks)
    requires c.task.downloadString || c.task.memoryCache || c.task.driveCache || c.task.filename.Some?
    ensures OnOk(env, c, o).log == c.log + es
    ensures ClosedBy(es, OnOk(env, c, o).phase == Finished)
    ensures RetryArgs(es) == [] && Starts(es) == 0
  {
    var c2, sink := OkSized(env, c, o);
    var rest := OnSizedLog(env, c2, o, sink);
    es := SizedPrefix(o.headers, o.cookies, o.contentLength, rest, OnSized(env, c2, o, sink).phase == Finished);
    Assoc(c.log, [Headers(o.headers), Cookies(o.cookies), Size(o.contentLength)], rest);
  }

  /** The 200 branch, nothing cancelled, somewhere to write: HeaderReceive, CookieReceive, SizeCallback. */
  lemma OkSized(env: Env, c: Config, o: Outcome) returns (c2: Config, sink: Sink)
    requires o.Response? && !CancelRequested(env, c.checks)
    requires c.task.downloadString || c.task.memoryCache || c.task.driveCache || c.task.filename.Some?
    ensures OnOk(env, c, o) == OnSized(env, c2, o, sink)
    ensures c2.log == c.log + [Headers(o.headers), Cookies(o.cookies), Size(o.contentLength)]
  {
    var t := c.task;
    sink := if t.downloadString || t.memoryCache then MemorySink
            else if t.driveCache then NullSink else FileSink;
    var c1 := Tick(c.(written := [])).(log := c.log + [Headers(o.headers), Cookies(o.cookies)]);
    c2 := c1.(log := c1.log + [Size(o.contentLength)]);
    assert OnOk(env, c, o) == OnSized(env, c2, o, sink);
    Assoc(c.log, [Headers(o.headers), Cookies(o.cookies)], [Size(o.contentLength)]);
  }

  /** HeaderReceive, CookieReceive and SizeCallback neither close the run nor count an attempt. */
  lemma SizedPrefix(h: string, k: Option<seq<Cookie>>, n: int, rest: seq<Event>, finished: bool)
    returns (es: seq<Event>)
    requires ClosedBy(rest, finished)
    ensures es == [Headers(h), Cookies(k), Size(n)] + rest
    ensures ClosedBy(es, finished) && RetryArgs(es) == RetryArgs(rest) && Starts(es) == Starts(rest)
  {
    var sized := [Headers(h), Cookies(k), Size(n)];
    assert sized == [Headers(h)] + ([Cookies(k)] + [Size(n)]);
    Chain([Cookies(k)], [Size(n)], false);
    Chain([Headers(h)], [Cookies(k)] + [Size(n)], false);
    Chain(sized, rest, finished);
    es := sized + rest;
  }

  /** The callbacks from SizeCallback on. */
  lemma OnSizedLog(env: Env, c: Config, o: Outcome, sink: Sink) returns (es: seq<Event>)
    requires o.Response?
    ensures OnSized(env, c, o, sink).log == c.log + es
    ensures ClosedBy(es, OnSized(env, c, o, sink).phase == Finished)
    ensures RetryArgs(es) == [] && Starts(es) == 0
  {
    var t := c.task;
    if t.notifyOnlySize {
      es := if sink == NullSink then [Error(UnknowError, Thrown(NullStream))] else [];
    } else if CancelRequested(env, c.checks) {
      es := [Cancel];
    } else if t.downloadBufferSize < 0 {
      es := [Error(UnknowError, Thrown(NegativeBufferSize))];
    } else {
      es := StreamLog(env, c, o, sink);
    }
  }

  /** The callbacks of the download loop and the one that ends it. */
  lemma StreamLog(env: Env, c: Config, o: Outcome, sink: Sink) returns (es: seq<Event>)
    requires o.Response? && !c.task.notifyOnlySize && !CancelRequested(env, c.checks)
    requires c.task.downloadBufferSize >= 0
    ensures OnSized(env, c, o, sink).log == c.log + es
    ensures ClosedBy(es, OnSized(env, c, o, sink).phase == Finished)
    ensures RetryArgs(es) == [] && Starts(es) == 0
  {
    var s := ReadLoop(env, o.chunks, 0, c.task.downloadBufferSize, sink, c.checks + 1);
    ChunksOnly(s.events);
    var last := match s.end
      case Cancelled => Cancel
      case Faulted => Error(UnknowError, Thrown(NullStream))
      case Drained => Completion(env, c.task, s.written);
    es := s.events + [last];
    Chain(s.events, [last], s.end != Faulted);
    assert c.log + s.events + [last] == c.log + es;
  }

  /** The callbacks of the `catch (WebException e)` block: at most one, a RetryCallback only on fail-over. */
  lemma WebExLog(c: Config, o: Outcome) returns (es: seq<Event>)
    requires o.WebEx?
    ensures var r := OnWebException(c, o);
      && r.log == c.log + es && ClosedBy(es, r.phase == Finished) && Starts(es) == 0
      && r.passRuns == c.passRuns
      && (r.phase != RetryProcedure ==> r.retryCount == c.retryCount && RetryArgs(es) == [])
      && (r.phase == RetryProcedure ==> r.retryCount == c.retryCount + 1 && RetryArgs(es) == [r.retryCount])
  {
    var r := OnWebException(c, o);
    var resp := o.response;
    if resp.Some? && resp.value.status == Moved && c.task.autoRedirection {
      es := [];
    } else if HasFailover(c) {
      es := [Retry(c.retryCount + 1)];
    } else if (resp.Some? && IsCritical(resp.value.status))
              || o.webStatus == NameResolutionFailure || o.webStatus == UnknownError {
      es := [r.log[|r.log| - 1]];
    } else {
      es := [];
    }
  }

  /** The callbacks after GetResponse: no send, a RetryCallback only on fail-over. */
  lemma ClassifyLog(env: Env, c: Config, o: Outcome) returns (es: seq<Event>)
    requires !o.UriFormat?
    ensures var r := Classify(env, c, o);
      && r.log == c.log + es && ClosedBy(es, r.phase == Finished) && Starts(es) == 0
      && r.passRuns == c.passRuns
      && (r.phase != RetryProcedure ==> r.retryCount == c.retryCount && RetryArgs(es) == [])
      && (r.phase == RetryProcedure ==> r.retryCount == c.retryCount + 1 && RetryArgs(es) == [r.retryCount])
  {
    if o.Response? {
      if IsCritical(o.status) {
        es := [Error(CannotContinueByCriticalError, StatusCode(o.status))];
      } else if o.status == Moved || o.status == Redirect {
        es := [];
      } else if o.status == OK {
        es := OnOkLog(env, c, o);
      } else {
        es := [];
      }
    } else if o.WebEx? {
      es := WebExLog(c, o);
    } else {
      es := [Error(UnknowError, Thrown(TransportFault))];
    }
  }

  lemma RedirectionKeepsInv(env: Env, c: Config)
    requires c.phase == Redirection && c.sent <= |env.outcomes| && Inv(c)
    ensures Inv(RedirectionStep(env, c))
  {
    if CancelRequested(env, c.checks) {
      Extend(c, [Cancel], Stop(Tick(c), [Cancel]));
    } else if c.sent == |env.outcomes| {
      Extend(c, [Start], Stop(Tick(c), [Start]).(truncated := true));
    } else {
      AttemptKeepsInv(env, c);
    }
  }

  /** An outcome left to consume and no cancellation at the entry: StartCallback and what follows keep `Inv`. */
  lemma AttemptKeepsInv(env: Env, c: Config)
    requires c.phase == Redirection && c.sent < |env.outcomes| && Inv(c) && !CancelRequested(env, c.checks)
    ensures Inv(RedirectionStep(env, c))
  {
    var o := env.outcomes[c.sent];
    if o.UriFormat? {
      StopAfterStart(c, Error(UriFormatError, UriFailure),
        Stop(Tick(c).(sent := c.sent + 1, log := c.log + [Start]), [Error(UriFormatError, UriFailure)]));
    } else {
      PreparedKeepsInv(env, c);
    }
  }

  /** A request built for an outcome other than a malformed URI keeps `Inv`. */
  lemma PreparedKeepsInv(env: Env, c: Config)
    requires c.phase == Redirection && c.sent < |env.outcomes| && Inv(c) && !CancelRequested(env, c.checks)
    requires !env.outcomes[c.sent].UriFormat?
    ensures Inv(RedirectionStep(env, c))
  {
    if WritesBody(c.task) && CancelRequested(env, c.checks + 1) {
      StopAfterStart(c, Cancel, Stop(Prepared(env, c), [Cancel]));
    } else {
      SendKeepsInv(env, c, env.outcomes[c.sent]);
    }
  }

  /** A send that ends the run with one callback after StartCallback. */
  lemma StopAfterStart(c: Config, e: Event, r: Config)
    requires Inv(c) && c.phase == Redirection && !e.Retry? && e != Start
    requires r.phase == Finished && r.log == c.log + [Start] + [e] && r.sent == c.sent + 1
    requires r.retryCount == c.retryCount && r.passRuns == c.passRuns && !r.truncated
    ensures Inv(r)
  {
    Chain([Start], [e], true);
    assert r.log == c.log + ([Start] + [e]);
    Extend(c, [Start] + [e], r);
  }

  /** A send whose outcome reaches the classification keeps `Inv`. */
  lemma SendKeepsInv(env: Env, c: Config, o: Outcome)
    requires c.phase == Redirection && c.sent < |env.outcomes| && Inv(c) && !o.UriFormat?
    ensures Inv(Classify(env, Prepared(env, c), o))
  {
    var p := Prepared(env, c);
    var es := ClassifyLog(env, p, o);
    ExtendAfterStart(c, p, es, Classify(env, p, o));
  }

  /** StartCallback, then the callbacks `es` of the classification. */
  lemma ExtendAfterStart(c: Config, p: Config, es: seq<Event>, r: Config)
    requires Inv(c) && c.phase == Redirection
    requires p.log == c.log + [Start] && p.sent == c.sent + 1 && p.retryCount == c.retryCount
    requires p.passRuns == c.passRuns && p.truncated == c.truncated
    requires r.log == p.log + es && ClosedBy(es, r.phase == Finished) && Starts(es) == 0
    requires r.sent == p.sent && r.truncated == p.truncated && r.passRuns == p.passRuns
    requires r.phase != RetryProcedure ==> r.retryCount == p.retryCount && RetryArgs(es) == []
    requires r.phase == RetryProcedure ==> r.retryCount == p.retryCount + 1 && RetryArgs(es) == [r.retryCount]
    ensures Inv(r)
  {
    Chain([Start], es, r.phase == Finished);
    assert r.log == c.log + ([Start] + es);
    Extend(c, [Start] + es, r);
  }

  lemma RetrySectionKeepsInv(c: Config)
    requires c.phase == RetrySection && Inv(c)
    ensures Inv(RetrySectionStep(c))
  {
    var r := RetrySectionStep(c);
    if c.task.aborted {
      Extend(c, [Error(Aborted, NoDetail)], r);
    } else if HasFailover(c) || (c.task.retryWhenFail && c.task.retryCount > c.retryCount) {
      Extend(c, [Retry(c.retryCount + 1)], r);
    } else if c.task.retryWhenFail {
      var es := [Error(ManyRetry, NoDetail), Error(Unhandled, NoDetail)];
      Chain([es[0]], [es[1]], true);
      assert es == [es[0]] + [es[1]];
      Extend(c, es, r);
    } else {
      Extend(c, [Error(Unhandled, NoDetail)], r);
    }
  }

  lemma StepKeepsInv(env: Env, passes: seq<Pass>, c: Config)
    requires c.phase != Finished && c.sent <= |env.outcomes| && Inv(c)
    ensures Inv(Step(env, passes, c))
  {
    match c.phase
    case RetryProcedure =>
      if CancelRequested(env, c.checks) {
        Extend(c, [Cancel], Step(env, passes, c));
      }
    case Redirection => RedirectionKeepsInv(env, c);
    case RetrySection => RetrySectionKeepsInv(c);
  }

  lemma {:induction false} RunKeepsInv(env: Env, passes: seq<Pass>, c: Config)
    requires c.sent <= |env.outcomes| && Inv(c)
    ensures Inv(Run(env, passes, c))
    decreases Measure(env, c)
  {
    if c.phase != Finished {
      StepKeepsInv(env, passes, c);
      RunKeepsInv(env, passes, Step(env, passes, c));
    }
  }

  /**
   * Every run of Do: a closing callback is the last callback made; the
   * RetryCallback attempts are 1, 2, ..., n; there is one StartCallback per
   * transport outcome used (and one more when the transport ran dry); the
   * pipeline ran once per attempt, or once less, and then the run ended
   * with CancleCallback, cancellation having been seen at `RETRY_PROCEDURE`
   * before the pipeline ran.
   */
  lemma RunShape(env: Env, passes: seq<Pass>, t: NetTask)
    ensures var r := Run(env, passes, Initial(t));
      && (forall i :: 0 <= i < |r.log| && Closing(r.log[i]) ==> i == |r.log| - 1)
      && RetryArgs(r.log) == Iota(r.retryCount)
      && Starts(r.log) == r.sent + (if r.truncated then 1 else 0)
      && (r.passRuns == r.retryCount + 1 || r.passRuns == r.retryCount)
      && (r.passRuns == r.retryCount ==> |r.log| > 0 && r.log[|r.log| - 1] == Cancel)
  {
    RunKeepsInv(env, passes, Initial(t));
  }
}
