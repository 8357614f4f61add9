/**
 * Cancellation over a whole run of NetField.Do. Every checkpoint the run
 * visits (lines 25, 35, 90, 102, 140, 174, 189 and 198) ends the run with
 * CancleCallback when the token is cancelled there, and only then: at the
 * end of a run, no checkpoint before the last one visited saw cancellation,
 * and the run ends with CancleCallback exactly when the last one did.
 */
module FieldCancellation {
  import opened NetTasks
  import opened Transport
  import opened Passes
  import opened FieldSpec

  /** No checkpoint from `lo` up to, not including, `hi` sees cancellation. */
  predicate Quiet(env: Env, lo: int, hi: int) {
    forall k: nat :: lo <= k < hi ==> !CancelRequested(env, k)
  }

  /** The last callback is CancleCallback. */
  predicate EndsCancelled(c: Config) {
    |c.log| > 0 && c.log[|c.log| - 1] == Cancel
  }

  /**
   * A stretch of a run that starts at checkpoint `lo` and ends the run in
   * `r`: no checkpoint before the last one it visited saw cancellation, and
   * it ends with CancleCallback exactly when that last one did.
   */
  predicate Ended(env: Env, lo: nat, r: Config) {
    r.checks >= lo && Quiet(env, lo, r.checks - 1)
    && (EndsCancelled(r) <==> r.checks > lo && CancelRequested(env, r.checks - 1))
  }

  /** A stretch of a run that visits checkpoints from `lo` on, sees no cancellation, and goes on in `r`. */
  predicate Passed(env: Env, lo: nat, r: Config) {
    r.checks >= lo && Quiet(env, lo, r.checks)
  }

  predicate Segment(env: Env, lo: nat, r: Config) {
    if r.phase == Finished then Ended(env, lo, r) else Passed(env, lo, r)
  }

  /** Uncancelled checkpoints before a stretch do not change how it ends. */
  lemma Compose(env: Env, lo: nat, mid: nat, r: Config)
    requires lo <= mid && Quiet(env, lo, mid) && Segment(env, mid, r)
    ensures Segment(env, lo, r)
  {
    if r.phase == Finished && r.checks > lo && CancelRequested(env, r.checks - 1) {
      assert r.checks - 1 >= mid;
    }
  }

  /** The download loop ends cancelled exactly at its last checkpoint, with none cancelled before. */
  lemma {:induction false} ReadLoopCancel(env: Env, chunks: seq<seq<byte>>, i: nat, bufferSize: nat,
                                          sink: Sink, checks: nat)
    ensures var s := ReadLoop(env, chunks, i, bufferSize, sink, checks);
      Quiet(env, checks, s.checks - 1) && (s.end == Cancelled <==> CancelRequested(env, s.checks - 1))
    decreases |chunks| - i
  {
    if !CancelRequested(env, checks) && sink != NullSink && !CancelRequested(env, checks + 1)
       && ReadAt(chunks, i, bufferSize) != [] {
      ReadLoopCancel(env, chunks, i + 1, bufferSize, sink, checks + 2);
    }
  }

  /** After SizeCallback, whose log does not end with CancleCallback. */
  lemma OnSizedCancel(env: Env, c: Config, o: Outcome, sink: Sink)
    requires o.Response? && !EndsCancelled(c)
    ensures Segment(env, c.checks, OnSized(env, c, o, sink))
  {
    var t := c.task;
    if !t.notifyOnlySize && !CancelRequested(env, c.checks) && t.downloadBufferSize >= 0 {
      StreamCancel(env, c, o, sink);
    }
  }

  /** The body read into the sink, after the checkpoint at line 174 passed. */
  lemma StreamCancel(env: Env, c: Config, o: Outcome, sink: Sink)
    requires o.Response? && !c.task.notifyOnlySize && !CancelRequested(env, c.checks)
    requires c.task.downloadBufferSize >= 0
    ensures Segment(env, c.checks, OnSized(env, c, o, sink))
  {
    var s := ReadLoop(env, o.chunks, 0, c.task.downloadBufferSize, sink, c.checks + 1);
    ReadLoopCancel(env, o.chunks, 0, c.task.downloadBufferSize, sink, c.checks + 1);
    assert Quiet(env, c.checks, s.checks - 1);
    if s.end == Faulted {
      StreamFaulted(env, c, o, sink, s);
    } else {
      StreamClosed(env, c, o, sink, s);
    }
  }

  /** No output stream: the retry section follows with no checkpoint cancelled. */
  lemma StreamFaulted(env: Env, c: Config, o: Outcome, sink: Sink, s: StreamResult)
    requires o.Response? && !c.task.notifyOnlySize && !CancelRequested(env, c.checks)
    requires c.task.downloadBufferSize >= 0
    requires s == ReadLoop(env, o.chunks, 0, c.task.downloadBufferSize, sink, c.checks + 1)
    requires Quiet(env, c.checks, s.checks - 1) && !CancelRequested(env, s.checks - 1) && s.end == Faulted
    ensures Segment(env, c.checks, OnSized(env, c, o, sink))
  {
    var c3 := c.(checks := s.checks, log := c.log + s.events, written := s.written);
    assert OnSized(env, c, o, sink) == Fault(c3, NullStream);
  }

  /** The loop cancelled or drained: the run ends with CancleCallback or the completion callback. */
  lemma StreamClosed(env: Env, c: Config, o: Outcome, sink: Sink, s: StreamResult)
    requires o.Response? && !c.task.notifyOnlySize && !CancelRequested(env, c.checks)
    requires c.task.downloadBufferSize >= 0
    requires s == ReadLoop(env, o.chunks, 0, c.task.downloadBufferSize, sink, c.checks + 1)
    requires Quiet(env, c.checks, s.checks - 1) && s.end != Faulted
    requires s.end == Cancelled <==> CancelRequested(env, s.checks - 1)
    ensures Segment(env, c.checks, OnSized(env, c, o, sink))
  {
    var c3 := c.(checks := s.checks, log := c.log + s.events, written := s.written);
    var e := if s.end == Cancelled then Cancel else Completion(env, c.task, s.written);
    assert OnSized(env, c, o, sink) == Stop(c3, [e]);
    StopsAt(env, c.checks, Stop(c3, [e]), e);
  }

  lemma OnOkCancel(env: Env, c: Config, o: Outcome)
    requires o.Response?
    ensures Segment(env, c.checks, OnOk(env, c, o))
  {
    var t := c.task;
    if !CancelRequested(env, c.checks)
       && !(!(t.downloadString || t.memoryCache) && !t.driveCache && t.filename.None?) {
      var c1 := Tick(c.(written := [])).(log := c.log + [Headers(o.headers), Cookies(o.cookies)]);
      var sink := if t.downloadString || t.memoryCache then MemorySink
                  else if t.driveCache then NullSink else FileSink;
      var c2 := c1.(log := c1.log + [Size(o.contentLength)]);
      assert OnOk(env, c, o) == OnSized(env, c2, o, sink);
      OnSizedCancel(env, c2, o, sink);
      Compose(env, c.checks, c.checks + 1, OnOk(env, c, o));
    }
  }

  lemma ClassifyCancel(env: Env, c: Config, o: Outcome)
    requires !o.UriFormat?
    ensures Segment(env, c.checks, Classify(env, c, o))
  {
    if o.Response? && !IsCritical(o.status) && o.status == OK {
      OnOkCancel(env, c, o);
    }
  }

  lemma RedirectionCancel(env: Env, c: Config)
    requires c.sent <= |env.outcomes|
    ensures Segment(env, c.checks, RedirectionStep(env, c))
  {
    if !CancelRequested(env, c.checks) && c.sent < |env.outcomes| {
      AttemptCancel(env, c);
    }
  }

  /** A send under way, the entry checkpoint passed. */
  lemma AttemptCancel(env: Env, c: Config)
    requires c.sent < |env.outcomes| && !CancelRequested(env, c.checks)
    ensures Segment(env, c.checks, RedirectionStep(env, c))
  {
    var o := env.outcomes[c.sent];
    if o.UriFormat? {
      var e := Error(UriFormatError, UriFailure);
      StopsAt(env, c.checks, Stop(Tick(c).(sent := c.sent + 1, log := c.log + [Start]), [e]), e);
    } else {
      PreparedCancel(env, c);
    }
  }

  /** A send whose URI is well formed. */
  lemma PreparedCancel(env: Env, c: Config)
    requires c.sent < |env.outcomes| && !CancelRequested(env, c.checks) && !env.outcomes[c.sent].UriFormat?
    ensures Segment(env, c.checks, RedirectionStep(env, c))
  {
    if WritesBody(c.task) && CancelRequested(env, c.checks + 1) {
      BodyCancel(env, c);
    } else {
      SendsOn(env, c);
      SendCancel(env, c, env.outcomes[c.sent]);
    }
  }

  /** Cancelled after writing the request body (lines 90 and 102). */
  lemma BodyCancel(env: Env, c: Config)
    requires c.sent < |env.outcomes| && !CancelRequested(env, c.checks) && !env.outcomes[c.sent].UriFormat?
    requires WritesBody(c.task) && CancelRequested(env, c.checks + 1)
    ensures Segment(env, c.checks, RedirectionStep(env, c))
  {
    var r := Stop(Prepared(env, c), [Cancel]);
    assert RedirectionStep(env, c) == r;
    StopsAt(env, c.checks, r, Cancel);
  }

  /** No cancellation around the request: the outcome is classified. */
  lemma SendsOn(env: Env, c: Config)
    requires c.sent < |env.outcomes| && !CancelRequested(env, c.checks) && !env.outcomes[c.sent].UriFormat?
    requires !(WritesBody(c.task) && CancelRequested(env, c.checks + 1))
    ensures RedirectionStep(env, c) == Classify(env, Prepared(env, c), env.outcomes[c.sent])
  {
  }

  /** A run that ends with callback `e`, which is CancleCallback exactly when the last checkpoint saw cancellation. */
  lemma StopsAt(env: Env, lo: nat, r: Config, e: Event)
    requires r.phase == Finished && |r.log| > 0 && r.log[|r.log| - 1] == e
    requires lo < r.checks && Quiet(env, lo, r.checks - 1)
    requires e == Cancel <==> CancelRequested(env, r.checks - 1)
    ensures Segment(env, lo, r)
  {
  }

  /** The request built and its body written without cancellation: the classification decides. */
  lemma SendCancel(env: Env, c: Config, o: Outcome)
    requires c.sent < |env.outcomes| && !CancelRequested(env, c.checks) && !o.UriFormat?
    requires !(WritesBody(c.task) && CancelRequested(env, c.checks + 1))
    ensures Segment(env, c.checks, Classify(env, Prepared(env, c), o))
  {
    var p := Prepared(env, c);
    assert p.checks == c.checks + (if WritesBody(c.task) then 2 else 1);
    ClassifyCancel(env, p, o);
    Compose(env, c.checks, p.checks, Classify(env, p, o));
  }

  lemma StepCancel(env: Env, passes: seq<Pass>, c: Config)
    requires c.phase != Finished && c.sent <= |env.outcomes|
    ensures Segment(env, c.checks, Step(env, passes, c))
  {
    match c.phase
    case RetryProcedure =>
    case Redirection => RedirectionCancel(env, c);
    case RetrySection =>
  }

  /** From any control point on, the rest of the run ends as `Ended` says. */
  lemma {:induction false} RunCancel(env: Env, passes: seq<Pass>, c: Config)
    requires c.phase != Finished && c.sent <= |env.outcomes|
    ensures Ended(env, c.checks, Run(env, passes, c))
    decreases Measure(env, c)
  {
    var d := Step(env, passes, c);
    StepCancel(env, passes, c);
    assert Run(env, passes, c) == Run(env, passes, d);
    if d.phase != Finished {
      RunCancel(env, passes, d);
      Compose(env, c.checks, d.checks, Run(env, passes, d));
    }
  }

  /**
   * A whole run visits checkpoints 0, 1, ..., r.checks - 1. A checkpoint
   * that sees cancellation is the last one visited and the run ends with
   * CancleCallback there; a run ending with CancleCallback ended at a
   * checkpoint that saw cancellation.
   */
  lemma CancellationEndsRun(env: Env, passes: seq<Pass>, t: NetTask)
    ensures var r := Run(env, passes, Initial(t));
      (forall k :: 0 <= k < r.checks && CancelRequested(env, k) ==> k == r.checks - 1 && EndsCancelled(r))
      && (EndsCancelled(r) ==> r.checks > 0 && CancelRequested(env, r.checks - 1))
  {
    RunCancel(env, passes, Initial(t));
    EndedFromStart(env, Run(env, passes, Initial(t)));
  }

  /** `Ended` from checkpoint 0, spelled out. */
  lemma EndedFromStart(env: Env, r: Config)
    requires Ended(env, 0, r)
    ensures forall k :: 0 <= k < r.checks && CancelRequested(env, k) ==> k == r.checks - 1 && EndsCancelled(r)
    ensures EndsCancelled(r) ==> r.checks > 0 && CancelRequested(env, r.checks - 1)
  {
  }
}
