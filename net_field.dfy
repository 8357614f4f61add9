/**
 * NetField.Do: the download procedure. The two goto labels of the source
 * become a `phase` variable driving one loop; the task, the local retry
 * counter and the callbacks made so far are local state. The code between
 * two control points is a method of its own, proved to do what the
 * small-step machine of FieldSpec describes for that stretch.
 */
module NetField {
  import opened Wrappers
  import opened Transport
  import opened NetTasks
  import opened Passes
  import opened FieldRequest
  import opened FieldSpec

  /** Appends the rest of a read loop to what has been done so far. */
  function Combine(events: seq<Event>, written: seq<byte>, s: StreamResult): StreamResult {
    StreamResult(events + s.events, written + s.written, s.checks, s.end)
  }

  /** The do-while download loop: read, write, report, until a read returns nothing. */
  method DownloadLoop(env: Env, chunks: seq<seq<byte>>, bufferSize: nat, sink: Sink, checks0: nat)
    returns (events: seq<Event>, written: seq<byte>, checks: nat, ending: StreamEnd)
    ensures StreamResult(events, written, checks, ending) == ReadLoop(env, chunks, 0, bufferSize, sink, checks0)
  {
    ghost var goal := ReadLoop(env, chunks, 0, bufferSize, sink, checks0);
    events, written, checks := [], [], checks0;
    var i: nat := 0;
    assert Combine([], [], goal) == goal;
    while true
      invariant i <= |chunks|
      invariant Combine(events, written, ReadLoop(env, chunks, i, bufferSize, sink, checks)) == goal
      decreases |chunks| - i
    {
      ghost var events0, written0, checks1 := events, written, checks;
      if CancelRequested(env, checks) {
        checks, ending := checks + 1, Cancelled;
        return;
      }
      checks := checks + 1;
      var data := ReadAt(chunks, i, bufferSize);
      if sink == NullSink {
        // ostream.Write on the null stream of the DriveCache branch
        ending := Faulted;
        return;
      }
      written := written + data;
      if CancelRequested(env, checks) {
        checks, ending := checks + 1, Cancelled;
        return;
      }
      checks := checks + 1;
      events := events + [Chunk(|data|)];
      if |data| == 0 {
        ending := Drained;
        return;
      }
      LoopRound(env, chunks, i, bufferSize, sink, checks1, events0, written0);
      i := i + 1;
    }
  }

  /** One round of the download loop that reads something moves its callbacks and bytes to the front. */
  lemma LoopRound(env: Env, chunks: seq<seq<byte>>, i: nat, bufferSize: nat, sink: Sink, checks: nat,
                  events: seq<Event>, written: seq<byte>)
    requires sink != NullSink && !CancelRequested(env, checks) && !CancelRequested(env, checks + 1)
    requires ReadAt(chunks, i, bufferSize) != []
    ensures var data := ReadAt(chunks, i, bufferSize);
      Combine(events + [Chunk(|data|)], written + data, ReadLoop(env, chunks, i + 1, bufferSize, sink, checks + 2))
      == Combine(events, written, ReadLoop(env, chunks, i, bufferSize, sink, checks))
  {
    var data := ReadAt(chunks, i, bufferSize);
    var rest := ReadLoop(env, chunks, i + 1, bufferSize, sink, checks + 2);
    assert ReadLoop(env, chunks, i, bufferSize, sink, checks)
        == StreamResult([Chunk(|data|)] + rest.events, data + rest.written, rest.checks, rest.end);
    Assoc(events, [Chunk(|data|)], rest.events);
    Assoc(written, data, rest.written);
  }

  /** The `HttpStatusCode.OK` branch: headers, cookies, size, the body and its completion. */
  method ReceiveBody(env: Env, ghost c: Config, task: NetTask, response: Outcome, log0: seq<Event>, checks0: nat)
    returns (phase: Phase, log: seq<Event>, checks: nat, written: seq<byte>)
    requires response.Response? && c.task == task && c.log == log0 && c.checks == checks0
    ensures OnOk(env, c, response) == c.(phase := phase, log := log, checks := checks, written := written)
  {
    log, checks, written := log0, checks0, [];
    if CancelRequested(env, checks) {
      checks, log, phase := checks + 1, log + [Cancel], Finished;
      return;
    }
    checks := checks + 1;
    log := log + [Headers(response.headers), Cookies(response.cookies)];
    var sink: Sink;
    if task.downloadString || task.memoryCache {
      sink := MemorySink;
    } else if task.driveCache {
      sink := NullSink;
    } else if task.filename.None? {
      // File.OpenWrite(null) throws
      log, phase := log + [Error(UnknowError, Thrown(MissingFilename))], RetrySection;
      return;
    } else {
      sink := FileSink;
    }
    log := log + [Size(response.contentLength)];
    ghost var c2 := c.(log := log, checks := checks, written := written);
    phase, log, checks, written := ReceiveSized(env, c2, task, response, sink, log, checks);
  }

  /** From SizeCallback on: stop when only the size was asked for, otherwise the body and its completion. */
  method ReceiveSized(env: Env, ghost c: Config, task: NetTask, response: Outcome, sink: Sink,
                      log0: seq<Event>, checks0: nat)
    returns (phase: Phase, log: seq<Event>, checks: nat, written: seq<byte>)
    requires response.Response? && c.task == task && c.log == log0 && c.checks == checks0 && c.written == []
    ensures OnSized(env, c, response, sink) == c.(phase := phase, log := log, checks := checks, written := written)
  {
    log, checks, written := log0, checks0, [];
    if task.notifyOnlySize {
      if sink == NullSink {
        // ostream.Close() on the null stream
        log, phase := log + [Error(UnknowError, Thrown(NullStream))], RetrySection;
      } else {
        phase := Finished;
      }
      return;
    }
    if CancelRequested(env, checks) {
      checks, log, phase := checks + 1, log + [Cancel], Finished;
      return;
    }
    checks := checks + 1;
    if task.downloadBufferSize < 0 {
      // new byte[n] with n < 0 throws
      log, phase := log + [Error(UnknowError, Thrown(NegativeBufferSize))], RetrySection;
      return;
    }
    var events, ending;
    events, written, checks, ending := DownloadLoop(env, response.chunks, task.downloadBufferSize, sink, checks);
    log := log + events;
    if ending == Cancelled {
      log, phase := log + [Cancel], Finished;
    } else if ending == Faulted {
      log, phase := log + [Error(UnknowError, Thrown(NullStream))], RetrySection;
    } else {
      log, phase := log + [Completion(env, task, written)], Finished;
    }
  }

  /** The `catch (WebException e)` block: manual redirect, fail-over, or the fatal classes. */
  method CatchWebException(ghost c: Config, task0: NetTask, retryCount0: nat, log0: seq<Event>, outcome: Outcome)
    returns (phase: Phase, task: NetTask, retryCount: nat, log: seq<Event>)
    requires outcome.WebEx? && c.task == task0 && c.retryCount == retryCount0 && c.log == log0
    ensures OnWebException(c, outcome) == c.(phase := phase, task := task, retryCount := retryCount, log := log)
  {
    task, retryCount, log := task0, retryCount0, log0;
    var response := outcome.response;
    if response.Some? && response.value.status == Moved && task.autoRedirection {
      task, phase := task.(url := response.value.location), Redirection;
    } else if retryCount < |FailUrls(task)| {
      task := task.(url := FailUrls(task)[retryCount]);
      retryCount := retryCount + 1;
      log, phase := log + [Retry(retryCount)], RetryProcedure;
    } else if (response.Some? && IsCritical(response.value.status))
              || outcome.webStatus == NameResolutionFailure || outcome.webStatus == UnknownError {
      if response.Some? && response.value.status == Forbidden && response.value.cookies.Some? {
        log := log + [Cookies(response.value.cookies)];
      } else if outcome.webStatus == UnknownError {
        log := log + [Error(UnknowError, WebFailure(outcome.webStatus, response))];
      } else {
        log := log + [Error(CannotContinueByCriticalError, WebFailure(outcome.webStatus, response))];
      }
      phase := Finished;
    } else {
      phase := RetrySection;
    }
  }

  /** From the `REDIRECTION` label: checkpoint, StartCallback, build and send the request, classify the outcome. */
  method Send(env: Env, ghost c: Config, task0: NetTask, retryCount0: nat, sent0: nat, checks0: nat,
              log0: seq<Event>, requests0: seq<HttpRequest>, written0: seq<byte>)
    returns (phase: Phase, task: NetTask, retryCount: nat, sent: nat, checks: nat,
             log: seq<Event>, requests: seq<HttpRequest>, written: seq<byte>, truncated: bool)
    requires c.phase == Redirection && c.task == task0 && c.retryCount == retryCount0 && c.sent == sent0
    requires c.checks == checks0 && c.log == log0 && c.requests == requests0 && c.written == written0
    requires !c.truncated && sent0 <= |env.outcomes|
    ensures RedirectionStep(env, c)
         == Config(phase, task, retryCount, sent, checks, log, requests, written, c.passRuns, truncated)
  {
    task, retryCount, sent, checks, log, requests, written, truncated
      := task0, retryCount0, sent0, checks0, log0, requests0, written0, false;
    if CancelRequested(env, checks) {
      checks, log, phase := checks + 1, log + [Cancel], Finished;
      return;
    }
    checks := checks + 1;
    log := log + [Start];
    if sent == |env.outcomes| {
      truncated, phase := true, Finished;
      return;
    }
    var outcome := env.outcomes[sent];
    sent := sent + 1;
    if outcome.UriFormat? {
      log, phase := log + [Error(UriFormatError, UriFailure)], Finished;
      return;
    }
    var request := BuildRequest(task, env.host(task.url));
    task := task.(request := Some(request));
    requests := requests + [request];
    if WritesBody(task) {
      if CancelRequested(env, checks) {
        checks, log, phase := checks + 1, log + [Cancel], Finished;
        return;
      }
      checks := checks + 1;
    }
    ghost var c3 := c.(task := task, sent := sent, checks := checks, log := log, requests := requests);
    assert c3 == Prepared(env, c);
    phase, task, retryCount, log, checks, written := Dispatch(env, c3, task, retryCount, log, checks, written, outcome);
  }

  /** The end of the `try` block and its `catch` clauses, once GetResponse has produced `outcome`. */
  method Dispatch(env: Env, ghost c: Config, task0: NetTask, retryCount0: nat, log0: seq<Event>,
                  checks0: nat, written0: seq<byte>, outcome: Outcome)
    returns (phase: Phase, task: NetTask, retryCount: nat, log: seq<Event>, checks: nat, written: seq<byte>)
    requires !outcome.UriFormat?
    requires c.task == task0 && c.retryCount == retryCount0 && c.log == log0
    requires c.checks == checks0 && c.written == written0
    ensures Classify(env, c, outcome)
         == c.(phase := phase, task := task, retryCount := retryCount, log := log, checks := checks, written := written)
  {
    task, retryCount, log, checks, written := task0, retryCount0, log0, checks0, written0;
    if outcome.Response? {
      if IsCritical(outcome.status) {
        log, phase := log + [Error(CannotContinueByCriticalError, StatusCode(outcome.status))], Finished;
      } else if outcome.status == Moved || outcome.status == Redirect {
        if task.autoRedirection {
          task, phase := task.(url := outcome.location), Redirection;
        } else {
          phase := RetrySection;
        }
      } else if outcome.status == OK {
        phase, log, checks, written := ReceiveBody(env, c, task, outcome, log, checks);
      } else {
        phase := RetrySection;
      }
    } else if outcome.WebEx? {
      phase, task, retryCount, log := CatchWebException(c, task, retryCount, log, outcome);
    } else {
      log, phase := log + [Error(UnknowError, Thrown(TransportFault))], RetrySection;
    }
  }

  /** After the `try`: abort, fail-over, generic retry, and the final errors. */
  method RetryOrGiveUp(ghost c: Config, task0: NetTask, retryCount0: nat, log0: seq<Event>)
    returns (phase: Phase, task: NetTask, retryCount: nat, log: seq<Event>)
    requires c.task == task0 && c.retryCount == retryCount0 && c.log == log0
    ensures RetrySectionStep(c) == c.(phase := phase, task := task, retryCount := retryCount, log := log)
  {
    task, retryCount, log := task0, retryCount0, log0;
    if task.aborted {
      log, phase := log + [Error(Aborted, NoDetail)], Finished;
      return;
    }
    if retryCount < |FailUrls(task)| {
      task := task.(url := FailUrls(task)[retryCount]);
      retryCount := retryCount + 1;
      log, phase := log + [Retry(retryCount)], RetryProcedure;
      return;
    }
    if task.retryWhenFail {
      if task.retryCount > retryCount {
        retryCount := retryCount + 1;
        log, phase := log + [Retry(retryCount)], RetryProcedure;
        return;
      }
      log := log + [Error(ManyRetry, NoDetail)];
    }
    log, phase := log + [Error(Unhandled, NoDetail)], Finished;
  }

  /** NetField.Do(content), with NetTaskPass's registry passed in. */
  method Do(content: NetTask, registry: PassRegistry, env: Env) returns (report: Report)
    ensures report == Spec(env, registry.passes, content)
  {
    var task := content;
    var retryCount: nat := 0;
    var phase := RetryProcedure;
    var sent: nat, checks: nat := 0, 0;
    var log: seq<Event> := [];
    var requests: seq<HttpRequest> := [];
    var written: seq<byte> := [];
    var truncated := false;
    ghost var passRuns: nat := 0;
    ghost var passes := registry.passes;
    ghost var goal := Run(env, passes, Initial(content));
    while phase != Finished
      invariant sent <= |env.outcomes| && (phase != Finished ==> !truncated)
      invariant Run(env, passes, Config(phase, task, retryCount, sent, checks, log, requests, written, passRuns, truncated))
             == goal
      decreases (|env.outcomes| - sent) * 4 + Rank(phase)
    {
      ghost var before := Config(phase, task, retryCount, sent, checks, log, requests, written, passRuns, truncated);
      match phase {
        case RetryProcedure =>
          if CancelRequested(env, checks) {
            checks, log, phase := checks + 1, log + [Cancel], Finished;
          } else {
            checks := checks + 1;
            task := registry.RunOnField(task);
            passRuns, phase := passRuns + 1, Redirection;
          }
          AdvanceRetryProcedure(env, passes, before, Config(phase, task, retryCount, sent, checks, log, requests, written, passRuns, truncated));
        case Redirection =>
          phase, task, retryCount, sent, checks, log, requests, written, truncated
            := Send(env, before, task, retryCount, sent, checks, log, requests, written);
          AdvanceRedirection(env, passes, before, Config(phase, task, retryCount, sent, checks, log, requests, written, passRuns, truncated));
        case RetrySection =>
          phase, task, retryCount, log := RetryOrGiveUp(before, task, retryCount, log);
          AdvanceRetrySection(env, passes, before, Config(phase, task, retryCount, sent, checks, log, requests, written, passRuns, truncated));
      }
    }
    report := Report(task, log, requests, written, truncated);
  }
}
