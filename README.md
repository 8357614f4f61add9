# download-queue: the download state machine, the pass registry and the priority comparator

This project models the core of the C# library `download-queue` and proves properties of the model. It covers three parts:

- **`NetField.Do`.** This routine runs one download task. It builds and sends the HTTP request and follows 301/302 redirects through the `Location` header (sections 15.4.2 and 15.4.3 of RFC 9110). It classifies each failure, walks the fail-over URLs and then a generic retry budget, and streams a 200 body into memory or a file. All of this is reported through the task's callbacks.
- **`NetTaskPass`.** A process-wide, ordered list of task mutators, run before every attempt.
- **`NetPriority.CompareTo`.** The comparison a scheduler would use to order tasks.

`NetField.Do` is modelled twice:

- **As a specification.** `FieldSpec` is a small-step machine over the source's control points:
  - the `RETRY_PROCEDURE` label;
  - the `REDIRECTION` label;
  - the retry section after the `try`;
  - the end of the run.

  `Step` moves from one control point to the next as the code between them does, for the outcomes the model distinguishes (see "## Left out"), and `Run` iterates it.
- **As imperative code.** `NetField.Do` is a `method` whose loop over an explicit phase replaces the `goto`s. Its callees (`Send`, `Dispatch`, `ReceiveBody`, `ReceiveSized`, `DownloadLoop`, `CatchWebException`, `RetryOrGiveUp`) each mirror one part of the source. Each is proved equal to the matching function of the specification, and `Do` is proved equal to `Spec`.

The world outside is passed in as an `Env`:

- **Transport.** One abstract outcome answers each send: a response, a `WebException` with or without a response, a `UriFormatException`, or any other exception.
- **Cancellation.** One flag per cancellation checkpoint visited.
- **Host.** The host of a URL.
- **Decoding.** `Encoding.GetString`.

Every callback invocation is recorded in an event log.

On top of this:

- `FieldInvariants` proves what every run guarantees about its callbacks, retries and sends.
- `FieldCancellation` proves that every cancellation checkpoint a run visits ends the run with CancleCallback when the token is cancelled there, and that a run ends with CancleCallback only that way.
- `FieldScenarios` proves how the run reacts to each kind of outcome covered by its lemmas: the response statuses, the WebException classes, a generic exception, a malformed URI and the 200 body. This includes a transport that never succeeds, which exhausts the fail-over URLs and then the retry budget.

`PassRegistry` is a class holding the list of passes, with `RunOnField` and `RemoveFromPasses` proved against pure functions. `Priority` proves `CompareTo` a total preorder.

Modules:

- `Wrappers`: `Option`.
- `Transport`: outcomes and requests.
- `NetTasks`: the task record, `NetError` and the events.
- `Passes`: the pass registry.
- `Priority`: the comparator.
- `FieldRequest`: request building, the default Referer and the form body.
- `FieldSpec`: the specification of `Do`.
- `NetField`: the imperative `Do`.
- `FieldInvariants`: run-wide properties.
- `FieldCancellation`: cancellation over a whole run.
- `FieldScenarios`: per-situation behaviour.

## Model

| member | source | states |
|---|---|---|
| NetField.Do | download-queue/NetField.cs:19-343 | The report of the imperative run equals `Spec`: the final task (URL and request included), every callback in order, every request built, the body bytes written, and whether the transport ran dry. |
| NetField.Send | download-queue/NetField.cs:33-300 | From `REDIRECTION`: the entry checkpoint, StartCallback, request construction, the checkpoint after writing a body, and the outcome's classification. The new state equals `RedirectionStep`. |
| NetField.Dispatch | download-queue/NetField.cs:113-300 | The response, `WebException` and generic-exception branches produce exactly the state `Classify` gives. |
| NetField.ReceiveBody | download-queue/NetField.cs:138-165 | The 200 branch up to SizeCallback (cancel check, headers, cookies, sink choice, a missing file name) continues exactly as `OnOk` does. |
| NetField.ReceiveSized | download-queue/NetField.cs:165-231 | After SizeCallback the state is exactly `OnSized`'s. This covers NotifyOnlySize, the cancel check, a negative buffer size, the download loop, and the completion callback. |
| NetField.DownloadLoop | download-queue/NetField.cs:187-206 | The do-while read loop returns the callbacks, bytes, checkpoints used and the way it ended, exactly as `ReadLoop` gives them. |
| NetField.CatchWebException | download-queue/NetField.cs:235-286 | The `catch (WebException)` block's branches, in source order: manual 301 redirect, fail-over, the fatal classes with the 403-with-cookies case, and otherwise on to the retry section. The result equals `OnWebException`. |
| NetField.RetryOrGiveUp | download-queue/NetField.cs:302-342 | Aborted, then fail-over, then generic retry, then ManyRetry and Unhandled. These match `RetrySectionStep` exactly. |
| FieldSpec.RetryProcedureStep | download-queue/NetField.cs:23-31 | `RETRY_PROCEDURE` visits one checkpoint. It ends the run with CancleCallback exactly when that checkpoint sees cancellation. Otherwise it runs the pipeline once on the task and goes to `REDIRECTION` with no callback. |
| FieldSpec.RetrySectionStep | download-queue/NetField.cs:302-342 | The retry section goes back to `RETRY_PROCEDURE` exactly when the task is not aborted and either a fail-over URL or generic retry budget remains. It then adds RetryCallback with the new counter. Otherwise it ends the run with Aborted, or last with Unhandled. It visits no checkpoint and sends nothing. |
| FieldSpec.Failover | download-queue/NetField.cs:249-254 | A fail-over switches to the next URL of `FailUrls` (entry n for counter n, the list itself kept), counts it, and calls RetryCallback with the new count. |
| FieldSpec.Completion | download-queue/NetField.cs:212-226 | Exactly one completion callback, chosen by the flags: CompleteCallbackString with the decoded body (UTF-8 when no Encoding is set) for DownloadString, CompleteCallbackBytes with the bytes for MemoryCache, else CompleteCallback. |
| FieldSpec.Prepared | download-queue/NetField.cs:35-107 | A send uses one outcome and adds StartCallback. It records the request `BuildRequest` makes for the current URL and stores it in the task. The retry counter, pass count and bytes written are untouched. |
| FieldSpec.Classify | download-queue/NetField.cs:113-300 | Classifying an outcome never uses another outcome. |
| FieldSpec.RedirectionStep | download-queue/NetField.cs:33-300 | From `REDIRECTION` the run either ends or has used exactly one more outcome. |
| FieldSpec.OnResponse | download-queue/NetField.cs:113-137 | A normally returned response leaves the retry counter and the outcomes used unchanged. |
| FieldSpec.OnWebException | download-queue/NetField.cs:235-286 | A WebException never uses another outcome. |
| FieldSpec.OnOk | download-queue/NetField.cs:138-231 | The 200 branch ends the run or goes to the retry section. It never retries directly, and it keeps the task, the counter and the pass count. |
| FieldSpec.OnSized | download-queue/NetField.cs:165-231 | Same as `OnOk`, from SizeCallback on. |
| FieldSpec.ReadLoop | download-queue/NetField.cs:187-206 | The loop makes DownloadCallback calls only and uses at least one checkpoint. When it drains, its callbacks are one per read (the final empty read included) and its bytes are all the non-empty reads. |
| FieldSpec.Step | download-queue/NetField.cs:23-342 | Each step between control points strictly decreases (outcomes left, phase rank). Every run therefore ends. |
| FieldSpec.Run | download-queue/NetField.cs:19-343 | Iterating `Step` always reaches the end of the run. |
| FieldSpec.AdvanceRedirection | download-queue/NetField.cs:33-300 | One step from `REDIRECTION` leaves the end of the run where it was. |
| FieldSpec.AdvanceRetryProcedure | download-queue/NetField.cs:23-31 | One step from `RETRY_PROCEDURE` leaves the end of the run where it was, and decreases the measure. |
| FieldSpec.AdvanceRetrySection | download-queue/NetField.cs:302-342 | One step of the retry section leaves the end of the run where it was, and decreases the measure. |
| FieldRequest.BuildRequestSendsQuery | download-queue/NetField.cs:80-88 | A task with a query sends a form POST (`application/x-www-form-urlencoded`). Its body reads back into the query's entries, in order, when keys contain neither `=` nor `&` and values contain no `&`. |
| FieldRequest.BuildRequestReferer | download-queue/NetField.cs:55-58 | The request carries the task's own Referer when it has one. Otherwise it carries `"https://"` plus the host for an https URL, and `"http//"` plus the host for an http URL. |
| FieldRequest.DefaultReferer | download-queue/NetField.cs:55-58 | The default Referer always ends with `//` followed by the host. |
| FieldRequest.RefererOfHttps | download-queue/NetField.cs:55-58 | Without a Referer, an `https://` URL gives `"https://"` plus the host. |
| FieldRequest.RefererOfHttp | download-queue/NetField.cs:55-58 | An `http://` URL gives `"http//"` plus the host: the colon is dropped. |
| FieldRequest.RefererOfOtherScheme | download-queue/NetField.cs:58 | Any other URL gives its text before the first `:` (the whole URL when it has none), then `"//"` and the host. |
| FieldRequest.BeforeFirst | download-queue/NetField.cs:58 | `Split(':')[0]` is the longest prefix free of `:`, ended by a `:` or by the end of the string. |
| FieldRequest.SplitJoin | download-queue/NetField.cs:86 | Splitting a join on a separator no item contains gives back the items. |
| FieldRequest.FormBodyRoundTrip | download-queue/NetField.cs:86 | The form body `k1=v1&k2=v2…` reads back into the query entries, in order, when keys contain neither `=` nor `&` and values contain no `&`. |
| FieldRequest.FormBodyIsNotEncoded | download-queue/NetField.cs:86 | No percent-encoding: `{a: "1&b=2"}` and `{a: "1", b: "2"}` give the same body. |
| FieldInvariants.RunShape | download-queue/NetField.cs:19-343 | Every run, whatever the transport, token and passes: (1) a CancleCallback or completion callback is the last callback; (2) RetryCallback receives 1, 2, …, n in order; (3) there is one StartCallback per send (one more if the transport ran dry); (4) the pipeline ran once per attempt, so never after a redirect, or once less, and then the run ended with CancleCallback (the `RETRY_PROCEDURE` checkpoint saw cancellation before the pipeline ran). |
| FieldInvariants.RunKeepsInv | download-queue/NetField.cs:19-343 | `Inv` holds at every control point of a run from any state satisfying it. |
| FieldInvariants.StepKeepsInv | download-queue/NetField.cs:23-342 | Each of the three kinds of step keeps `Inv`. |
| FieldInvariants.RedirectionKeepsInv | download-queue/NetField.cs:33-300 | A send keeps `Inv`. Redirects keep the counter and the pass count, and fail-overs add exactly the next RetryCallback. |
| FieldInvariants.RetrySectionKeepsInv | download-queue/NetField.cs:302-342 | The retry section keeps `Inv`: each fail-over or retry adds RetryCallback(n + 1) and leads to a pipeline run. |
| FieldInvariants.ClassifyLog | download-queue/NetField.cs:113-300 | The classification appends callbacks with no StartCallback. It appends a RetryCallback exactly when it jumps to `RETRY_PROCEDURE`, and then numbered with the new counter. |
| FieldInvariants.WebExLog | download-queue/NetField.cs:235-286 | Same for the `catch (WebException)` block. |
| FieldInvariants.OnOkLog | download-queue/NetField.cs:138-231 | The 200 branch appends no RetryCallback and no StartCallback, and a closing callback only as the last one of a finished run. |
| FieldInvariants.StreamLog | download-queue/NetField.cs:187-231 | Same for the loop and the callback that ends it. |
| FieldCancellation.CancellationEndsRun | download-queue/NetField.cs:19-343 | In every run, a checkpoint that sees cancellation is the last checkpoint visited, and the run ends with CancleCallback there. A run that ends with CancleCallback ended at a checkpoint that saw cancellation. This covers every checkpoint (lines 25, 35, 90, 102, 140, 174, 189, 198), after redirects and fail-overs too. |
| FieldCancellation.RunCancel | download-queue/NetField.cs:23-342 | From any control point, the rest of the run sees no cancellation before its last checkpoint, and ends with CancleCallback exactly when that last one saw it. |
| FieldCancellation.ReadLoopCancel | download-queue/NetField.cs:187-206 | The download loop sees no cancellation before its last checkpoint, and ends cancelled exactly when that one saw cancellation. |
| FieldCancellation.StepCancel | download-queue/NetField.cs:23-342 | A step that goes on has passed its checkpoints uncancelled. A step that ends the run does so as `RunCancel` states. |
| FieldScenarios.CancelledAtEntry | download-queue/NetField.cs:23-29 | A token already cancelled: CancleCallback only, with no StartCallback, no request and no pass run. |
| FieldScenarios.CancelledBeforeSend | download-queue/NetField.cs:31-39 | Cancelled after the pipeline: the passes' task and CancleCallback only, with nothing sent. |
| FieldScenarios.CancelledAtRedirection | download-queue/NetField.cs:33-39 | Cancelled at `REDIRECTION` on any attempt, first, after a redirect or after a retry: the run ends with CancleCallback as its last callback, and nothing is sent, no request is recorded and the task is unchanged. |
| FieldScenarios.UriFormatStops | download-queue/NetField.cs:288-296 | A malformed URI: StartCallback, one UriFormatError, end. No request is recorded and no retry happens. |
| FieldScenarios.CriticalStatusStops | download-queue/NetField.cs:115-127 | A returned 400/401/403/404/500 ends the run with CannotContinueByCriticalError carrying the status. |
| FieldScenarios.RedirectStatus | download-queue/NetField.cs:128-137 | 301/302 with AutoRedirection: the URL becomes the Location and the next send follows at `REDIRECTION`, with no callback and the counter kept. Without AutoRedirection the retry section follows. |
| FieldScenarios.OtherStatusRetries | download-queue/NetField.cs:113-137 | Any other non-200 status goes silently to the retry section. |
| FieldScenarios.WebExRedirect | download-queue/NetField.cs:239-247 | A 301 WebException with AutoRedirection redirects even when fail-over URLs remain. |
| FieldScenarios.WebExFailoverFirst | download-queue/NetField.cs:249-255 | Any other WebException switches to `FailUrls[retry_count]` while one remains, even for a critical status. |
| FieldScenarios.ForbiddenWithCookies | download-queue/NetField.cs:257-270 | With no fail-over left, a 403 WebException with cookies ends the run with CookieReceive and no error. |
| FieldScenarios.NameResolutionStops | download-queue/NetField.cs:257-285 | With no fail-over left, a failed name resolution ends the run with CannotContinueByCriticalError. This holds unless the exception carries a 301 to follow (AutoRedirection) or a 403 with cookies. |
| FieldScenarios.WebExUnknownStops | download-queue/NetField.cs:257-279 | With no fail-over left, a WebException of status UnknownError ends the run with UnknowError, under the same two exceptions. |
| FieldScenarios.WebExCriticalStops | download-queue/NetField.cs:257-285 | With no fail-over left, a WebException carrying 400/401/403/404/500 ends the run with CannotContinueByCriticalError. This holds unless it is a 403 with cookies or its status is UnknownError. |
| FieldScenarios.OtherWebExRetries | download-queue/NetField.cs:257-287 | With no fail-over left, any other WebException goes silently to the retry section. |
| FieldScenarios.TransportFaultRetries | download-queue/NetField.cs:297-300 | A generic exception reports UnknowError and then goes to the retry section. |
| FieldScenarios.AbortedStops | download-queue/NetField.cs:306-310 | An aborted task ends with the Aborted error, before any fail-over or retry. |
| FieldScenarios.RetriesExhausted | download-queue/NetField.cs:324-342 | With RetryWhenFail and the budget used up, ManyRetry and then Unhandled are both reported. |
| FieldScenarios.ChunksAddUp | download-queue/NetField.cs:195-204 | The lengths reported by DownloadCallback add up to the number of bytes written. |
| FieldScenarios.EmptyReadEnds | download-queue/NetField.cs:187-206 | The last DownloadCallback reports 0 and every earlier one a positive length. |
| FieldScenarios.ReceivesWholeBody | download-queue/NetField.cs:195-196 | With a positive buffer and no empty chunk, the bytes written are the whole body, in order. |
| FieldScenarios.UncancelledLoopDrains | download-queue/NetField.cs:187-206 | Uncancelled, with a stream to write to, the loop always reads up to the empty read. |
| FieldScenarios.Downloaded | download-queue/NetField.cs:138-231 | A 200 response, nothing cancelled. The callbacks are StartCallback, HeaderReceive, CookieReceive, SizeCallback, one DownloadCallback per read, and the sink's completion callback with the bytes received. The request is recorded and the counter kept. |
| FieldScenarios.ReachesBody | download-queue/NetField.cs:138-165 | The 200 branch reaches SizeCallback with the sink the flags choose: memory for DownloadString or MemoryCache, none for DriveCache, else the file. |
| FieldScenarios.DrainedBody | download-queue/NetField.cs:174-226 | After SizeCallback: the whole body, one DownloadCallback per read, then CompleteCallbackString with the decoded text (UTF-8 without an Encoding), CompleteCallbackBytes, or CompleteCallback. |
| FieldScenarios.NullBody | download-queue/NetField.cs:165-196 | With no output stream, SizeCallback is followed by UnknowError and the retry section. |
| FieldScenarios.SizeOnly | download-queue/NetField.cs:165-172 | NotifyOnlySize ends the run right after SizeCallback, with no DownloadCallback and no completion. |
| FieldScenarios.DriveCacheFails | download-queue/NetField.cs:152-169 | The unfinished DriveCache branch leaves the stream null. The run reports UnknowError after SizeCallback and retries. |
| FieldScenarios.TriedUrls | download-queue/NetField.cs:249-255 | The list `Tried(t, k)`, which `FailingUrls` equates with the URLs of the requests, has one entry per remaining attempt, and entry j is `UrlAt(t, k + j)`. `UrlAt` is the original URL, then each fail-over URL in list order, then the last one again. |
| FieldScenarios.FailedAttempt | download-queue/NetField.cs:23-300 | A failing attempt from `RETRY_PROCEDURE`: StartCallback, UnknowError, the request to the current URL, then the retry section. |
| FieldScenarios.RetryNext | download-queue/NetField.cs:316-333 | Within the budget, the retry section adds RetryCallback(k + 1) and continues with the next URL on the shared counter. |
| FieldScenarios.RetryGiveUp | download-queue/NetField.cs:324-342 | At the end of the budget: ManyRetry (with RetryWhenFail) then Unhandled, or Unhandled alone. |
| FieldScenarios.FailingFrom | download-queue/NetField.cs:23-342 | Every send from attempt k on failing: the callbacks are exactly the remaining attempts joined by RetryCallbacks, then the final errors. |
| FieldScenarios.FailingUrls | download-queue/NetField.cs:23-342 | Same premise: the requests go to `UrlAt(t, k)`, …, `UrlAt(t, Budget(t))`, in order. |
| FieldScenarios.GiveUpQuiet | download-queue/NetField.cs:334-342 | Giving up appends no RetryCallback, no StartCallback and no closing callback. |
| FieldScenarios.PersistentFailure | download-queue/NetField.cs:19-343 | From the start: the whole log and the whole list of URLs requested, for a transport that always fails. |
| FieldScenarios.AttemptsCount | download-queue/NetField.cs:316-332 | The attempts number their RetryCallbacks consecutively up to the budget and make one StartCallback each. |
| FieldScenarios.RetryBudget | download-queue/NetField.cs:324-342 | RetryWhenFail, RetryCount n, no fail-over: n + 1 sends to the same URL, RetryCallback 1…n, then ManyRetry and Unhandled. |
| FieldScenarios.FailoverOrder | download-queue/NetField.cs:302-342 | Fail-over URLs u1…um, and either no RetryWhenFail or a RetryCount of at most m: the requests go to the URL and then to u1…um in order, and RetryCallback receives 1…m. Fail-overs and generic retries share `retry_count` (lines 316 and 326), so a RetryCount of at most m allows no generic retry after the fail-overs. |
| Passes.FoldRunsEachPassOnce | download-queue/NetTaskPass.cs:14-18 | Each pass runs exactly once, in list order, on the previous pass's output. The result is the last pass's output. |
| Passes.FoldAppend | download-queue/NetTaskPass.cs:14-18 | Running two lists of passes one after the other is running their concatenation. |
| Passes.FoldSnoc | download-queue/NetTaskPass.cs:14-18 | Registering one more pass runs it last, on the output of the others. |
| Passes.Stages | download-queue/NetTaskPass.cs:14-18 | One intermediate task per pass plus the input, the first being the task handed in. |
| Passes.IndexOfName | download-queue/NetTaskPass.cs:25-31 | The index is that of the first pass with the name, or -1 exactly when none has it. |
| Passes.RemoveFirstAbsent | download-queue/NetTaskPass.cs:25-32 | Without a matching entry the list is unchanged. |
| Passes.RemoveFirstPresent | download-queue/NetTaskPass.cs:27-30 | With one, exactly the first match goes: the list is one shorter, earlier entries stay put and later ones move down by one. |
| Passes.RemoveFirstRemovesAtMostOne | download-queue/NetTaskPass.cs:24-31 | At most one entry is removed, and nothing new appears. |
| Passes.PassRegistry.constructor | download-queue/NetTaskPass.cs:12 | The registry starts empty. |
| Passes.PassRegistry.Add | download-queue/NetTaskPass.cs:12 | Registering appends the pass at the end. |
| Passes.PassRegistry.RunOnField | download-queue/NetTaskPass.cs:14-18 | The `foreach` returns the fold of the registered passes over the task. With no passes, the task is unchanged. |
| Passes.PassRegistry.RemoveFromPasses | download-queue/NetTaskPass.cs:20-34 | The indexed loop with `break` leaves exactly `RemoveFirst` of the old list. |
| Priority.Rank | NetPriority.cs:10-18 | Low = 0 < Trivial = 1 < Emergency = 2. |
| Priority.CompareInt | NetPriority.cs:30 | `Int32.CompareTo` is -1, 0 or 1 exactly as the first is below, equal to or above the second. |
| Priority.CompareTo | NetPriority.cs:25-31 | The result is -1, 0 or 1. |
| Priority.ClassDominates | NetPriority.cs:27-28 | Different classes: 1 when this class is higher, -1 when lower, whatever the integers. |
| Priority.EmergencyIsGreatest | NetPriority.cs:12-17 | An Emergency priority compares greater than any Low or Trivial one. |
| Priority.WithinClassDescending | NetPriority.cs:30 | Same class: the higher integer compares less. |
| Priority.ZeroIffEquivalent | NetPriority.cs:30 | 0 exactly for equal class and integer, so `x.CompareTo(x) == 0`. |
| Priority.Antisymmetric | NetPriority.cs:25-31 | `a.CompareTo(b) == -b.CompareTo(a)`. |
| Priority.Transitive | NetPriority.cs:25-31 | "At most" is transitive, and strictly less on either side gives strictly less. |
| Priority.Total | NetPriority.cs:25-31 | Any two priorities are ordered one way or the other. |
| Priority.TotalPreorder | NetPriority.cs:25-31 | `CompareTo(a, b) <= 0` is reflexive, transitive and total. |

Behaviour of the code worth knowing:

- When the retry budget is used up with RetryWhenFail, ManyRetry is reported and then Unhandled as well (lines 339 and 342).
- Emergency compares greater than the other classes (`CompareTo` returns 1), so it sorts last in ascending order.
- Only a query turns the request into a POST (lines 80-88). A raw request body is written to a request whose verb is left at GET (lines 96-100). The HTTP client rejects that with an exception, which the generic handler reports as UnknowError before the retry section. The model leaves the result of such a send to the outcome.
- Fail-over and generic retry share the one counter `retry_count`, so fail-overs use up the retry budget (lines 21, 251, 326-328).
- Redirects jump to `REDIRECTION`, below the pipeline call, so passes do not run again after a redirect (lines 31-33, 135, 245).
- Manual redirects are not counted (lines 135 and 245): a cycle of 301/302 responses makes `Do` send forever. Every run of the model ends only because the transport's list of outcomes is finite.
- A 301/302 without AutoRedirection, and any other status that is neither 200 nor one of the five critical statuses (lines 115-126), goes to the retry section (lines 128-137).
- With no fail-over URL left (a remaining one is tried first, lines 249-255), a 403 WebException with cookies ends the run with CookieReceive only (lines 266-270).
- A generic exception reports UnknowError and may then be followed by RetryCallback (lines 297-333).

## Left out

- DownloadQueue.cs, NetQueue.cs, AppProvider.cs and Test.cs are not part of this model: admission semaphores, threads, waits and process-wide defaults.
- The `lock (Passes)` in `RemoveFromPasses` and its race with `RunOnField` are left out, because they concern concurrency.
- HttpWebRequest, HttpWebResponse, streams, cookies, proxies and timeouts are library calls. Each send is one abstract outcome. Each read returns the next chunk of that outcome. The host of a URL and `Encoding.GetString` are parameters.
- NetField.DownloadLoop: a read returns the whole next chunk, whatever `buffer.Length` is. Only an empty buffer (a read of 0 bytes) and a negative size (an exception) are modelled.
- Exceptions are modelled only where the outcome or the task causes them:
  - a malformed URI, a WebException or another exception from the send;
  - File.OpenWrite with no filename;
  - a negative buffer size;
  - the null stream of the DriveCache branch.

  An exception from GetRequestStream, from a restricted header, or in the middle of reading a body is not modelled. Nor is an exception from `WebRequest.Create` at line 49 other than UriFormatException, such as NotSupportedException for an unregistered scheme or InvalidCastException for an `ftp://` or `file://` URL from a Location header or FailUrls. The source then stores no request and visits no body checkpoint before UnknowError and the retry section; in the model such a send is an `Other` outcome, which records the request and, for a Query or RequestBody task, visits the checkpoint at line 90 or 102.
- A missing `Location` header (null) is not modelled; the Location is always a string.
- Three other values cannot be represented: a pass that throws (NetTaskPass.cs:17, called at NetField.cs:31 outside the `try`, so the exception leaves `Do` with no callback), since passes are total functions on tasks; a null entry of `FailUrls`; and a null `Query` value, which line 86 would write as `k=`.
- Callbacks are assumed registered and to return normally. CancleCallback, CompleteCallbackString and CompleteCallbackBytes are invoked without `?.` (lines 27, 37, 92, 104, 142, 176, 191, 200, 215, 217, 221). A missing one throws. A registered callback that throws inside the try body (lines 43-233) is caught at lines 297-300 as UnknowError, before the retry section, and so is a missing one there. One that throws at lines 27, 37 or 41, inside a catch block, or after the try leaves `Do`. The other callbacks use `?.` and a missing one is skipped.
- Only the bytes written to the current body's stream are recorded. File.OpenWrite's behaviour on an existing longer file is not modelled.
- The 32- and 64-bit widths of `retry_count`, `RetryCount`, `ContentLength` and `byte_read` are not modelled; integers are unbounded.
- NetField.Do: when the transport has no outcome left for a send, the run ends right after StartCallback, flagged `truncated`. This only bounds the input; the source would simply go on sending.
- What the HTTP client does with a request it refuses, such as a GET carrying a body, is left to the outcome chosen for that send.
- NetTask.cs is transcribed as a record. `SaveFile` and the other fields `Do` does not read are carried but unused. NetTask has no priority field, so the comparator is modelled on its own.
- No priority-ordered scheduler exists in the code; only the comparator is modelled.
