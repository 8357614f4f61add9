/**
 * The download task record (NetTask), the error kinds it reports and the
 * callbacks it receives, recorded as events in the order they are invoked.
 */
module NetTasks {
  import opened Wrappers
  import opened Transport

  /** NetTask.NetError, in declaration order (Unhandled = 0). */
  datatype NetError =
    | Unhandled
    | CannotContinueByCriticalError
    | UnknowError
    | UriFormatError
    | Aborted
    | ManyRetry

  /** A text encoding, known only by name; decoding is a parameter of the state machine. */
  datatype Encoding = Encoding(name: string)

  const UTF8 := Encoding("utf-8")

  /** Why an exception other than a WebException or UriFormatException was thrown. */
  datatype Cause =
    | TransportFault      // thrown by the transport (an `Other` outcome)
    | NullStream          // the DriveCache branch leaves the output stream null
    | MissingFilename     // File.OpenWrite(null)
    | NegativeBufferSize  // new byte[n] with n < 0

  /** The `object` passed to ErrorCallback beside the error kind. */
  datatype Detail =
    | NoDetail
    | StatusCode(code: int)
    | WebFailure(status: WebStatus, response: Option<ErrorResponse>)
    | UriFailure
    | Thrown(cause: Cause)

  /** One callback invocation. */
  datatype Event =
    | Start                                   // StartCallback
    | Cancel                                  // CancleCallback
    | Error(kind: NetError, detail: Detail)   // ErrorCallback
    | Retry(attempt: int)                     // RetryCallback
    | Size(length: int)                       // SizeCallback
    | Chunk(length: int)                      // DownloadCallback
    | Headers(text: string)                   // HeaderReceive
    | Cookies(cookies: Option<seq<Cookie>>)   // CookieReceive
    | CompleteString(text: string)            // CompleteCallbackString
    | CompleteBytes(bytes: seq<byte>)         // CompleteCallbackBytes
    | Complete                                // CompleteCallback

  /**
   * The data fields of NetTask. A Dictionary is the sequence of its entries
   * in enumeration order; a proxy is known by name.
   */
  datatype NetTask = NetTask(
    index: int,
    url: string,
    failUrls: Option<seq<string>>,
    accept: Option<string>,
    referer: Option<string>,
    userAgent: Option<string>,
    cookie: Option<string>,
    headers: Option<seq<(string, string)>>,
    query: Option<seq<(string, string)>>,
    requestBody: Option<string>,
    proxy: Option<string>,
    encoding: Option<Encoding>,
    saveFile: bool,
    filename: Option<string>,
    downloadString: bool,
    driveCache: bool,
    memoryCache: bool,
    retryWhenFail: bool,
    retryCount: int,
    timeoutInfinite: bool,
    timeoutMillisecond: int,
    downloadBufferSize: int,
    autoRedirection: bool,
    notifyOnlySize: bool,
    aborted: bool,
    request: Option<HttpRequest>)

  /** The fail-over list, with `null` read as empty. */
  function FailUrls(t: NetTask): seq<string> {
    if t.failUrls.Some? then t.failUrls.value else []
  }
}
