/**
 * The HTTP transport as the download state machine sees it. The library
 * classes behind it (HttpWebRequest, HttpWebResponse, WebException,
 * CookieCollection) are not modelled; each attempt to send is answered by
 * one abstract `Outcome`, and every request the state machine builds is
 * recorded as an `HttpRequest` value.
 */
module Transport {
  import opened Wrappers

  type byte = x: int | 0 <= x < 256

  datatype Cookie = Cookie(name: string, value: string)

  /** The WebExceptionStatus values the state machine tells apart, plus a catch-all. */
  datatype WebStatus =
    | NameResolutionFailure
    | UnknownError
    | ProtocolError
    | ConnectFailure
    | Timeout
    | OtherStatus

  /** The response carried by a WebException (`e.Response`). */
  datatype ErrorResponse = ErrorResponse(status: int, location: string, cookies: Option<seq<Cookie>>)

  /**
   * What one send can end in:
   * - `Response`: GetResponse returned normally; `location` is the Location
   *   header, `chunks` are the successive results of reading the body stream
   *   (a read past the end of `chunks` returns zero bytes);
   * - `WebEx`: a WebException, with or without a response;
   * - `UriFormat`: WebRequest.Create rejected the URL;
   * - `Other`: any other exception.
   */
  datatype Outcome =
    | Response(status: int, location: string, headers: string, cookies: Option<seq<Cookie>>,
               contentLength: int, chunks: seq<seq<byte>>)
    | WebEx(webStatus: WebStatus, response: Option<ErrorResponse>)
    | UriFormat
    | Other

  /** The fields of the HttpWebRequest that the state machine sets. */
  datatype HttpRequest = HttpRequest(
    url: string,
    verb: string,
    contentType: Option<string>,
    accept: Option<string>,
    userAgent: Option<string>,
    referer: string,
    headers: seq<(string, string)>,
    proxy: Option<string>,
    timeout: int,
    allowAutoRedirect: bool,
    body: Option<string>)

  // HttpStatusCode values the state machine compares against.
  const OK := 200
  const Moved := 301
  const Redirect := 302
  const BadRequest := 400
  const Unauthorized := 401
  const Forbidden := 403
  const NotFound := 404
  const InternalServerError := 500

  /** Timeout.Infinite. */
  const InfiniteTimeout := -1

  /** The statuses after which the download cannot continue. */
  predicate IsCritical(status: int) {
    status == NotFound || status == Forbidden || status == Unauthorized
    || status == BadRequest || status == InternalServerError
  }
}
