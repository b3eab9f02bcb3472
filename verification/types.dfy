/** Values shared by every part of the interception-and-caching engine. */
module Types {

  datatype Option<+T> = None | Some(value: T)

  datatype Result<+T, +E> = Ok(value: T) | Err(error: E)

  /** One `{name, value}` entry of a protocol header list. */
  datatype Header = Header(name: string, value: string)

  /** The request descriptor carried by a paused exchange. */
  datatype Request = Request(
    httpMethod: string,
    url: string,
    urlFragment: Option<string>,
    headers: seq<Header>,
    postData: Option<string>,
    hasPostData: bool)

  /**
   * One `Fetch.requestPaused` event. `responseStatusCode` and
   * `responseHeaders` are only filled in at the response stage (save mode);
   * an absent status code is `None`.
   */
  datatype Paused = Paused(
    requestId: string,
    request: Request,
    responseStatusCode: Option<int>,
    responseHeaders: seq<Header>)

  /** A successful `Fetch.getResponseBody` result. */
  datatype ResponseBody = ResponseBody(body: string, base64Encoded: bool)

  /** The JSON object written to `<hash>.json`; a missing `responseCode` is `None`. */
  datatype ResponseRecord = ResponseRecord(
    key: string,
    responseCode: Option<int>,
    responseHeaders: seq<Header>,
    body: string)

  /**
   * The foreign primitives the engine calls: the hex SHA-1 digest (`hasha`),
   * base64 encoding (`Buffer`/`btoa`) and `new URL(u).origin`, which is
   * `None` where the URL constructor throws.
   */
  datatype Primitives = Primitives(
    sha1Hex: string -> string,
    base64: string -> string,
    origin: string -> Option<string>)

  /** Command-line configuration: library root, the two ports, and the primitives. */
  datatype Config = Config(
    libraryPath: string,
    serverPort: string,
    chromePort: string,
    prims: Primitives)

  /** Why an exchange is left paused: the handler threw or matched no mode. */
  datatype Cause =
    | InvalidUrl        // `new URL(request.url)` throws
    | UnknownMode       // `Mode` is neither 'save' nor 'serve'
    | OriginDirFailed   // `mkdir` failed; its catch block throws (see README)
    | WriteFailed       // `writeFile` of the response record failed

  /** The command the handler sends for a paused exchange. */
  datatype Action =
    | Continue(requestId: string)
    | Fulfill(requestId: string, responseCode: int, responseHeaders: seq<Header>, body: string)
    | Unanswered(cause: Cause)

  /** Outcomes of the two fallible file-system calls of a capture. */
  datatype Io = Io(mkdirOk: bool, writeOk: bool)

  const SAVE := "save"
  const SERVE := "serve"
}
