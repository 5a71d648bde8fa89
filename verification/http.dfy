/**
 * The HTTP vocabulary the embedded server works in: request methods, a
 * request as the server sees it (header names already lower-cased), and
 * fixed-length responses.
 */
module Http {
  import opened Optional

  datatype Method = GET | PUT | POST | DELETE | HEAD | OPTIONS | TRACE | CONNECT | PATCH

  /**
   * A request body as read and parsed: either reading the stream failed,
   * or it held a JSON object whose string fields are listed.
   */
  datatype Body = ReadFailed | Fields(fields: map<string, string>)

  datatype Request = Request(
    uri: string,
    verb: Method,
    headers: map<string, string>,
    query: map<string, string>,
    body: Body)

  /** A header value, absent when the request did not send it. */
  function Header(req: Request, name: string): Option<string> {
    if name in req.headers then Some(req.headers[name]) else None
  }

  datatype JsonValue = JStr(s: string) | JInt(i: int) | JBool(b: bool)

  /** What a response carries; handler output from the audio engine is named, not spelled out. */
  datatype Content =
    | Text(text: string)
    | Json(fields: seq<(string, JsonValue)>)
    | Asset(path: string)
    | EngineReply(handler: string)

  datatype Response = Response(status: int, mimeType: string, content: Content)

  const MimePlaintext: string := "text/plain"
  const MimeJson: string := "application/json"
}
