/**
 * The REST API: `/api/info` and `POST /api/pair` are open, every other
 * request must carry a valid `Authorization: Bearer` token (section 2.1
 * of RFC 6750) and is then dispatched on its (uri, verb) pair.
 */
module Router {
  import opened Optional
  import opened Text
  import opened Http
  import opened Tokens

  datatype Endpoint = Status | Play | Pause | Resume | Stop | Seek | GetQueue | GetVolume | SetVolume

  /** The route table: where each authenticated endpoint lives. */
  function RouteOf(e: Endpoint): (string, Method) {
    match e
    case Status => ("/api/status", GET)
    case Play => ("/api/play", POST)
    case Pause => ("/api/pause", POST)
    case Resume => ("/api/resume", POST)
    case Stop => ("/api/stop", POST)
    case Seek => ("/api/seek", POST)
    case GetQueue => ("/api/queue", GET)
    case GetVolume => ("/api/volume", GET)
    case SetVolume => ("/api/volume", POST)
  }

  /** The `when` chain that picks a handler for an authenticated request. */
  function Dispatch(uri: string, verb: Method): Option<Endpoint> {
    if uri == "/api/status" && verb == GET then Some(Status)
    else if uri == "/api/play" && verb == POST then Some(Play)
    else if uri == "/api/pause" && verb == POST then Some(Pause)
    else if uri == "/api/resume" && verb == POST then Some(Resume)
    else if uri == "/api/stop" && verb == POST then Some(Stop)
    else if uri == "/api/seek" && verb == POST then Some(Seek)
    else if uri == "/api/queue" && verb == GET then Some(GetQueue)
    else if uri == "/api/volume" && verb == GET then Some(GetVolume)
    else if uri == "/api/volume" && verb == POST then Some(SetVolume)
    else None
  }

  /** The dispatch chain reaches exactly the endpoints of the route table, each from its own pair. */
  lemma DispatchFollowsTable(uri: string, verb: Method, e: Endpoint)
    ensures Dispatch(uri, verb) == Some(e) <==> RouteOf(e) == (uri, verb)
  {
    match e
    case Status =>
    case Play =>
    case Pause =>
    case Resume =>
    case Stop =>
    case Seek =>
    case GetQueue =>
    case GetVolume =>
    case SetVolume =>
  }

  /**
   * The credential of an `Authorization` header: present only in the
   * Bearer form, and then the rest of the header, trimmed.
   */
  function BearerToken(header: Option<string>): Option<string> {
    if header.Some? && StartsWith(header.value, "Bearer ") then
      Some(Trim(RemovePrefix(header.value, "Bearer ")))
    else None
  }

  /** The credential is present exactly for a Bearer header, and is its remainder trimmed. */
  lemma BearerTokenForm(header: Option<string>)
    ensures BearerToken(header).Some? <==> header.Some? && StartsWith(header.value, "Bearer ")
    ensures BearerToken(header).Some? ==>
      "Bearer " + header.value[7..] == header.value && BearerToken(header).value == Trim(header.value[7..])
  {
  }

  /** What `handleRequest` decides before any handler runs. */
  datatype Decision =
    | ServeInfo
    | ServePairing
    | Unauthorized(message: string)
    | Handle(endpoint: Endpoint)
    | NotFound

  predicate IsPairing(req: Request) {
    req.uri == "/api/pair" && req.verb == POST
  }

  /** The authentication gate, given the access tokens `validateAccessToken` accepts. */
  function Gate(req: Request, accessTokens: set<string>): Decision {
    if req.uri == "/api/info" then ServeInfo
    else if IsPairing(req) then ServePairing
    else
      var token := BearerToken(Header(req, "authorization"));
      if token.None? then Unauthorized("Authentication required")
      else if token.value !in accessTokens then Unauthorized("Invalid or expired token")
      else match Dispatch(req.uri, req.verb)
        case Some(e) => Handle(e)
        case None => NotFound
  }

  /** A request presents a credential that is among the access tokens. */
  predicate Authenticated(req: Request, accessTokens: set<string>) {
    var token := BearerToken(Header(req, "authorization"));
    token.Some? && token.value in accessTokens
  }

  /** `/api/info` is answered whatever the method and whatever the credentials. */
  lemma InfoIsOpen(req: Request, accessTokens: set<string>)
    requires req.uri == "/api/info"
    ensures Gate(req, accessTokens) == ServeInfo
  {
  }

  /**
   * A handler runs exactly when the request is authenticated and its
   * (uri, verb) pair is in the route table.
   */
  lemma HandlersNeedAuthentication(req: Request, accessTokens: set<string>, e: Endpoint)
    ensures Gate(req, accessTokens) == Handle(e) <==>
      Authenticated(req, accessTokens) && RouteOf(e) == (req.uri, req.verb)
  {
    DispatchFollowsTable(req.uri, req.verb, e);
    if req.uri == "/api/info" || IsPairing(req) {
      OpenEndpointsAreNotRoutes(e);
    } else if Authenticated(req, accessTokens) {
      assert Gate(req, accessTokens) == match Dispatch(req.uri, req.verb)
        case Some(e') => Handle(e')
        case None => NotFound;
    } else {
      assert Gate(req, accessTokens).Unauthorized?;
    }
  }

  /** Neither open endpoint is in the route table. */
  lemma OpenEndpointsAreNotRoutes(e: Endpoint)
    ensures RouteOf(e).0 != "/api/info" && RouteOf(e) != ("/api/pair", POST)
  {
  }

  /** Apart from the two open endpoints, a request without a valid credential is refused with 401. */
  lemma ClosedWithoutCredential(req: Request, accessTokens: set<string>)
    requires req.uri != "/api/info" && !IsPairing(req)
    requires !Authenticated(req, accessTokens)
    ensures Gate(req, accessTokens).Unauthorized?
    ensures BearerToken(Header(req, "authorization")).None? ==>
      Gate(req, accessTokens) == Unauthorized("Authentication required")
  {
  }

  /** An authenticated request for a pair outside the table gets 404. */
  lemma UnlistedIsNotFound(req: Request, accessTokens: set<string>)
    requires req.uri != "/api/info" && !IsPairing(req)
    requires Authenticated(req, accessTokens)
    requires forall e :: RouteOf(e) != (req.uri, req.verb)
    ensures Gate(req, accessTokens) == NotFound
  {
    if Dispatch(req.uri, req.verb).Some? {
      DispatchFollowsTable(req.uri, req.verb, Dispatch(req.uri, req.verb).value);
    }
  }

  // ---------------------------------------------------------------------------
  // Responses
  // ---------------------------------------------------------------------------

  /** `createErrorResponse`: the status, and a JSON object holding the message and the code. */
  function ErrorResponse(status: int, code: string, message: string): (r: Response)
    ensures r.status == status && r.mimeType == MimeJson
    ensures r.content == Json([("error", JStr(message)), ("code", JStr(code))])
  {
    Response(status, MimeJson, Json([("error", JStr(message)), ("code", JStr(code))]))
  }

  const InfoResponse: Response := Response(200, MimeJson, Json([
    ("name", JStr("Musicrr")),
    ("version", JStr("1.0.0")),
    ("serverId", JStr("musicrr-device-1")),
    ("requiresAuth", JBool(true)),
    ("pairingEnabled", JBool(true))]))

  /** One year, in seconds. */
  const AccessTokenLifetimeSeconds: int := 31536000

  function PairedResponse(accessToken: string): Response {
    Response(200, MimeJson, Json([
      ("success", JBool(true)),
      ("accessToken", JStr(accessToken)),
      ("expiresIn", JInt(AccessTokenLifetimeSeconds))]))
  }

  const PairingRejected: Response := ErrorResponse(401, "INVALID_TOKEN", "Invalid pairing token")

  function EndpointName(e: Endpoint): string {
    match e
    case Status => "status"
    case Play => "play"
    case Pause => "pause"
    case Resume => "resume"
    case Stop => "stop"
    case Seek => "seek"
    case GetQueue => "queue"
    case GetVolume => "getVolume"
    case SetVolume => "setVolume"
  }

  /** The response to every decision except pairing, which depends on the token store. */
  function Respond(d: Decision, uri: string): Response
    requires !d.ServePairing?
  {
    match d
    case ServeInfo => InfoResponse
    case Unauthorized(message) => ErrorResponse(401, "INVALID_TOKEN", message)
    case Handle(e) => Response(200, MimeJson, EngineReply(EndpointName(e)))
    case NotFound => ErrorResponse(404, "NOT_FOUND", "Endpoint not found: " + uri)
  }

  /** `readRequestBody`: a failed read is treated as the body "{}". */
  function ReadRequestBody(body: Body): (fields: map<string, string>)
    ensures body.ReadFailed? ==> fields == map[]
    ensures body.Fields? ==> fields == body.fields
  {
    match body
    case ReadFailed => map[]
    case Fields(f) => f
  }

  /** `optString("pairingToken", "")`. */
  function PairingTokenOf(fields: map<string, string>): string {
    if "pairingToken" in fields then fields["pairingToken"] else ""
  }

  /**
   * `handlePairing`: a rejected pairing token gives 401; otherwise the new
   * access token is returned with its one-year lifetime. A body that could
   * not be read carries no pairing token and is always rejected.
   */
  method HandlePairing(tokens: TokenManager, body: Body, now: int) returns (resp: Response)
    requires tokens.Valid()
    modifies tokens
    ensures tokens.Valid()
    ensures (resp == PairingRejected && AccessTokens(tokens.prefs) == old(AccessTokens(tokens.prefs))) ||
      (exists t :: resp == PairedResponse(t) && |t| == AccessTokenLength && TokenText(t) &&
        AccessTokens(tokens.prefs) == old(AccessTokens(tokens.prefs)) + {t} &&
        StoredPairingToken(tokens.prefs) == None)
    ensures body.ReadFailed? ==> resp == PairingRejected
  {
    ghost var before := AccessTokens(tokens.prefs);
    var fields := ReadRequestBody(body);
    var pairingToken := PairingTokenOf(fields);
    assert body.ReadFailed? ==> |pairingToken| == 0;
    var accessToken := tokens.ValidatePairingToken(pairingToken, now);
    if accessToken.None? {
      assert AccessTokens(tokens.prefs) == before;
      return PairingRejected;
    }
    var t := accessToken.value;
    resp := PairedResponse(t);
    assert resp == PairedResponse(t) && |t| == AccessTokenLength && TokenText(t) &&
      AccessTokens(tokens.prefs) == before + {t} && StoredPairingToken(tokens.prefs) == None;
  }

  /** The authenticated part of `handleRequest`: the credential check and the dispatch. */
  method HandleProtected(tokens: TokenManager, req: Request, ghost accessTokens: set<string>)
    returns (resp: Response)
    requires tokens.Valid() && accessTokens == AccessTokens(tokens.prefs)
    requires req.uri != "/api/info" && !IsPairing(req)
    ensures resp == Respond(Gate(req, accessTokens), req.uri)
  {
    var authHeader := Header(req, "authorization");
    if authHeader.None? || !StartsWith(authHeader.value, "Bearer ") {
      return ErrorResponse(401, "INVALID_TOKEN", "Authentication required");
    }
    var token := Trim(RemovePrefix(authHeader.value, "Bearer "));
    var valid := tokens.ValidateAccessToken(token);
    if !valid {
      return ErrorResponse(401, "INVALID_TOKEN", "Invalid or expired token");
    }
    match Dispatch(req.uri, req.verb)
    case Some(e) => resp := Response(200, MimeJson, EngineReply(EndpointName(e)));
    case None => resp := ErrorResponse(404, "NOT_FOUND", "Endpoint not found: " + req.uri);
  }

  /**
   * `handleRequest`, given the access tokens the store holds on entry.
   * Only pairing changes the store; every other request is answered from
   * the gate's decision.
   */
  method HandleRequest(tokens: TokenManager, req: Request, now: int, ghost accessTokens: set<string>)
    returns (resp: Response)
    requires tokens.Valid() && accessTokens == AccessTokens(tokens.prefs)
    modifies tokens
    ensures tokens.Valid()
    ensures !Gate(req, accessTokens).ServePairing? ==>
      resp == Respond(Gate(req, accessTokens), req.uri) && tokens.prefs == old(tokens.prefs)
    ensures Gate(req, accessTokens).ServePairing? ==>
      (resp == PairingRejected && AccessTokens(tokens.prefs) == accessTokens) ||
      (exists t :: resp == PairedResponse(t) && |t| == AccessTokenLength && TokenText(t) &&
        AccessTokens(tokens.prefs) == accessTokens + {t} &&
        StoredPairingToken(tokens.prefs) == None)
    ensures Gate(req, accessTokens).ServePairing? && req.body.ReadFailed? ==> resp == PairingRejected
  {
    if req.uri == "/api/info" {
      return InfoResponse;
    }
    if req.uri == "/api/pair" && req.verb == POST {
      resp := HandlePairing(tokens, req.body, now);
      return;
    }
    resp := HandleProtected(tokens, req, accessTokens);
  }
}
