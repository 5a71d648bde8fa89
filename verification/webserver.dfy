/**
 * The embedded HTTP server: routing by URI prefix to the static web UI,
 * the REST API or the socket handler; static file naming and content
 * types; and the running flag.
 */
module WebServer {
  import opened Optional
  import opened Text
  import opened Http
  import opened Tokens
  import Router
  import Sockets

  // ---------------------------------------------------------------------------
  // Routing
  // ---------------------------------------------------------------------------

  datatype Route = StaticFile | Api | Socket | DefaultPage

  /** `serve`'s prefix tests, in their order: the static test comes first. */
  function RouteOf(uri: string): Route {
    if StartsWith(uri, "/") && !StartsWith(uri, "/api/") && !StartsWith(uri, "/ws") then StaticFile
    else if StartsWith(uri, "/api/") then Api
    else if StartsWith(uri, "/ws") then Socket
    else DefaultPage
  }

  /** A prefix of a prefix is a prefix. */
  lemma PrefixOfPrefix(s: string, p: string, q: string)
    requires StartsWith(s, p) && StartsWith(p, q)
    ensures StartsWith(s, q)
  {
    assert s[..|q|] == s[..|p|][..|q|];
  }

  /**
   * Each URI takes exactly one route: "/api/…" the API, "/ws…" the socket
   * handler, any other absolute path a static file, and anything not
   * starting with "/" the default page.
   */
  lemma RoutesPartition(uri: string)
    ensures RouteOf(uri) == Api <==> StartsWith(uri, "/api/")
    ensures RouteOf(uri) == Socket <==> StartsWith(uri, "/ws")
    ensures RouteOf(uri) == StaticFile <==>
      StartsWith(uri, "/") && !StartsWith(uri, "/api/") && !StartsWith(uri, "/ws")
    ensures RouteOf(uri) == DefaultPage <==> !StartsWith(uri, "/")
  {
    if StartsWith(uri, "/api/") {
      PrefixOfPrefix(uri, "/api/", "/");
      assert !StartsWith(uri, "/ws") by {
        assert uri[1] == 'a';
      }
    } else if StartsWith(uri, "/ws") {
      PrefixOfPrefix(uri, "/ws", "/");
    }
  }

  // ---------------------------------------------------------------------------
  // Static files
  // ---------------------------------------------------------------------------

  /** `serveStaticFile`'s name: the index page for "/" or "", otherwise the URI without one leading "/". */
  function StaticFileName(uri: string): string {
    if uri == "/" || uri == "" then "index.html" else RemovePrefix(uri, "/")
  }

  lemma StaticFileNameMeaning(uri: string)
    ensures uri == "/" || uri == "" ==> StaticFileName(uri) == "index.html"
    ensures uri != "/" && uri != "" && StartsWith(uri, "/") ==> "/" + StaticFileName(uri) == uri
    ensures uri != "/" && uri != "" && !StartsWith(uri, "/") ==> StaticFileName(uri) == uri
    ensures StaticFileName("/index.html") == StaticFileName("/")
  {
    assert StartsWith("/index.html", "/");
    assert "/index.html"[1..] == "index.html";
  }

  function AssetPath(name: string): string {
    "web/" + name
  }

  /** The content-type table, tried first to last; `.jpg` and `.jpeg` share a type. */
  const MimeTable: seq<(string, string)> := [
    (".html", "text/html"),
    (".js", "application/javascript"),
    (".css", "text/css"),
    (".json", "application/json"),
    (".png", "image/png"),
    (".jpg", "image/jpeg"),
    (".jpeg", "image/jpeg"),
    (".svg", "image/svg+xml")]

  /** The type of the first row whose suffix the name ends with, else plain text. */
  function FirstMatch(table: seq<(string, string)>, name: string): string {
    if table == [] then MimePlaintext
    else if EndsWith(name, table[0].0) then table[0].1
    else FirstMatch(table[1..], name)
  }

  /** `getMimeType`. */
  function MimeType(name: string): string {
    if EndsWith(name, ".html") then "text/html"
    else if EndsWith(name, ".js") then "application/javascript"
    else if EndsWith(name, ".css") then "text/css"
    else if EndsWith(name, ".json") then "application/json"
    else if EndsWith(name, ".png") then "image/png"
    else if EndsWith(name, ".jpg") || EndsWith(name, ".jpeg") then "image/jpeg"
    else if EndsWith(name, ".svg") then "image/svg+xml"
    else MimePlaintext
  }

  /** The `when` chain is the first-match lookup in the table. */
  lemma MimeTypeIsFirstMatch(name: string)
    ensures MimeType(name) == FirstMatch(MimeTable, name)
  {
    var t := MimeTable;
    assert FirstMatch(t[8..], name) == MimePlaintext;
    FirstMatchStep(t, 7, name);
    FirstMatchStep(t, 6, name);
    FirstMatchStep(t, 5, name);
    FirstMatchStep(t, 4, name);
    FirstMatchStep(t, 3, name);
    FirstMatchStep(t, 2, name);
    FirstMatchStep(t, 1, name);
    FirstMatchStep(t, 0, name);
    assert t[0..] == t;
  }

  lemma FirstMatchStep(table: seq<(string, string)>, k: nat, name: string)
    requires k < |table|
    ensures FirstMatch(table[k..], name) ==
      if EndsWith(name, table[k].0) then table[k].1 else FirstMatch(table[k + 1..], name)
  {
    assert table[k..][1..] == table[k + 1..];
  }

  /** No suffix in the table matches: plain text. */
  lemma UnknownSuffixIsPlainText(name: string)
    requires forall i :: 0 <= i < |MimeTable| ==> !EndsWith(name, MimeTable[i].0)
    ensures MimeType(name) == MimePlaintext
  {
    assert !EndsWith(name, MimeTable[0].0);
    assert !EndsWith(name, MimeTable[1].0);
    assert !EndsWith(name, MimeTable[2].0);
    assert !EndsWith(name, MimeTable[3].0);
    assert !EndsWith(name, MimeTable[4].0);
    assert !EndsWith(name, MimeTable[5].0);
    assert !EndsWith(name, MimeTable[6].0);
    assert !EndsWith(name, MimeTable[7].0);
  }

  /** Adding a known extension to any base name gives that extension's type. */
  lemma ExtensionDecides(base: string)
    ensures MimeType(base + ".html") == "text/html"
    ensures MimeType(base + ".jpg") == "image/jpeg" && MimeType(base + ".jpeg") == "image/jpeg"
    ensures MimeType(base + ".css") == "text/css"
  {
    var h, j, k, c := base + ".html", base + ".jpg", base + ".jpeg", base + ".css";
    assert h[|h| - 5..] == ".html";
    assert j[|j| - 4..] == ".jpg";
    assert k[|k| - 5..] == ".jpeg";
    assert c[|c| - 4..] == ".css";
    assert !EndsWith(j, ".html") by { assert j[|j| - 1] == 'g'; }
    assert !EndsWith(k, ".html") by { assert k[|k| - 1] == 'g'; }
    assert !EndsWith(c, ".html") by { assert c[|c| - 1] == 's'; }
    assert !EndsWith(j, ".js") && !EndsWith(j, ".css") && !EndsWith(j, ".json") && !EndsWith(j, ".png") by {
      assert j[|j| - 1] == 'g' && j[|j| - 2] == 'p';
    }
    assert !EndsWith(k, ".js") && !EndsWith(k, ".css") && !EndsWith(k, ".json") && !EndsWith(k, ".png") by {
      assert k[|k| - 1] == 'g' && k[|k| - 2] == 'e';
    }
    assert !EndsWith(k, ".jpg") by { assert k[|k| - 2] == 'e'; }
    assert !EndsWith(c, ".js") by { assert c[|c| - 1] == 's' && c[|c| - 2] == 's'; }
  }

  /** The static response: the asset with its content type, or 404 naming the file. */
  function StaticResponse(uri: string, assets: set<string>): Response {
    var name := StaticFileName(uri);
    if AssetPath(name) in assets then Response(200, MimeType(name), Asset(AssetPath(name)))
    else Response(404, MimePlaintext, Text("File not found: " + name))
  }

  const UpgradeFailed: Response := Response(400, MimePlaintext, Text("WebSocket upgrade failed"))

  // ---------------------------------------------------------------------------
  // The server
  // ---------------------------------------------------------------------------

  class MusicrrWebServer {
    const tokens: TokenManager
    const sockets: Sockets.WebSocketHandler
    var isRunning: bool

    ghost predicate Valid()
      reads this, tokens, sockets
    {
      tokens.Valid() && sockets.Valid()
    }

    constructor (tokens: TokenManager, sockets: Sockets.WebSocketHandler)
      requires tokens.Valid() && sockets.Valid()
      ensures Valid() && !isRunning && this.tokens == tokens && this.sockets == sockets
    {
      this.tokens := tokens;
      this.sockets := sockets;
      isRunning := false;
    }

    /**
     * `serve`. Static files and the default page change nothing; the API
     * answers as the router decides and leaves the socket clients alone,
     * pairing being the only request that changes the token store; the
     * socket handler answers as it decides, and a request to "/ws…" that
     * is not an upgrade gets 400. The asset store is the set of
     * existing paths; the new client's id is a parameter.
     */
    method Serve(req: Request, now: int, clientId: string, assets: set<string>, ghost accessTokens: set<string>)
      returns (resp: Response)
      requires Valid() && accessTokens == AccessTokens(tokens.prefs)
      modifies tokens, sockets
      ensures Valid()
      ensures RouteOf(req.uri) == StaticFile ==>
        resp == StaticResponse(req.uri, assets) && tokens.prefs == old(tokens.prefs) && sockets.clients == old(sockets.clients)
      ensures RouteOf(req.uri) == DefaultPage ==>
        resp == StaticResponse("/index.html", assets) && tokens.prefs == old(tokens.prefs) && sockets.clients == old(sockets.clients)
      ensures RouteOf(req.uri) == Api && !Router.Gate(req, accessTokens).ServePairing? ==>
        resp == Router.Respond(Router.Gate(req, accessTokens), req.uri) && tokens.prefs == old(tokens.prefs)
      ensures RouteOf(req.uri) == Api && Router.Gate(req, accessTokens).ServePairing? ==>
        (resp == Router.PairingRejected && AccessTokens(tokens.prefs) == accessTokens) ||
        (exists t :: resp == Router.PairedResponse(t) && |t| == AccessTokenLength && TokenText(t) &&
          AccessTokens(tokens.prefs) == accessTokens + {t} &&
          StoredPairingToken(tokens.prefs) == None)
      ensures RouteOf(req.uri) == Api && Router.Gate(req, accessTokens).ServePairing? && req.body.ReadFailed? ==>
        resp == Router.PairingRejected
      ensures RouteOf(req.uri) == Api ==> sockets.clients == old(sockets.clients)
      ensures RouteOf(req.uri) == Socket ==> tokens.prefs == old(tokens.prefs)
      ensures RouteOf(req.uri) == Socket && Sockets.Admit(req, accessTokens) == Sockets.NotUpgrade ==>
        resp == UpgradeFailed && sockets.clients == old(sockets.clients)
      ensures RouteOf(req.uri) == Socket && Sockets.Admit(req, accessTokens) == Sockets.Rejected ==>
        resp == Sockets.UnauthorizedResponse && sockets.clients == old(sockets.clients)
      ensures RouteOf(req.uri) == Socket && Sockets.Admit(req, accessTokens).Accepted? ==>
        resp == Sockets.HandshakeResponse &&
        sockets.clients == old(sockets.clients)[clientId := Sockets.Client(clientId, Sockets.Admit(req, accessTokens).token)]
    {
      var uri := req.uri;
      if StartsWith(uri, "/") && !StartsWith(uri, "/api/") && !StartsWith(uri, "/ws") {
        return StaticResponse(uri, assets);
      }
      if StartsWith(uri, "/api/") {
        resp := Router.HandleRequest(tokens, req, now, accessTokens);
        return;
      }
      if StartsWith(uri, "/ws") {
        var wsResponse := sockets.HandleWebSocket(tokens, req, clientId, accessTokens);
        if wsResponse.Some? {
          return wsResponse.value;
        }
        return UpgradeFailed;
      }
      resp := StaticResponse("/index.html", assets);
    }

    /** `startServer`: running exactly when binding the socket succeeded (`bindOk`). */
    method StartServer(bindOk: bool) returns (started: bool)
      modifies this
      ensures started == bindOk && isRunning == bindOk
    {
      if !bindOk {
        isRunning := false;
        return false;
      }
      isRunning := true;
      started := true;
    }

    /** `stopServer`: every socket client is closed first, then the server stops. */
    method StopServer()
      requires Valid()
      modifies this, sockets
      ensures Valid() && !isRunning && sockets.clients == map[]
    {
      var _ := sockets.CloseAll();
      isRunning := false;
    }

    method IsServerRunning() returns (running: bool)
      ensures running == isRunning
    {
      running := isRunning;
    }
  }
}
