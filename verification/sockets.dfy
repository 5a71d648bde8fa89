/**
 * The real-time channel: an upgrade request (compare section 4.2.1 of
 * RFC 6455) carrying a valid access token registers a client; events are
 * broadcast to every registered client, and clients send commands that
 * are answered with a success flag.
 */
module Sockets {
  import opened Optional
  import opened Text
  import opened Http
  import opened Tokens
  import Router

  // ---------------------------------------------------------------------------
  // Upgrade and admission
  // ---------------------------------------------------------------------------

  /** The `upgrade` header is present and equals "websocket" ignoring case. */
  predicate IsUpgrade(req: Request) {
    var h := Header(req, "upgrade");
    h.Some? && EqualsIgnoreCase(h.value, "websocket")
  }

  /** `extractToken`: the `token` query parameter as sent, else a trimmed Bearer credential. */
  function ExtractToken(req: Request): Option<string> {
    if "token" in req.query then Some(req.query["token"])
    else Router.BearerToken(Header(req, "authorization"))
  }

  /** The query parameter wins over the header, and is not trimmed. */
  lemma QueryTokenFirst(req: Request)
    ensures "token" in req.query ==> ExtractToken(req) == Some(req.query["token"])
    ensures "token" !in req.query ==>
      (ExtractToken(req).Some? <==>
        Header(req, "authorization").Some? && StartsWith(Header(req, "authorization").value, "Bearer "))
  {
    if "token" !in req.query {
      Router.BearerTokenForm(Header(req, "authorization"));
    }
  }

  datatype Admission = NotUpgrade | Rejected | Accepted(token: string)

  /** What `handleWebSocket` decides, given the access tokens the store accepts. */
  function Admit(req: Request, accessTokens: set<string>): Admission {
    if !IsUpgrade(req) then NotUpgrade
    else
      var token := ExtractToken(req);
      if token.None? || token.value !in accessTokens then Rejected
      else Accepted(token.value)
  }

  /** A connection is admitted exactly for an upgrade request whose token the store holds. */
  lemma AdmittedIffValidToken(req: Request, accessTokens: set<string>)
    ensures Admit(req, accessTokens).Accepted? <==>
      IsUpgrade(req) && ExtractToken(req).Some? && ExtractToken(req).value in accessTokens
    ensures Admit(req, accessTokens).Accepted? ==> Admit(req, accessTokens).token in accessTokens
  {
  }

  const UnauthorizedResponse: Response := Response(401, MimePlaintext, Text("Unauthorized"))
  const HandshakeResponse: Response := Response(200, MimeJson, Text(""))

  /** An event as broadcast: its name, its data and the sending time. */
  datatype Envelope = Envelope(event: string, data: seq<(string, JsonValue)>, timestamp: int)

  // ---------------------------------------------------------------------------
  // Commands
  // ---------------------------------------------------------------------------

  /** The command parameters the handler reads; absent ones are `None`. */
  datatype Params = Params(trackId: Option<string>, position: Option<int>, volume: Option<real>)

  datatype ErrorText = Message(text: string) | MissingParam(name: string)

  datatype Extra = NoExtra | VolumeEcho(volume: real) | StatusSnapshot | QueueSnapshot

  datatype CommandReply = CommandReply(success: bool, command: string, error: Option<ErrorText>, extra: Extra)

  /**
   * `handleCommand`'s reply, given what the audio engine call returns
   * (`engineOk`). The reply starts as a failure; a missing required
   * parameter is reported by name.
   */
  function HandleCommand(command: string, params: Params, engineOk: bool): (r: CommandReply)
    ensures r.command == command
  {
    var failed := CommandReply(false, command, None, NoExtra);
    if command == "play" || command == "pause" || command == "resume" || command == "stop" then
      failed.(success := engineOk)
    else if command == "seek" then
      if params.position.None? then failed.(error := Some(MissingParam("position")))
      else failed.(success := engineOk)
    else if command == "next" || command == "previous" then
      failed.(error := Some(Message("Not yet implemented")))
    else if command == "setVolume" then
      if params.volume.None? then failed.(error := Some(MissingParam("volume")))
      else if engineOk then failed.(success := true, extra := VolumeEcho(params.volume.value))
      else failed
    else if command == "getStatus" then failed.(success := true, extra := StatusSnapshot)
    else if command == "getQueue" then failed.(success := true, extra := QueueSnapshot)
    else failed.(error := Some(Message("Unknown command: " + command)))
  }

  /** The commands the handler knows. */
  const KnownCommands: set<string> :=
    {"play", "pause", "resume", "stop", "seek", "next", "previous", "setVolume", "getStatus", "getQueue"}

  /** When a command reports success: an independent statement of the dispatch. */
  predicate Succeeds(command: string, params: Params, engineOk: bool) {
    command in {"getStatus", "getQueue"} ||
    (command in {"play", "pause", "resume", "stop"} && engineOk) ||
    (command == "seek" && params.position.Some? && engineOk) ||
    (command == "setVolume" && params.volume.Some? && engineOk)
  }

  lemma SuccessExactly(command: string, params: Params, engineOk: bool)
    ensures HandleCommand(command, params, engineOk).success <==> Succeeds(command, params, engineOk)
  {
  }

  /** A command outside the known set fails and says so. */
  lemma UnknownCommandFails(command: string, params: Params, engineOk: bool)
    requires command !in KnownCommands
    ensures HandleCommand(command, params, engineOk) ==
      CommandReply(false, command, Some(Message("Unknown command: " + command)), NoExtra)
  {
  }

  /** "next" and "previous" fail whatever the parameters and the engine. */
  lemma SkipCommandsUnimplemented(command: string, params: Params, engineOk: bool)
    requires command == "next" || command == "previous"
    ensures !HandleCommand(command, params, engineOk).success
    ensures HandleCommand(command, params, engineOk).error == Some(Message("Not yet implemented"))
  {
  }

  /** A successful reply never carries an error, and a volume is echoed only on success. */
  lemma SuccessCarriesNoError(command: string, params: Params, engineOk: bool)
    ensures HandleCommand(command, params, engineOk).success ==> HandleCommand(command, params, engineOk).error == None
    ensures HandleCommand(command, params, engineOk).extra.VolumeEcho? ==>
      HandleCommand(command, params, engineOk).success &&
      params.volume == Some(HandleCommand(command, params, engineOk).extra.volume)
  {
  }

  // ---------------------------------------------------------------------------
  // The client registry
  // ---------------------------------------------------------------------------

  /** A registered connection: its id and the token it authenticated with. */
  datatype Client = Client(id: string, token: string)

  /** Every client is filed under its own id. */
  predicate KeyedById(clients: map<string, Client>) {
    forall id :: id in clients ==> clients[id].id == id
  }

  /** The registry without the given ids. */
  function Without(clients: map<string, Client>, gone: set<string>): (r: map<string, Client>)
    ensures r.Keys == clients.Keys - gone
    ensures forall id :: id in r ==> r[id] == clients[id]
  {
    map id | id in clients && id !in gone :: clients[id]
  }

  class WebSocketHandler {
    var clients: map<string, Client>

    ghost predicate Valid()
      reads this
    {
      KeyedById(clients)
    }

    constructor ()
      ensures Valid() && clients == map[]
    {
      clients := map[];
    }

    /**
     * `handleWebSocket`: `None` when the request is not an upgrade; 401 and
     * no registration for a missing or unknown token; otherwise exactly one
     * entry, keyed by the new connection's id, is added. The id comes from
     * the clock and the object hash and is a parameter here.
     */
    method HandleWebSocket(tokens: TokenManager, req: Request, clientId: string, ghost accessTokens: set<string>)
      returns (r: Option<Response>)
      requires Valid() && tokens.Valid() && accessTokens == AccessTokens(tokens.prefs)
      modifies this
      ensures Valid()
      ensures Admit(req, accessTokens) == NotUpgrade ==> r == None && clients == old(clients)
      ensures Admit(req, accessTokens) == Rejected ==> r == Some(UnauthorizedResponse) && clients == old(clients)
      ensures Admit(req, accessTokens).Accepted? ==>
        r == Some(HandshakeResponse) &&
        clients == old(clients)[clientId := Client(clientId, Admit(req, accessTokens).token)]
    {
      var upgradeHeader := Header(req, "upgrade");
      if upgradeHeader.None? || !EqualsIgnoreCase(upgradeHeader.value, "websocket") {
        assert Admit(req, accessTokens) == NotUpgrade;
        return None;
      }
      var token := ExtractToken(req);
      if token.None? {
        assert Admit(req, accessTokens) == Rejected;
        return Some(UnauthorizedResponse);
      }
      var valid := tokens.ValidateAccessToken(token.value);
      if !valid {
        assert Admit(req, accessTokens) == Rejected;
        return Some(UnauthorizedResponse);
      }
      assert Admit(req, accessTokens) == Accepted(token.value);
      Register(clientId, token.value);
      r := Some(HandshakeResponse);
    }

    /** Files a new connection under its id. */
    method Register(clientId: string, token: string)
      requires Valid()
      modifies this
      ensures Valid() && clients == old(clients)[clientId := Client(clientId, token)]
    {
      clients := clients[clientId := Client(clientId, token)];
    }

    /** `removeClient`: only the given id leaves the registry. */
    method RemoveClient(clientId: string)
      requires Valid()
      modifies this
      ensures Valid() && clients == old(clients) - {clientId}
    {
      clients := clients - {clientId};
    }

    /**
     * `broadcast`: nothing happens without clients. Otherwise the envelope
     * is sent to every client, the ids whose send fails (`failing`, the
     * transport's verdict) are collected, and then exactly those are removed.
     */
    method Broadcast(event: string, data: seq<(string, JsonValue)>, now: int, failing: set<string>)
      returns (sent: Option<Envelope>, attempted: set<string>)
      requires Valid()
      modifies this
      ensures Valid()
      ensures old(clients) == map[] ==> sent == None && attempted == {} && clients == old(clients)
      ensures old(clients) != map[] ==>
        sent == Some(Envelope(event, data, now)) && attempted == old(clients).Keys &&
        clients == Without(old(clients), failing)
    {
      if clients == map[] {
        return None, {};
      }
      sent := Some(Envelope(event, data, now));
      var clientsToRemove;
      clientsToRemove, attempted := SendToAll(failing);
      RemoveEach(clientsToRemove);
    }

    /** The send loop: every client is tried once; the ids whose send fails are listed. */
    method SendToAll(failing: set<string>) returns (clientsToRemove: seq<string>, attempted: set<string>)
      requires Valid()
      ensures attempted == clients.Keys
      ensures forall id :: id in clientsToRemove <==> id in clients && id in failing
    {
      clientsToRemove := [];
      var pending := clients.Keys;
      attempted := {};
      while pending != {}
        invariant pending + attempted == clients.Keys && pending !! attempted
        invariant forall id :: id in clientsToRemove <==> id in attempted && id in failing
        decreases |pending|
      {
        var id :| id in pending;
        var client := clients[id];
        if client.id in failing {
          clientsToRemove := clientsToRemove + [client.id];
        }
        pending := pending - {id};
        attempted := attempted + {id};
      }
    }

    /** The removal loop: `removeClient` for each listed id. */
    method RemoveEach(ids: seq<string>)
      requires Valid()
      modifies this
      ensures Valid()
      ensures clients.Keys == old(clients).Keys - (set id | id in ids)
      ensures forall id :: id in clients ==> clients[id] == old(clients)[id]
    {
      ghost var gone: set<string> := {};
      var i := 0;
      while i < |ids|
        invariant 0 <= i <= |ids| && Valid()
        invariant gone == set id | id in ids[..i]
        invariant clients.Keys == old(clients).Keys - gone
        invariant forall id :: id in clients ==> clients[id] == old(clients)[id]
      {
        RemoveClient(ids[i]);
        gone := gone + {ids[i]};
        assert ids[..i + 1] == ids[..i] + [ids[i]];
        i := i + 1;
      }
      assert ids[..i] == ids;
    }

    /** `getClientCount`. */
    method ClientCount() returns (n: nat)
      ensures n == |clients|
    {
      n := |clients|;
    }

    /**
     * `closeAll`: every client is closed (its close callback removes it),
     * then the registry is cleared.
     */
    method CloseAll() returns (closed: set<string>)
      requires Valid()
      modifies this
      ensures Valid() && clients == map[]
      ensures closed == old(clients).Keys
    {
      closed := {};
      var pending := clients.Keys;
      while pending != {}
        invariant pending <= old(clients).Keys && closed == old(clients).Keys - pending
        invariant clients.Keys == pending && Valid()
        decreases |pending|
      {
        var id :| id in pending;
        RemoveClient(id);
        pending := pending - {id};
        closed := closed + {id};
      }
      clients := map[];
    }
  }
}
