/**
 * The browser remote: the player state it mirrors from socket events, the
 * reconnect back-off, the time and progress read-outs, and how it turns a
 * user command into a socket frame or a REST call.
 *
 * Event payloads are JSON, read with JavaScript's rules: reading a
 * property of `null` or `undefined` throws, a missing property reads as
 * `undefined`, and `a || b` keeps `a` only when it is truthy.
 */
module RemoteUi {
  import opened Optional
  import opened Text
  import opened Http
  import Router
  import Sockets

  // ---------------------------------------------------------------------------
  // JavaScript values
  // ---------------------------------------------------------------------------

  /** A parsed JSON value, plus the `undefined` a missing property reads as. */
  datatype JsValue =
    | Undefined
    | Null
    | Bool(b: bool)
    | Num(x: real)
    | Str(s: string)
    | Obj(fields: map<string, JsValue>)
    | Arr(items: seq<JsValue>)

  /** JavaScript truthiness: false, 0, "", null and undefined are falsy. */
  predicate Truthy(v: JsValue) {
    match v
    case Undefined => false
    case Null => false
    case Bool(b) => b
    case Num(x) => x != 0.0
    case Str(s) => s != ""
    case Obj(_) => true
    case Arr(_) => true
  }

  /** A property read does not throw. */
  predicate Readable(v: JsValue) {
    !v.Undefined? && !v.Null?
  }

  /** `v[key]`: an own field, the `length` of a string or array, otherwise `undefined`. */
  function Get(v: JsValue, key: string): (r: JsValue)
    requires Readable(v)
    ensures v.Obj? && key !in v.fields ==> r == Undefined
    ensures v.Obj? && key in v.fields ==> r == v.fields[key]
  {
    match v
    case Obj(m) => if key in m then m[key] else Undefined
    case Arr(items) => if key == "length" then Num(|items| as real) else Undefined
    case Str(s) => if key == "length" then Num(|s| as real) else Undefined
    case _ => Undefined
  }

  /** `a || b`. */
  function Or(a: JsValue, b: JsValue): (r: JsValue)
    ensures Truthy(b) ==> Truthy(r)
    ensures r == a || r == b
  {
    if Truthy(a) then a else b
  }

  // ---------------------------------------------------------------------------
  // The mirrored player state and its reducer
  // ---------------------------------------------------------------------------

  /** `currentState`: every field holds whatever the last event put there. */
  datatype PlayerState = PlayerState(
    state: JsValue,
    currentTrack: JsValue,
    position: JsValue,
    duration: JsValue,
    volume: JsValue,
    queue: JsValue,
    currentIndex: JsValue)

  const InitialState: PlayerState :=
    PlayerState(Str("stopped"), Null, Num(0.0), Num(0.0), Num(1.0), Arr([]), Num(-1.0))

  datatype Field = StateField | TrackField | PositionField | DurationField | VolumeField | QueueField | IndexField

  function FieldOf(s: PlayerState, f: Field): JsValue {
    match f
    case StateField => s.state
    case TrackField => s.currentTrack
    case PositionField => s.position
    case DurationField => s.duration
    case VolumeField => s.volume
    case QueueField => s.queue
    case IndexField => s.currentIndex
  }

  /** The fields each event writes, as the handler lists them; any other event writes none. */
  function Writes(event: JsValue): set<Field> {
    if event == Str("initial.state") then
      {StateField, TrackField, PositionField, DurationField, VolumeField, QueueField}
    else if event == Str("playback.state") then {StateField}
    else if event == Str("playback.position") then {PositionField, DurationField}
    else if event == Str("playback.track") then {TrackField, PositionField}
    else if event == Str("queue.updated") then {QueueField, IndexField}
    else if event == Str("volume.changed") then {VolumeField}
    else {}
  }

  const KnownEvents: set<JsValue> := {
    Str("initial.state"), Str("playback.state"), Str("playback.position"),
    Str("playback.track"), Str("queue.updated"), Str("volume.changed")}

  /** `updateState`: a falsy state, position, duration or volume falls back to its default. */
  function UpdateStateOf(s: PlayerState, status: JsValue): PlayerState
    requires Readable(status)
  {
    s.(state := Or(Get(status, "state"), Str("stopped")),
       currentTrack := Get(status, "currentTrack"),
       position := Or(Get(status, "position"), Num(0.0)),
       duration := Or(Get(status, "duration"), Num(0.0)),
       volume := Or(Get(status, "volume"), Num(1.0)))
  }

  /**
   * `updateQueue` returns normally when the queue's length is 0, or when it
   * is an array whose every entry can be read (`track.title`); otherwise
   * it throws after the queue has been stored.
   */
  predicate QueueCompletes(queue: JsValue)
    requires Readable(queue)
  {
    Get(queue, "length") == Num(0.0) ||
    (queue.Arr? && forall i :: 0 <= i < |queue.items| ==> Readable(queue.items[i]))
  }

  /** The state after a message, and whether the handler ran to its end rather than throwing. */
  datatype Outcome = Outcome(after: PlayerState, completed: bool)

  /** `handleWebSocketMessage` as a function of the state and the parsed message. */
  function Apply(s: PlayerState, message: JsValue): Outcome {
    if !Readable(message) then Outcome(s, false)
    else
      var event := Get(message, "event");
      var data := Get(message, "data");
      if event !in KnownEvents then Outcome(s, true)
      else if !Readable(data) then Outcome(s, false)
      else if event == Str("initial.state") then
        var status := Get(data, "status");
        if !Readable(status) then Outcome(s, false)
        else
          var queue := Or(Get(data, "queue"), Arr([]));
          Outcome(UpdateStateOf(s, status).(queue := queue), QueueCompletes(queue))
      else if event == Str("playback.state") then
        Outcome(s.(state := Get(data, "state")), true)
      else if event == Str("playback.position") then
        Outcome(s.(position := Get(data, "position"), duration := Get(data, "duration")), true)
      else if event == Str("playback.track") then
        Outcome(s.(currentTrack := Get(data, "track"), position := Get(data, "position")), true)
      else if event == Str("queue.updated") then
        var queue := Or(Get(data, "tracks"), Arr([]));
        if QueueCompletes(queue) then Outcome(s.(queue := queue, currentIndex := Get(data, "currentIndex")), true)
        else Outcome(s.(queue := queue), false)
      else
        Outcome(s.(volume := Get(data, "volume")), true)
  }

  /** An event the handler does not list leaves the state as it was. */
  lemma UnknownEventIgnored(s: PlayerState, message: JsValue)
    requires Readable(message) && Get(message, "event") !in KnownEvents
    ensures Apply(s, message) == Outcome(s, true)
  {
  }

  /** A message that is `null` (or a known event without `data`) changes nothing and throws. */
  lemma UnreadableMessageIgnored(s: PlayerState, message: JsValue)
    requires !Readable(message) ||
      (Get(message, "event") in KnownEvents && !Readable(Get(message, "data")))
    ensures Apply(s, message) == Outcome(s, false)
  {
  }

  /** Every event writes only the fields listed for it, thrown or not. */
  lemma WritesOnlyListedFields(s: PlayerState, message: JsValue, f: Field)
    requires Readable(message) && f !in Writes(Get(message, "event"))
    ensures FieldOf(Apply(s, message).after, f) == FieldOf(s, f)
  {
  }

  /**
   * The initial snapshot's falsy fields fall back to the defaults: a
   * volume of 0 is shown as 1.0, while a truthy value is kept as sent.
   */
  lemma InitialStateDefaults(s: PlayerState, message: JsValue)
    requires Readable(message) && Get(message, "event") == Str("initial.state")
    requires Readable(Get(message, "data")) && Readable(Get(Get(message, "data"), "status"))
    ensures var status := Get(Get(message, "data"), "status");
      var t := Apply(s, message).after;
      (Truthy(Get(status, "volume")) ==> t.volume == Get(status, "volume")) &&
      (!Truthy(Get(status, "volume")) ==> t.volume == Num(1.0)) &&
      (!Truthy(Get(status, "state")) ==> t.state == Str("stopped")) &&
      (!Truthy(Get(status, "position")) ==> t.position == Num(0.0)) &&
      (!Truthy(Get(status, "duration")) ==> t.duration == Num(0.0)) &&
      Truthy(t.state) && Truthy(t.volume)
  {
  }

  /** A muted player's snapshot is mirrored as full volume. */
  lemma MutedVolumeShownAsFull(s: PlayerState, status: map<string, JsValue>)
    requires "volume" in status && status["volume"] == Num(0.0)
    ensures var message := Obj(map["event" := Str("initial.state"), "data" := Obj(map["status" := Obj(status)])]);
      Apply(s, message).after.volume == Num(1.0)
  {
    var message := Obj(map["event" := Str("initial.state"), "data" := Obj(map["status" := Obj(status)])]);
    assert Get(message, "event") == Str("initial.state");
    assert Get(Get(message, "data"), "status") == Obj(status);
  }

  /**
   * A queue update stores the queue first; when listing it throws, the
   * current index is not updated.
   */
  lemma QueueUpdateOrder(s: PlayerState, message: JsValue)
    requires Readable(message) && Get(message, "event") == Str("queue.updated")
    requires Readable(Get(message, "data"))
    ensures var data := Get(message, "data");
      var queue := Or(Get(data, "tracks"), Arr([]));
      Apply(s, message).after.queue == queue &&
      (Apply(s, message).completed <==> QueueCompletes(queue)) &&
      Apply(s, message).after.currentIndex ==
        (if QueueCompletes(queue) then Get(data, "currentIndex") else s.currentIndex)
  {
  }

  /** A queue holding a `null` entry makes the listing throw. */
  lemma NullTrackAbortsQueue(tracks: seq<JsValue>, i: nat)
    requires i < |tracks| && tracks[i] == Null
    ensures !QueueCompletes(Arr(tracks))
  {
    assert Get(Arr(tracks), "length") == Num(|tracks| as real);
  }

  // ---------------------------------------------------------------------------
  // Reconnect back-off
  // ---------------------------------------------------------------------------

  const MaxReconnectAttempts: int := 5

  /** `attemptReconnect`: the new counter and the delay of the scheduled retry, if any. */
  function ReconnectStep(attempts: int): (int, Option<int>) {
    if attempts < MaxReconnectAttempts then (attempts + 1, Some(2000 * (attempts + 1)))
    else (attempts, None)
  }

  /** The delays scheduled by `closes` closes in a row, starting from a counter value. */
  function Delays(attempts: int, closes: nat): seq<int>
    decreases closes
  {
    if closes == 0 then []
    else
      var (next, delay) := ReconnectStep(attempts);
      (if delay.Some? then [delay.value] else []) + Delays(next, closes - 1)
  }

  function Min(a: int, b: int): int {
    if a <= b then a else b
  }

  /** From counter k, the retries wait 2000·(k+1), 2000·(k+2), … up to the fifth attempt. */
  lemma {:induction false} DelaysFrom(k: int, closes: nat)
    requires 0 <= k <= MaxReconnectAttempts
    ensures |Delays(k, closes)| == Min(closes, MaxReconnectAttempts - k)
    ensures forall i :: 0 <= i < |Delays(k, closes)| ==> Delays(k, closes)[i] == 2000 * (k + i + 1)
    decreases closes
  {
    if closes > 0 {
      DelaysFrom(ReconnectStep(k).0, closes - 1);
    }
  }

  /**
   * After a successful open, however many closes follow, at most five
   * retries are scheduled and attempt n waits 2000·n ms.
   */
  lemma RetriesAfterOpen(closes: nat)
    ensures |Delays(0, closes)| <= MaxReconnectAttempts
    ensures forall i :: 0 <= i < |Delays(0, closes)| ==> Delays(0, closes)[i] == 2000 * (i + 1)
  {
    DelaysFrom(0, closes);
  }

  // ---------------------------------------------------------------------------
  // Read-outs
  // ---------------------------------------------------------------------------

  /** JavaScript's `%`: the remainder takes the sign of the dividend. */
  function JsRem(a: int, b: int): (r: int)
    requires b > 0
    ensures a >= 0 ==> 0 <= r < b && r == a % b
    ensures a < 0 ==> -b < r <= 0 && -r == (-a) % b
  {
    if a >= 0 then a % b else -((-a) % b)
  }

  /** `Number.prototype.toString()` for an integer. */
  function NumberText(n: int): string {
    if n < 0 then "-" + Decimal(-n) else Decimal(n)
  }

  /** `padStart(width, c)`: `c` repeated in front up to the width. */
  function PadStart(s: string, width: nat, c: char): (r: string)
    ensures |s| >= width ==> r == s
    ensures |s| < width ==>
      |r| == width && r[width - |s|..] == s && forall i :: 0 <= i < width - |s| ==> r[i] == c
    decreases width - |s|
  {
    if |s| >= width then s else PadStart([c] + s, width, c)
  }

  /** `formatTime`: whole minutes, a colon, and the seconds padded to two places. */
  function FormatTime(ms: real): string {
    var seconds := (ms / 1000.0).Floor;
    var minutes := seconds / 60;
    var secs := JsRem(seconds, 60);
    NumberText(minutes) + ":" + PadStart(NumberText(secs), 2, '0')
  }

  /**
   * For a non-negative time the text is a decimal without leading zeros, a
   * colon and two digits below 60, and reading it back as minutes·60 +
   * seconds gives the whole seconds elapsed.
   */
  lemma FormatTimeReadsBack(ms: real)
    requires ms >= 0.0
    ensures var t := FormatTime(ms); var k := |t| - 3;
      |t| >= 4 && t[k] == ':' && AllDigits(t[..k]) && AllDigits(t[k + 1..]) &&
      (k > 1 ==> t[0] != '0') &&
      DigitsValue(t[k + 1..]) < 60 &&
      DigitsValue(t[..k]) * 60 + DigitsValue(t[k + 1..]) == (ms / 1000.0).Floor
  {
    var seconds := (ms / 1000.0).Floor;
    assert seconds >= 0;
    var minutes, secs := seconds / 60, seconds % 60;
    var m, p := Decimal(minutes), PadStart(Decimal(secs), 2, '0');
    DecimalRoundTrip(minutes);
    DecimalRoundTrip(secs);
    SecondsPadded(secs);
    var t := FormatTime(ms);
    assert t == m + ":" + p;
    var k := |t| - 3;
    assert t[..k] == m;
    assert t[k + 1..] == p;
  }

  /** Seconds below 60 pad to exactly two digits with the same value. */
  lemma SecondsPadded(secs: nat)
    requires secs < 60
    ensures var p := PadStart(Decimal(secs), 2, '0');
      |p| == 2 && AllDigits(p) && DigitsValue(p) == DigitsValue(Decimal(secs))
  {
    var d := Decimal(secs);
    if secs < 10 {
      assert |d| == 1;
      var p := PadStart(d, 2, '0');
      assert p == "0" + d;
      LeadingZeroIgnored(d);
    } else {
      assert |d| == 2 by {
        assert d == Decimal(secs / 10) + [DigitChar(secs % 10)];
      }
    }
  }

  /** `updateProgress`'s percentage, for numeric position and duration. */
  function ProgressPercent(position: real, duration: real): (percent: real)
    ensures duration > 0.0 ==> percent * duration == position * 100.0
    ensures duration > 0.0 && 0.0 <= position <= duration ==> 0.0 <= percent <= 100.0
    ensures duration <= 0.0 ==> percent == 0.0
  {
    if duration > 0.0 then (position / duration) * 100.0 else 0.0
  }

  // ---------------------------------------------------------------------------
  // Commands and REST calls
  // ---------------------------------------------------------------------------

  /** A token as a template literal spells it: a missing one reads "null". */
  function Spelled(token: Option<string>): string {
    if token.Some? then token.value else "null"
  }

  /** A REST call as `sendApiRequest` issues it; a falsy body is not sent. */
  datatype ApiCall = ApiCall(verb: Method, endpoint: string, authorization: string, body: Option<JsValue>)

  function ApiRequest(verb: Method, endpoint: string, body: JsValue, token: Option<string>): (call: ApiCall)
    ensures call.body.Some? <==> Truthy(body)
    ensures StartsWith(call.authorization, "Bearer ")
  {
    ApiCall(verb, endpoint, "Bearer " + Spelled(token), if Truthy(body) then Some(body) else None)
  }

  datatype Outgoing = SocketFrame(command: string, params: JsValue) | RestCall(call: ApiCall)

  /** `togglePlayback`: pause while playing, resume otherwise. */
  function ToggleEndpoint(state: JsValue): string {
    if state == Str("playing") then "/api/pause" else "/api/resume"
  }

  /** The request the server sees for a REST call, given the body it parses. */
  function ServerSees(call: ApiCall, body: Body): Request {
    Request(call.endpoint, call.verb,
      map["authorization" := call.authorization, "content-type" := "application/json"], map[], body)
  }

  /** The socket handshake: the token travels in the query, as spelled. */
  function Handshake(token: Option<string>, headers: map<string, string>, body: Body): Request {
    Request("/ws", GET, headers, map["token" := Spelled(token)], body)
  }

  /** An upgrading handshake is admitted exactly when the spelled token is an access token. */
  lemma HandshakeAdmitted(token: Option<string>, headers: map<string, string>, body: Body, accessTokens: set<string>)
    requires Sockets.IsUpgrade(Handshake(token, headers, body))
    ensures Sockets.Admit(Handshake(token, headers, body), accessTokens).Accepted? <==> Spelled(token) in accessTokens
    ensures token.None? && "null" !in accessTokens ==>
      Sockets.Admit(Handshake(token, headers, body), accessTokens) == Sockets.Rejected
  {
    Sockets.QueryTokenFirst(Handshake(token, headers, body));
  }

  /** The toggle reaches the server's pause or resume handler once the credential is accepted. */
  lemma ToggleReachesHandler(state: JsValue, token: Option<string>, body: Body, accessTokens: set<string>)
    ensures var req := ServerSees(ApiRequest(POST, ToggleEndpoint(state), Null, token), body);
      Router.Authenticated(req, accessTokens) ==>
        Router.Gate(req, accessTokens) ==
          Router.Handle(if state == Str("playing") then Router.Pause else Router.Resume)
  {
    var req := ServerSees(ApiRequest(POST, ToggleEndpoint(state), Null, token), body);
    if state == Str("playing") {
      assert req.uri == "/api/pause";
      assert Router.Dispatch(req.uri, req.verb) == Some(Router.Pause);
    } else {
      assert req.uri == "/api/resume";
      assert Router.Dispatch(req.uri, req.verb) == Some(Router.Resume);
    }
  }

  /**
   * The REST fallback for "next" and "previous" is never handled: the
   * server answers 404 when it accepts the credential and 401 otherwise.
   */
  lemma SkipFallbackNotHandled(command: string, params: JsValue, token: Option<string>, body: Body, accessTokens: set<string>)
    requires command == "next" || command == "previous"
    ensures var req := ServerSees(ApiRequest(POST, "/api/" + command, params, token), body);
      (Router.Gate(req, accessTokens) == Router.NotFound <==> Router.Authenticated(req, accessTokens)) &&
      (Router.Gate(req, accessTokens).NotFound? || Router.Gate(req, accessTokens).Unauthorized?)
  {
    var req := ServerSees(ApiRequest(POST, "/api/" + command, params, token), body);
    if command == "next" {
      assert req.uri == "/api/next";
    } else {
      assert req.uri == "/api/previous";
    }
    assert req.uri != "/api/info" && !Router.IsPairing(req);
    assert Router.Dispatch(req.uri, req.verb) == None;
    UnroutedGate(req, accessTokens);
  }

  /** A request outside the route table and the open endpoints gets 404 or 401, by its credential. */
  lemma UnroutedGate(req: Request, accessTokens: set<string>)
    requires req.uri != "/api/info" && !Router.IsPairing(req) && Router.Dispatch(req.uri, req.verb) == None
    ensures Router.Gate(req, accessTokens) == Router.NotFound <==> Router.Authenticated(req, accessTokens)
    ensures Router.Gate(req, accessTokens).NotFound? || Router.Gate(req, accessTokens).Unauthorized?
  {
  }

  /** What came back from `fetch`: no response at all, or a status and the parsed body (None when it is not JSON). */
  datatype Reply = NetworkError | Replied(status: int, json: Option<JsValue>)

  // ---------------------------------------------------------------------------
  // The remote
  // ---------------------------------------------------------------------------

  class Remote {
    var current: PlayerState
    var reconnectAttempts: int
    var accessToken: Option<string>
    var showingPairing: bool

    ghost predicate Valid()
      reads this
    {
      0 <= reconnectAttempts <= MaxReconnectAttempts
    }

    /**
     * The constructor with `init`'s screen choice: the stored token (read
     * from local storage) opens the main screen only when it is truthy.
     */
    constructor (stored: Option<string>)
      ensures Valid() && current == InitialState && reconnectAttempts == 0 && accessToken == stored
      ensures showingPairing <==> !(stored.Some? && stored.value != "")
    {
      current := InitialState;
      reconnectAttempts := 0;
      accessToken := stored;
      showingPairing := !(stored.Some? && stored.value != "");
    }

    /** `onopen`: the counter starts over. */
    method OnOpen()
      modifies this
      ensures Valid() && reconnectAttempts == 0
      ensures current == old(current) && accessToken == old(accessToken) && showingPairing == old(showingPairing)
    {
      reconnectAttempts := 0;
    }

    /** `attemptReconnect`, run from `onclose`: the delay of the scheduled retry, if any. */
    method AttemptReconnect() returns (delay: Option<int>)
      requires Valid()
      modifies this
      ensures Valid() && (reconnectAttempts, delay) == ReconnectStep(old(reconnectAttempts))
      ensures current == old(current) && accessToken == old(accessToken) && showingPairing == old(showingPairing)
    {
      delay := None;
      if reconnectAttempts < MaxReconnectAttempts {
        reconnectAttempts := reconnectAttempts + 1;
        delay := Some(2000 * reconnectAttempts);
      }
    }

    /**
     * `handleWebSocketMessage`: the fields are written one by one, and a
     * property read that throws leaves the writes made so far in place.
     */
    method HandleWebSocketMessage(message: JsValue) returns (completed: bool)
      modifies this
      ensures current == Apply(old(current), message).after && completed == Apply(old(current), message).completed
      ensures reconnectAttempts == old(reconnectAttempts) && accessToken == old(accessToken)
      ensures showingPairing == old(showingPairing)
    {
      if !Readable(message) {
        return false;
      }
      var event := Get(message, "event");
      if event !in KnownEvents {
        return true;
      }
      var data := Get(message, "data");
      if !Readable(data) {
        return false;
      }
      if event == Str("initial.state") {
        completed := UpdateState(Get(data, "status"));
        if completed {
          completed := UpdateQueue(Or(Get(data, "queue"), Arr([])));
        }
      } else if event == Str("playback.state") {
        current := current.(state := Get(data, "state"));
        completed := true;
      } else if event == Str("playback.position") {
        current := current.(position := Get(data, "position"));
        current := current.(duration := Get(data, "duration"));
        completed := true;
      } else if event == Str("playback.track") {
        current := current.(currentTrack := Get(data, "track"));
        current := current.(position := Get(data, "position"));
        completed := true;
      } else if event == Str("queue.updated") {
        completed := UpdateQueue(Or(Get(data, "tracks"), Arr([])));
        if completed {
          current := current.(currentIndex := Get(data, "currentIndex"));
        }
      } else {
        current := current.(volume := Get(data, "volume"));
        completed := true;
      }
    }

    /** `updateState`: throws on a `null` status before writing anything. */
    method UpdateState(status: JsValue) returns (completed: bool)
      modifies this
      ensures completed <==> Readable(status)
      ensures completed ==> current == UpdateStateOf(old(current), status)
      ensures !completed ==> current == old(current)
      ensures reconnectAttempts == old(reconnectAttempts) && accessToken == old(accessToken)
      ensures showingPairing == old(showingPairing)
    {
      if !Readable(status) {
        return false;
      }
      current := current.(state := Or(Get(status, "state"), Str("stopped")));
      current := current.(currentTrack := Get(status, "currentTrack"));
      current := current.(position := Or(Get(status, "position"), Num(0.0)));
      current := current.(duration := Or(Get(status, "duration"), Num(0.0)));
      current := current.(volume := Or(Get(status, "volume"), Num(1.0)));
      completed := true;
    }

    /** `updateQueue`: the queue is stored, then listed entry by entry. */
    method UpdateQueue(queue: JsValue) returns (completed: bool)
      requires Readable(queue)
      modifies this
      ensures current == old(current).(queue := queue)
      ensures completed == QueueCompletes(queue)
      ensures reconnectAttempts == old(reconnectAttempts) && accessToken == old(accessToken)
      ensures showingPairing == old(showingPairing)
    {
      current := current.(queue := queue);
      if Get(queue, "length") == Num(0.0) {
        return true;
      }
      if !queue.Arr? {
        return false;
      }
      var i := 0;
      while i < |queue.items|
        invariant 0 <= i <= |queue.items|
        invariant forall j :: 0 <= j < i ==> Readable(queue.items[j])
      {
        if !Readable(queue.items[i]) {
          return false;
        }
        i := i + 1;
      }
      completed := true;
    }

    /** `sendCommand`: a socket frame while the socket is open, else a POST to `/api/<command>`. */
    method SendCommand(command: string, params: JsValue, socketOpen: bool) returns (out: Outgoing)
      ensures out.SocketFrame? <==> socketOpen
      ensures socketOpen ==> out == SocketFrame(command, params)
      ensures !socketOpen ==> out.call == ApiRequest(POST, "/api/" + command, params, accessToken)
    {
      if socketOpen {
        return SocketFrame(command, params);
      }
      out := RestCall(ApiRequest(POST, "/api/" + command, params, accessToken));
    }

    /** `togglePlayback`'s request. */
    method TogglePlayback() returns (call: ApiCall)
      ensures call.verb == POST && call.body == None
      ensures call.endpoint == "/api/pause" <==> current.state == Str("playing")
      ensures call.endpoint == "/api/resume" <==> current.state != Str("playing")
      ensures call.authorization == "Bearer " + Spelled(accessToken)
    {
      call := ApiRequest(POST, ToggleEndpoint(current.state), Null, accessToken);
    }

    /**
     * `sendApiRequest`: the call it issues and what it returns. A 401 drops
     * the token and shows the pairing screen; a failed request or a body
     * that is not JSON gives `None`.
     */
    method SendApiRequest(verb: Method, endpoint: string, body: JsValue, reply: Reply)
      returns (call: ApiCall, result: Option<JsValue>)
      modifies this
      ensures call == ApiRequest(verb, endpoint, body, old(accessToken))
      ensures reply.Replied? && reply.status == 401 ==> result == None && accessToken == None && showingPairing
      ensures !(reply.Replied? && reply.status == 401) ==>
        result == (if reply.Replied? then reply.json else None) &&
        accessToken == old(accessToken) && showingPairing == old(showingPairing)
      ensures current == old(current) && reconnectAttempts == old(reconnectAttempts)
    {
      call := ApiRequest(verb, endpoint, body, accessToken);
      if reply.NetworkError? {
        return call, None;
      }
      if reply.status == 401 {
        accessToken := None;
        showingPairing := true;
        return call, None;
      }
      result := reply.json;
    }
  }
}
