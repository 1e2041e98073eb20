/**
 * The publish/subscribe hub: normalising a driver's position update, the
 * last-write-wins bus store, the fan-out of every stored record to its route
 * room and to every connection, route subscriptions, and the two entry paths
 * (the `driver:location` socket event and `POST /api/driver/update`) that share
 * one authorise-store-broadcast pipeline.
 */
module Hub {
  import opened Wrappers
  import opened Registry

  /** A socket.io connection id. */
  type ConnId = string

  /** The value of JavaScript's `Number(x)`; coercion itself is not modelled. */
  datatype Numeric = NaN | Num(value: real)

  /** A driver's update `{ id, busNumber, lat, lng, speed, routeId, token }`. */
  datatype Payload = Payload(id: string, busNumber: string, lat: Numeric, lng: Numeric,
                             speed: Numeric, routeId: string, token: string)

  /** A stored and broadcast bus state `{ id, busNumber, lat, lng, speed, routeId, ts }`. */
  datatype BusRecord = BusRecord(id: string, busNumber: string, lat: Numeric, lng: Numeric,
                                 speed: real, routeId: string, ts: int)

  /** Who an emit is addressed to: a room, every connection (`io.emit`), or one socket. */
  datatype Target = Room(name: string) | Everyone | Socket(conn: ConnId)

  datatype Event = BusUpdate(record: BusRecord) | DriverError(error: string)

  /** One intended delivery, in the order the server issues them. */
  datatype Emit = Emit(target: Target, event: Event)

  type Rooms = map<string, set<ConnId>>

  /** The hub's state as the ingestion pipeline sees it. */
  datatype World = World(tokens: TokenMap, buses: map<string, BusRecord>, outbox: seq<Emit>)

  datatype Outcome = Stored(record: BusRecord) | MissingId | Unauthorized

  datatype Ingested = Ingested(world: World, outcome: Outcome)

  datatype Reply = OkReply | ErrorReply(error: string)

  datatype Response = Response(status: int, reply: Reply)

  datatype RestResult = RestResult(world: World, response: Response)

  const RoomPrefix: string := "route:"
  const InvalidToken: string := "invalid token"
  const MissingPayloadId: string := "missing payload.id"

  /** The socket.io room of a route: `route:${routeId}`. */
  function RoomOf(routeId: string): (name: string)
    ensures |name| == |RoomPrefix| + |routeId|
    ensures name[..|RoomPrefix|] == RoomPrefix && name[|RoomPrefix|..] == routeId
  {
    RoomPrefix + routeId
  }

  /** Distinct routes have distinct rooms, so a route room never carries another route's updates. */
  lemma RoomOfInjective(a: string, b: string)
    ensures RoomOf(a) == RoomOf(b) ==> a == b
  {
    if RoomOf(a) == RoomOf(b) {
      assert a == RoomOf(a)[|RoomPrefix|..];
    }
  }

  /** `Number(payload.speed) || 0`: NaN and zero both become 0. */
  function SpeedOf(n: Numeric): (s: real)
    ensures n.NaN? ==> s == 0.0
    ensures n.Num? ==> s == n.value
  {
    match n
    case NaN => 0.0
    case Num(v) => v
  }

  /** The record the handlers build from an accepted payload at time `now`. */
  function Normalize(p: Payload, now: int): (r: BusRecord)
    ensures r.id == p.id && r.lat == p.lat && r.lng == p.lng && r.ts == now
    ensures r.busNumber == if p.busNumber != "" then p.busNumber else p.id
    ensures r.routeId == if p.routeId != "" then p.routeId else DefaultRoute
    ensures r.speed == SpeedOf(p.speed)
  {
    BusRecord(p.id,
              if p.busNumber != "" then p.busNumber else p.id,
              p.lat, p.lng, SpeedOf(p.speed),
              if p.routeId != "" then p.routeId else DefaultRoute,
              now)
  }

  /** A record a driver could send back: its own fields plus a token. */
  function Resubmission(r: BusRecord, tk: string): Payload {
    Payload(r.id, r.busNumber, r.lat, r.lng, Num(r.speed), r.routeId, tk)
  }

  /**
   * For a payload with an id, normalisation leaves no label or route empty, and
   * it is a fixpoint: resubmitting a stored record at its own timestamp yields
   * the same record.
   */
  lemma NormalizeDefaultsAndFixpoint(p: Payload, now: int, tk: string)
    requires p.id != ""
    ensures Normalize(p, now).busNumber != "" && Normalize(p, now).routeId != ""
    ensures Normalize(Resubmission(Normalize(p, now), tk), now) == Normalize(p, now)
  {
  }

  /** The two broadcasts of a stored record: its route room first, then every connection. */
  function Fanout(r: BusRecord): (out: seq<Emit>)
    ensures |out| == 2
    ensures forall e :: e in out ==> e.event == BusUpdate(r)
    ensures out[0].target == Room(RoomOf(r.routeId)) && out[1].target == Everyone
  {
    [Emit(Room(RoomOf(r.routeId)), BusUpdate(r)), Emit(Everyone, BusUpdate(r))]
  }

  /**
   * The pipeline both entry paths run: reject a missing id before looking at the
   * token, then verify the token, then overwrite the bus and broadcast it.
   */
  function Pipeline(w: World, p: Payload, tk: string, now: int): (res: Ingested)
    ensures p.id == "" ==> res == Ingested(w, MissingId)
    ensures res.outcome.MissingId? <==> p.id == ""
    ensures res.outcome.Unauthorized? <==> p.id != "" && Decide(w.tokens, tk, p.id, now) != Accepted
    ensures res.outcome.Stored? <==> p.id != "" && Decide(w.tokens, tk, p.id, now) == Accepted
    ensures !res.outcome.Stored? ==> res.world.buses == w.buses && res.world.outbox == w.outbox
    ensures res.outcome.Unauthorized? ==>
              res.world.tokens == Retained(w.tokens, tk, Decide(w.tokens, tk, p.id, now))
    ensures res.outcome.Stored? ==>
              && res.outcome.record == Normalize(p, now)
              && res.world.tokens == w.tokens
              && res.world.buses == w.buses[p.id := res.outcome.record]
              && res.world.outbox == w.outbox + Fanout(res.outcome.record)
  {
    if p.id == "" then Ingested(w, MissingId)
    else
      var v := Decide(w.tokens, tk, p.id, now);
      var tokens := Retained(w.tokens, tk, v);
      if v != Accepted then Ingested(w.(tokens := tokens), Unauthorized)
      else
        var r := Normalize(p, now);
        Ingested(World(tokens, w.buses[p.id := r], w.outbox + Fanout(r)), Stored(r))
  }

  /** The `driver:location` handler: a missing payload or id is dropped silently. */
  function SocketLocation(w: World, sender: ConnId, payload: Option<Payload>, now: int): (w': World)
    ensures payload.None? || payload.value.id == "" ==> w' == w
    ensures payload.Some? && payload.value.id != "" &&
            Decide(w.tokens, payload.value.token, payload.value.id, now) != Accepted ==>
              && w'.tokens == Retained(w.tokens, payload.value.token,
                                       Decide(w.tokens, payload.value.token, payload.value.id, now))
              && w'.buses == w.buses
              && w'.outbox == w.outbox + [Emit(Socket(sender), DriverError(InvalidToken))]
    ensures payload.Some? && payload.value.id != "" &&
            Decide(w.tokens, payload.value.token, payload.value.id, now) == Accepted ==>
              && w'.tokens == w.tokens
              && w'.buses == w.buses[payload.value.id := Normalize(payload.value, now)]
              && w'.outbox == w.outbox + Fanout(Normalize(payload.value, now))
  {
    match payload
    case None => w
    case Some(p) =>
      var res := Pipeline(w, p, p.token, now);
      if res.outcome.Unauthorized? then
        res.world.(outbox := res.world.outbox + [Emit(Socket(sender), DriverError(InvalidToken))])
      else res.world
  }

  /** The token the REST path checks: the `x-driver-token` header wins over `body.token`. */
  function RestToken(headerToken: string, body: Payload): (tk: string)
    ensures headerToken != "" ==> tk == headerToken
    ensures headerToken == "" ==> tk == body.token
  {
    if headerToken != "" then headerToken else body.token
  }

  /** `POST /api/driver/update`: 400 for a missing id, 401 for a bad token, else `{ ok: true }`. */
  function RestUpdate(w: World, headerToken: string, body: Payload, now: int): (res: RestResult)
    ensures body.id == "" ==> res == RestResult(w, Response(400, ErrorReply(MissingPayloadId)))
    ensures res.response.status == 401 <==>
              body.id != "" && Decide(w.tokens, RestToken(headerToken, body), body.id, now) != Accepted
    ensures res.response.status == 401 ==>
              && res.response.reply == ErrorReply(InvalidToken)
              && res.world.tokens == Retained(w.tokens, RestToken(headerToken, body),
                                              Decide(w.tokens, RestToken(headerToken, body), body.id, now))
    ensures res.response.status == 200 <==>
              body.id != "" && Decide(w.tokens, RestToken(headerToken, body), body.id, now) == Accepted
    ensures res.response.status != 200 ==> res.world.buses == w.buses && res.world.outbox == w.outbox
    ensures res.response.status == 200 ==>
              && res.response.reply == OkReply
              && res.world.tokens == w.tokens
              && res.world.buses == w.buses[body.id := Normalize(body, now)]
              && res.world.outbox == w.outbox + Fanout(Normalize(body, now))
  {
    var res := Pipeline(w, body, RestToken(headerToken, body), now);
    RestResult(res.world,
               match res.outcome
               case MissingId => Response(400, ErrorReply(MissingPayloadId))
               case Unauthorized => Response(401, ErrorReply(InvalidToken))
               case Stored(_) => Response(200, OkReply))
  }

  /** The members of a room (none when the room does not exist). */
  function Members(rooms: Rooms, name: string): set<ConnId> {
    if name in rooms then rooms[name] else {}
  }

  /** `socket.join(name)`: add the connection to the room. */
  function Join(rooms: Rooms, name: string, c: ConnId): (r: Rooms)
    ensures forall n, d :: d in Members(r, n) <==> d in Members(rooms, n) || (n == name && d == c)
  {
    rooms[name := Members(rooms, name) + {c}]
  }

  /** The `subscribe:route` handler: join `route:<routeId>` only when the route id is truthy. */
  function Subscribe(rooms: Rooms, c: ConnId, routeId: string): (r: Rooms)
    ensures forall n, d :: d in Members(r, n) <==>
              d in Members(rooms, n) || (routeId != "" && n == RoomOf(routeId) && d == c)
  {
    if routeId != "" then Join(rooms, RoomOf(routeId), c) else rooms
  }

  /** Subscribing is idempotent, and a falsy route id changes nothing. */
  lemma SubscribeIdempotent(rooms: Rooms, c: ConnId, routeId: string)
    ensures Subscribe(Subscribe(rooms, c, routeId), c, routeId) == Subscribe(rooms, c, routeId)
    ensures routeId == "" ==> Subscribe(rooms, c, routeId) == rooms
  {
    if routeId != "" {
      var once := Join(rooms, RoomOf(routeId), c);
      assert Members(once, RoomOf(routeId)) + {c} == Members(once, RoomOf(routeId));
    }
  }

  /** The connections an emit reaches, given the rooms and the live connections. */
  function Recipients(t: Target, rooms: Rooms, connected: set<ConnId>): set<ConnId> {
    match t
    case Room(n) => Members(rooms, n) * connected
    case Everyone => connected
    case Socket(c) => {c} * connected
  }

  /**
   * Every live connection receives every stored record through `io.emit`, joined
   * to a route or not; the route-room copy reaches exactly the members of that
   * route's room, so a subscriber of the record's route receives it twice.
   */
  lemma FanoutReach(r: BusRecord, rooms: Rooms, connected: set<ConnId>, c: ConnId)
    requires c in connected
    ensures c in Recipients(Fanout(r)[1].target, rooms, connected)
    ensures c in Recipients(Fanout(r)[0].target, rooms, connected) <==> c in Members(rooms, RoomOf(r.routeId))
  {
  }

  /**
   * A connection that subscribed only to `routeId` gets the room copy of a record
   * exactly when the record is on that route.
   */
  lemma RouteRoomFilters(c: ConnId, routeId: string, r: BusRecord, connected: set<ConnId>)
    requires routeId != "" && c in connected
    ensures c in Recipients(Fanout(r)[0].target, Subscribe(map[], c, routeId), connected) <==> r.routeId == routeId
  {
    RoomOfInjective(routeId, r.routeId);
  }

  /** A socket error reaches the sender and nobody else. */
  lemma ErrorReachesOnlySender(w: World, sender: ConnId, p: Payload, now: int, rooms: Rooms, connected: set<ConnId>)
    requires Pipeline(w, p, p.token, now).outcome.Unauthorized?
    ensures forall e :: e in SocketLocation(w, sender, Some(p), now).outbox[|w.outbox|..] ==>
              e.event.DriverError? && Recipients(e.target, rooms, connected) <= {sender}
  {
    var w' := SocketLocation(w, sender, Some(p), now);
    assert w'.outbox[|w.outbox|..] == [Emit(Socket(sender), DriverError(InvalidToken))];
  }

  /** The number a string of decimal digits denotes, most significant digit first. */
  function DigitsValue(s: string): int {
    if s == [] then 0
    else DigitsValue(s[..|s| - 1]) * 10 + (s[|s| - 1] as int - '0' as int)
  }

  /**
   * `buses` is a plain object. Assigning `buses["__proto__"]` goes through the
   * inherited `__proto__` setter: it replaces the prototype and creates no own
   * property. Reads of `buses["__proto__"]` still find the record, but
   * serialisation lists own properties only.
   */
  const ProtoKey: string := "__proto__"

  function OwnProperties(buses: map<string, BusRecord>): (own: map<string, BusRecord>)
    ensures own.Keys == buses.Keys - {ProtoKey}
    ensures forall id :: id in own ==> own[id] == buses[id]
  {
    buses - {ProtoKey}
  }

  /** A bus whose id is `__proto__` is stored and broadcast, yet missing from the snapshot. */
  lemma ProtoBusHiddenFromSnapshot(w: World, p: Payload, tk: string, now: int)
    requires p.id == ProtoKey && Decide(w.tokens, tk, p.id, now) == Accepted
    ensures Pipeline(w, p, tk, now).outcome.Stored?
    ensures ProtoKey in Pipeline(w, p, tk, now).world.buses
    ensures ProtoKey !in OwnProperties(Pipeline(w, p, tk, now).world.buses)
  {
  }

  /** The decimal digits JavaScript prints for a non-negative integer. */
  function DecimalString(n: nat): (s: string)
    ensures |s| >= 1 && forall i :: 0 <= i < |s| ==> '0' <= s[i] <= '9'
    ensures |s| > 1 ==> s[0] != '0'
    ensures DigitsValue(s) == n
  {
    if n < 10 then ["0123456789"[n]]
    else
      var prefix := DecimalString(n / 10);
      var s := prefix + ["0123456789"[n % 10]];
      assert s[..|s| - 1] == prefix;
      s
  }

  /**
   * The hub object: the bus store, the socket.io rooms, the ordered log of
   * emits, and the token registry it authorises against.
   */
  class Hub {
    const registry: TokenRegistry
    var buses: map<string, BusRecord>
    var rooms: Rooms
    var outbox: seq<Emit>

    ghost function State(): World
      reads this, registry
    {
      World(registry.tokens, buses, outbox)
    }

    constructor (registry: TokenRegistry)
      ensures this.registry == registry
      ensures buses == map[] && rooms == map[] && outbox == []
    {
      this.registry := registry;
      buses := map[];
      rooms := map[];
      outbox := [];
    }

    /** The shared pipeline of the two update handlers. */
    method Ingest(p: Payload, tk: string, now: int) returns (o: Outcome)
      modifies this, registry
      ensures Ingested(State(), o) == Pipeline(old(State()), p, tk, now)
      ensures rooms == old(rooms)
      ensures registry.persisted ==
                if registry.tokens == old(registry.tokens) then old(registry.persisted) else registry.tokens
    {
      if p.id == "" {
        return MissingId;
      }
      var ok := registry.VerifyToken(tk, p.id, now);
      if !ok {
        return Unauthorized;
      }
      var r := Normalize(p, now);
      buses := buses[p.id := r];
      outbox := outbox + [Emit(Room(RoomOf(r.routeId)), BusUpdate(r))];
      outbox := outbox + [Emit(Everyone, BusUpdate(r))];
      return Stored(r);
    }

    /** `socket.on('driver:location', …)` for the connection `sender`. */
    method OnDriverLocation(sender: ConnId, payload: Option<Payload>, now: int)
      modifies this, registry
      ensures State() == SocketLocation(old(State()), sender, payload, now)
      ensures rooms == old(rooms)
      ensures registry.persisted ==
                if registry.tokens == old(registry.tokens) then old(registry.persisted) else registry.tokens
    {
      if payload.None? {
        return;
      }
      var p := payload.value;
      var o := Ingest(p, p.token, now);
      if o.Unauthorized? {
        outbox := outbox + [Emit(Socket(sender), DriverError(InvalidToken))];
      }
    }

    /** `app.post('/api/driver/update', …)`. */
    method PostDriverUpdate(headerToken: string, body: Payload, now: int) returns (response: Response)
      modifies this, registry
      ensures RestResult(State(), response) == RestUpdate(old(State()), headerToken, body, now)
      ensures rooms == old(rooms)
      ensures registry.persisted ==
                if registry.tokens == old(registry.tokens) then old(registry.persisted) else registry.tokens
    {
      var token := if headerToken != "" then headerToken else body.token;
      if body.id == "" {
        return Response(400, ErrorReply(MissingPayloadId));
      }
      var o := Ingest(body, token, now);
      if o.Unauthorized? {
        return Response(401, ErrorReply(InvalidToken));
      }
      return Response(200, OkReply);
    }

    /** `socket.on('subscribe:route', …)` for the connection `c`. */
    method OnSubscribeRoute(c: ConnId, routeId: string)
      modifies this
      ensures rooms == Subscribe(old(rooms), c, routeId)
      ensures buses == old(buses) && outbox == old(outbox)
    {
      if routeId != "" {
        rooms := Join(rooms, RoomOf(routeId), c);
      }
    }

    /** `socket.on('disconnect', …)`: the handler does nothing. */
    method OnDisconnect(c: ConnId)
      ensures rooms == old(rooms) && buses == old(buses) && outbox == old(outbox)
    {
    }

    /**
     * `GET /gen-token`: a missing bus id becomes `bus-<n>` for a random `n` below
     * 9999, a missing route `route-1`; the token gets the default time to live.
     */
    method GenToken(queryBusId: string, queryRouteId: string, randomN: nat, suffix: string, now: int)
      returns (token: string, busId: string, routeId: string)
      requires randomN < 9999 && IsTokenSuffix(suffix)
      modifies registry
      ensures busId == if queryBusId != "" then queryBusId else "bus-" + DecimalString(randomN)
      ensures routeId == if queryRouteId != "" then queryRouteId else DefaultRoute
      ensures busId != "" && routeId != "" && token == TokenPrefix + suffix
      ensures registry.tokens == old(registry.tokens)[token := TokenEntry(busId, routeId, now + DefaultTtlMs)]
      ensures registry.persisted == registry.tokens
    {
      busId := if queryBusId != "" then queryBusId else "bus-" + DecimalString(randomN);
      routeId := if queryRouteId != "" then queryRouteId else DefaultRoute;
      token := registry.CreateToken(busId, Some(routeId), None, now, suffix);
    }

    /** `GET /api/buses`: the store as `JSON.stringify` writes it, i.e. its own properties. */
    method GetBuses() returns (snapshot: map<string, BusRecord>)
      ensures snapshot == OwnProperties(buses)
    {
      snapshot := buses - {ProtoKey};
    }
  }
}
