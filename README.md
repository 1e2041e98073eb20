# bus-mvp hub, modelled in Dafny

This project models the server of a bus-tracking MVP (`index.js`). The server is a token-gated publish/subscribe hub. Drivers push bus positions over a socket (`driver:location`) or over HTTP (`POST /api/driver/update`). Each update is authorised against a token registry. The hub then stores it as the bus's latest state and broadcasts it to the route's room and to every connection. Commuters join route rooms with `subscribe:route`.

The model has four modules:

- `Wrappers` holds an `Option` type for arguments a caller may leave out.
- `Registry` holds the token map, the verification decision `Decide`, and what a verification leaves behind (`Retained`: an expired token is deleted lazily). The class `TokenRegistry` has `CreateToken` and `VerifyToken`, which mutate the map in place. A ghost field `persisted` stands for the token file, which is rewritten after every mutation.
- `Hub` holds record normalisation, the fan-out rule, and the shared ingestion pipeline (`Pipeline`) with its two entry paths (`SocketLocation`, `RestUpdate`). It also holds room membership (`Join`, `Subscribe`) and who an emit reaches (`Recipients`). The class `Hub` owns the bus store, the rooms and the ordered log of emits, and has one method per handler. Each method's contract equates the new state with the pure function above.
- `Replay` states properties over whole sequences of updates. The store keeps the last accepted record per bus. The emit log is the fan-out of the accepted records, in order. Ingestion never adds tokens. A token once found expired never authorises again.

Conventions:

- JavaScript strings are `string`. The empty string stands for every falsy value the source tests (`undefined`, `null`, `''`).
- The time (`Date.now()`) is a parameter `now`.
- The random parts are parameters too: the token suffix from `Math.random().toString(36).slice(2,10)`, and the number in a generated `bus-<n>` id.
- Deliveries are an append-only log of `(target, event)` pairs. The targets are a room, every connection, or one socket.

Points of the code's behaviour worth knowing:

- Expiry is strict (`expiresAt < now`, index.js:43 and 79). A token is still accepted at `now == expiresAt`.
- The two broadcasts have a fixed order: the route room first, then every connection (index.js:120-121).
- A socket update with no id is dropped silently (index.js:103). No error goes back to the sender.
- `buses` is a plain object (index.js:66). A bus whose id is `__proto__` is stored through the inherited setter, so `GET /api/buses` does not list it (`Hub.OwnProperties`).

The file defines the registry twice: a file-backed object (index.js:7-46) and an in-memory `Map` (index.js:67-82). The model has one registry. It uses the `Map` copy's lookup semantics and the file copy's write-after-every-mutation persistence. The inherited-name defect of the object copy is under Findings. As written, index.js also declares `path` twice (lines 4 and 51) and `TOKENS` twice (lines 7 and 67) in one module scope. JavaScript refuses such a file when it loads (not executed). The model describes the evident intent of the handlers.

## Model

| member | source | states |
|---|---|---|
| `Registry.IssuedEntry` | index.js:70-72 | the stored entry keeps the bus id; a given route is stored, an omitted one becomes `route-1`; `expiresAt` is `now` plus the given TTL, or plus 43200000 (12 h) when the TTL is omitted |
| `Registry.Decide` | index.js:75-81 | a token is accepted iff it is non-empty, stored, not past its `expiresAt`, and either id is empty or they match; it counts as expired iff it is stored and `expiresAt < now` |
| `Registry.Retained` | index.js:79 | after a verification, the map loses exactly the token when it was found expired and is otherwise unchanged; no entry is rewritten |
| `Registry.TokenRegistry.constructor` | index.js:9-21 | the registry starts as the loaded map, in agreement with the file |
| `Registry.TokenRegistry.CreateToken` | index.js:31-37 | the token is `tk_` + suffix and non-empty; the map gains or silently overwrites exactly that key; every other key is unchanged; the file snapshot equals the new map |
| `Registry.TokenRegistry.VerifyToken` | index.js:39-46 | returns true exactly when `Decide` accepts; the map loses the token only when it was found expired, and only then is the file rewritten |
| `Registry.AbsentTokenRejected` | index.js:75-78 | an empty or unknown token is refused and the map is unchanged |
| `Registry.ExpiryIsFinal` | index.js:79 | an expired token is refused and removed, and only that key is removed; any later verification of it, at any time and for any bus, fails as unknown |
| `Registry.ExpiryBoundaryAccepted` | index.js:79 | a token is still accepted at the millisecond its `expiresAt` is reached |
| `Registry.LiveTokenVerdict` | index.js:80-81 | for a live token, refusal happens iff both bus ids are non-empty and differ; otherwise it is accepted; the map is unchanged |
| `Registry.IssueThenVerify` | index.js:70-81 | a freshly issued token verifies for its bus until it expires; for another claimed id it is accepted iff either id is empty or they are equal |
| `Registry.RetainedIsSubmap` | index.js:75-81 | verification never adds or rewrites an entry |
| `Registry.ObjectGet` | index.js:41 | a plain-object lookup finds the stored entry `m[tk]` iff the key is stored; it misses only when the name is neither stored nor inherited |
| `Registry.VerifyObjectBacked` | index.js:39-45 | the object-backed verify accepts only non-empty names that are stored or inherited, and accepts every inherited name that is not stored |
| `Registry.ObjectBackedAgreesOnOwnKeys` | index.js:39-45 | the object-backed verify agrees with `Decide` on every token that is stored or not an inherited name |
| `Registry.ObjectBackedAcceptsInheritedName` | index.js:39-45 | the object-backed copy accepts the token `constructor` for any bus on an empty registry, where `Decide` refuses it as unknown |
| `Registry.UnknownTokenRejected` | index.js:75-78 | the corrected lookup refuses every name never issued, inherited names included |
| `Hub.RoomOf` | index.js:98 | the room name is `route:` followed by exactly the route id |
| `Hub.RoomOfInjective` | index.js:98 | distinct route ids have distinct `route:<id>` rooms |
| `Hub.SpeedOf` | index.js:115 | NaN speed becomes 0; any number is kept (0 stays 0) |
| `Hub.Normalize` | index.js:110-118 | the record keeps the id and coordinates; a given `busNumber` and `routeId` are kept, otherwise they default to the id and `route-1`; the speed is `SpeedOf` of the payload's; `ts = now` |
| `Hub.NormalizeDefaultsAndFixpoint` | index.js:110-118 | for a payload with an id, neither label nor route is empty, and resubmitting a stored record yields it again |
| `Hub.Fanout` | index.js:120-121 | exactly two emits of the record: first to `route:<routeId>`, then to every connection |
| `Hub.Pipeline` | index.js:103-121 | the outcome is missing-id iff the id is empty (nothing changes, the token is not looked at), unauthorised iff the id is present and `Decide` refuses, stored iff the id is present and `Decide` accepts; a refusal leaves store and log unchanged and tokens as the verification left them; a stored update keeps the tokens, overwrites the bus with the normalised record and appends its fan-out |
| `Hub.SocketLocation` | index.js:101-122 | a missing payload or id changes nothing; a refused token leaves tokens as the verification left them, keeps the store, and adds only a `driver:error` to the sender; an accepted one keeps the tokens, overwrites the bus and appends the fan-out |
| `Hub.RestToken` | index.js:132 | the `x-driver-token` header, when present, wins over `body.token` |
| `Hub.RestUpdate` | index.js:130-148 | missing id: 400 `missing payload.id` with nothing changed; 401 `invalid token` iff the token is refused, tokens as the verification left them; 200 `{ ok: true }` iff the id is present and the token accepted, with tokens kept, the bus overwritten and the fan-out appended; on any error the store and log are unchanged |
| `Hub.Join` | index.js:98 | after a join, a room's members are the old members plus that connection |
| `Hub.Subscribe` | index.js:96-99 | after subscribing, a room's members are the old ones plus the connection in `route:<routeId>`, and nobody is added when the route id is falsy |
| `Hub.SubscribeIdempotent` | index.js:96-99 | subscribing twice equals subscribing once; a falsy route id changes nothing |
| `Hub.FanoutReach` | index.js:120-121 | every live connection receives each stored record through `io.emit`; the room copy reaches exactly the members of the record's route room |
| `Hub.RouteRoomFilters` | index.js:96-99 | a connection subscribed only to route R gets the room copy of a record iff the record's route is R |
| `Hub.ErrorReachesOnlySender` | index.js:104-107 | after a refused socket update, everything appended to the log is an error that reaches at most the sender |
| `Hub.DecimalString` | index.js:152 | the printed number is a non-empty string of digits, with no leading zero, whose decimal value is `n` |
| `Hub.OwnProperties` | index.js:158 | the serialised store has every bus except the key `__proto__`, each with its stored record |
| `Hub.ProtoBusHiddenFromSnapshot` | index.js:136 | an accepted update for bus `__proto__` is stored, yet missing from the serialised store |
| `Hub.Hub.constructor` | index.js:66 | the hub starts with an empty store, no rooms and no emits |
| `Hub.Hub.Ingest` | index.js:103-121 | the new store, tokens and log are those `Pipeline` gives; rooms are unchanged; the token file is rewritten only when the map changed |
| `Hub.Hub.OnDriverLocation` | index.js:101-122 | the new state is `SocketLocation` of the old one; rooms are unchanged; the token file is rewritten only when the map changed |
| `Hub.Hub.PostDriverUpdate` | index.js:130-148 | the new state and the response are `RestUpdate` of the old state; rooms are unchanged; the token file is rewritten only when the map changed |
| `Hub.Hub.OnSubscribeRoute` | index.js:96-99 | rooms become `Subscribe` of the old rooms; store and log are unchanged |
| `Hub.Hub.OnDisconnect` | index.js:124-126 | nothing changes |
| `Hub.Hub.GenToken` | index.js:151-156 | bus id is the query value or `bus-<n>` with n < 9999; route is the query value or `route-1`; both are non-empty; the map gains the token with the 12 h TTL |
| `Hub.Hub.GetBuses` | index.js:158 | returns the store's own properties: every bus but `__proto__` |
| `Replay.PipelinePreservesInvariant` | index.js:110-121 | one update keeps the store invariant: each record sits under its id, has its defaults filled, and was emitted to its room and to everyone |
| `Replay.RunPreservesInvariant` | index.js:110-121 | the store invariant holds after any sequence of updates that starts where it holds |
| `Replay.RunOutbox` | index.js:120-121 | the log grows by exactly the two emits of each accepted record, in acceptance order; rejected updates add nothing |
| `Replay.RunLastWriteWins` | index.js:110 | after any sequence, a bus holds the last record accepted for it; a bus with no accepted update keeps its old record or stays absent |
| `Replay.RunTokensShrink` | index.js:75-81 | ingestion never adds or changes a token; the remaining map is a sub-map of the initial one |
| `Replay.ExpiredTokenStaysRejected` | index.js:79 | an update whose token is found expired is refused; every later update presenting that token is refused too |
| `Replay.TwoUpdatesKeepSecond` | index.js:136-144 | two accepted updates for one bus leave only the second record, with no merge of fields |
| `Replay.Bus42Example` | index.js:70-121 | a token issued for bus-42 on route-5, then an update from bus-42 with it: the coordinates are stored and first emitted to `route:route-5` |
| `Replay.WrongBusRejected` | index.js:80 | a token bound to bus-1 refuses an update for bus-2 and leaves the store unchanged |

## Findings

| source | as written | input that shows it | evidently intended | confidence | as-written member | corrected member |
|---|---|---|---|---|---|---|
| index.js:41-45 | `TOKENS[tk]` on a plain object also finds members inherited from `Object.prototype`. Their `expiresAt` and `busId` are undefined, so `undefined < Date.now()` is false and the bus check is skipped | token `constructor` (or `__proto__`, `toString`, …) with any bus id, on a registry that never issued it | only issued tokens verify, as in the `Map` copy at index.js:77 | high, not executed | `Registry.ObjectBackedAcceptsInheritedName` | `Registry.UnknownTokenRejected` |

The rest of the model (`Decide`, `TokenRegistry.VerifyToken`, the hub) uses the corrected lookup.

## Left out

- `loadTokens`/`saveTokens` (index.js:9-29): file reads and writes and JSON are not modelled. The file is the ghost snapshot `persisted`, set to the map after each mutation. A failed load that falls back to an empty map is not modelled.
- Express and socket.io setup, static files, `server.listen`, console logging and the printed sample token (index.js:49-63, 84-90, 160) are transport and start-up code.
- `Math.random()` and `Date.now()` are parameters (the token suffix, the number of a generated bus id, `now`).
- `Number(...)` coercion (index.js:113-115, 139-141) is not modelled. Payloads carry the already-coerced value: NaN or a real number. Floating point, infinities and `-0` are not modelled.
- Bus ids, tokens and route ids are strings. A numeric JSON id, which `!==` would compare unequal to a string bus id, is not modelled.
- Network delivery is not modelled, and neither is socket.io's own teardown of a disconnected socket's rooms. Only the ordered log of intended emits is kept. Who an emit reaches is computed from the rooms and a given set of live connections.
- A REST body that is not an object is not modelled. The body parser always yields one, so the read of `payload.token` at index.js:132, which comes before the null check at index.js:133, cannot fail.
- One `now` serves both the expiry test and the record's `ts`. The source reads `Date.now()` separately (index.js:79 and 117), so within one update the two readings may differ by the time between them.
- The duplicated registry (index.js:7-46 and 67-82) is modelled once.
