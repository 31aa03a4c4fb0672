# Presence hub of the location tracker, in Dafny

The server of the location tracker keeps two in-memory maps: `clients`,
from a userID to its WebSocket connection, and `locations`, from a userID to
the latest `Location` (a latitude and a longitude) that user reported. One
`handleWS` runs per connection. It rejects a request without a `userID`,
registers the connection, then reads messages until reading fails. Each
message that decodes as a `Location` is upserted and followed by a
broadcast. When reading fails, the user is deleted from both maps and
another broadcast follows. A broadcast (`broadcastLocations`) writes the
whole `locations` map to every registered connection and removes each
client whose write fails. Every one of these sections runs under one
mutex, so the model treats each as one atomic step.

The project has four modules besides `Wrappers` (Option, Result, map lookup):

- `Presence` (presence.dfy): the hub as a value-level state machine. It
  holds the types (`Location`, `Session`, `Delivery`, `HubState`, `Event`),
  the entry guard `Accept`, the broadcast's `Survivors` and `Fanout` (put
  together by `BroadcastStep`), one
  locked section as `Transition`, and a serialised history as `Run`.
- `Server` (server.dfy): the class `Hub`, whose `clients` and `locations`
  fields its methods update in place. `Connect`, `Receive` and
  `Disconnect` are proved equal to `Transition`, `Broadcast` to
  `BroadcastStep` and `Serve` to `Run`. `Broadcast` is the loop of `broadcastLocations`, which
  deletes failing entries while it iterates. It picks the next userID
  nondeterministically because Go's map order is unspecified. `Serve` is
  one whole `handleWS` run by itself.
- `Traces` (traces.dfy): properties of arbitrary histories, stated against
  reference definitions that read only the history (`LatestLocation`,
  `LatestConnection`).
- `Scenario` (scenario.dfy): a three-user exchange and two sessions under
  one userID, worked through step by step.

Outside effects are parameters. The JSON decoder is a function argument
`decode: Bytes -> Option<Location>`, and an event carries its result. The
outcome of the WebSocket upgrade is an `Option<ConnId>`. Write failures are
the set `failing` of connections whose `WriteMessage` errors during a
broadcast. A broadcast's result is the set of successful writes, each
carrying the snapshot (the `locations` map) it sent.

Three behaviours of the code that one might expect otherwise are modelled
as written:

- A new connection is sent no snapshot. It stays blank until the next
  report or disconnect by anyone (server/main.go:42-46; see
  `Server.Hub.Connect` and `Scenario.LateJoin`).
- A client dropped for a failed write keeps its location. The location goes
  only when some handler for that userID disconnects, since the delete is
  by userID (server/main.go:69, 80-81); until then a message that handler had
  already read may still overwrite it (server/main.go:62).
- A second connection under the same userID replaces the first in
  `clients`. When the first one's handler ends, its disconnect removes the
  userID, so the second connection stops receiving broadcasts while still
  open (`Scenario.DuplicateUserId`).

## Model

| member | source | states |
|---|---|---|
| Presence.Accept | server/main.go:28-40 | A request succeeds exactly when `userID` is non-empty and the upgrade succeeds. An empty `userID` is refused as `MissingUserId`, whatever the upgrade would do, because it is checked first. A non-empty `userID` whose upgrade fails is refused as `UpgradeFailed`. A success yields the userID and the upgraded connection. |
| Presence.Survivors | server/main.go:76-83 | After a broadcast, a userID is still registered exactly when it was registered and its connection's write did not fail; its connection is unchanged. |
| Presence.Fanout | server/main.go:74-84 | The successful writes of a broadcast: one per registered client whose write does not fail, to that client's connection, all carrying the same snapshot. Nothing else is delivered. |
| Presence.BroadcastStep | server/main.go:74-84 | Definition of `broadcastLocations` on values: `clients` becomes `Survivors`, `locations` is kept, and the broadcast sent is `Fanout` of the clients and map as they were at its start. `Server.Hub.Broadcast` is proved equal to it, and `Traces.RepeatedBroadcastIsIdentical` is proved about it. |
| Presence.Transition | server/main.go:42-71 | Definition of one locked section. A connect applies `Accept` and, on success, overwrites `clients[userID]` without broadcasting. A message upserts a decoded location and then does `BroadcastStep`, or changes nothing when decoding failed (server/main.go:55-64). A disconnect deletes the userID from both maps, then does `BroadcastStep` (server/main.go:67-71). `Server.Hub.Connect`, `Receive` and `Disconnect` are proved equal to it. `Traces.CloseEvicts` and the `Scenario` lemmas state what it yields in particular cases. |
| Presence.Run | server/main.go:28-72 | Definition of a serialised history of locked sections: `Transition` applied to each event in turn. `Server.Hub.Serve` is proved equal to it. `Traces.LocationsFollowLatestReport`, `Traces.ClientIsLatestConnection`, `Traces.RunKeepsEmptyIdOut`, `Traces.StaysAbsent` and `Traces.DepartedIsOmitted` are proved about it. |
| Server.Hub.constructor | server/main.go:18-22 | The hub starts with both maps empty. |
| Server.Hub.Broadcast | server/main.go:74-84 | The loop visits every client registered at the start once, in any order. Afterwards `clients` is the old `clients` minus exactly the entries whose write failed, and only `clients` may change, so `locations` is untouched. Every surviving connection got the current `locations` map. |
| Server.Hub.Connect | server/main.go:28-46 | An empty `userID` or a failed upgrade changes nothing. Otherwise `clients[userID]` becomes the new connection, replacing any earlier one. `locations` cannot change, and nothing is sent. |
| Server.Hub.Receive | server/main.go:48-64 | A payload that does not decode changes neither map and causes no broadcast. A decoded location is upserted under the session's userID, with every other entry kept. Exactly one broadcast follows, of the updated map, to the clients registered before it, so every snapshot sent holds the new location. |
| Server.Hub.Disconnect | server/main.go:67-71 | The userID is deleted from both maps. Then one broadcast goes out: its snapshot is the reduced map, its recipients are the remaining clients, and failing ones are dropped. |
| Server.Hub.Serve | server/main.go:28-72 | One `handleWS` by itself leaves the hub as `Run` does on its history: a connect, then one message event per payload read, then a disconnect. A rejected request yields only the rejected connect. |
| Traces.LocationsFollowLatestReport | server/main.go:55-70 | After any history, a user's entry in `locations` is their latest decoded report, unless they disconnected after it, in which case there is none. Connects, invalid messages, other users and eviction by failed writes never affect it. |
| Traces.ClientIsLatestConnection | server/main.go:42-44 | After any history, a registered client's connection is the one from the latest accepted connect under that userID. A second connect replaces the first, and nothing else registers a connection. |
| Traces.RunKeepsEmptyIdOut | server/main.go:29-33 | No history ever stores an entry under the empty userID in either map. |
| Traces.CloseEvicts | server/main.go:67-71 | After a disconnect the userID is in neither map. The broadcast it triggers is neither sent to that user nor mentions them. |
| Traces.StaysAbsent | server/main.go:42-70 | A user in neither map stays out of both until an accepted connect or a decoded report under their userID; a refused connect or an undecodable message from them leaves them out. |
| Traces.DepartedIsOmitted | server/main.go:67-84 | After a disconnect, every later broadcast omits the departed user, both as recipient and in the snapshot, until an accepted connect or a decoded report under their userID; refused reconnects and undecodable messages do not end this. |
| Traces.RepeatedBroadcastIsIdentical | server/main.go:74-84 | A second broadcast with the same failing connections changes nothing. It sends exactly the messages of the first: the same snapshot to the same clients. |
| Scenario.Joins | server/main.go:42-44 | Two connects from the empty hub register both connections and send nothing. |
| Scenario.FirstReport | server/main.go:61-64 | A report reaches exactly the registered clients (the reporter included), each with a snapshot holding the reported location. |
| Scenario.LateJoin | server/main.go:42-46 | A client connecting after a report is registered but sent nothing. |
| Scenario.SecondReport | server/main.go:61-64 | The next report sends the snapshot with both locations to all three clients. |
| Scenario.Departure | server/main.go:67-71 | A disconnect sends the snapshot without the departed user to the two remaining clients. |
| Scenario.DuplicateUserId | server/main.go:43 | A second connect under one userID replaces the first. The first session's disconnect then unregisters the userID, and with it the second, still-open connection. |

## Left out

- The browser client (frontend/src/App.jsx) is not part of this model: the map, markers and icons are UI; geolocation and the WebSocket are I/O. The marker animation is floating-point interpolation driven by display frames, and its claims do not hold exactly in IEEE arithmetic.
- The mutex and the goroutine per connection are not modelled. Each locked section is one atomic step, and a history of events is one serialised interleaving of all handlers.
- Server.Hub.Serve: runs one handler with nothing interleaved. Other handlers' steps between its own are covered only by `Run` over an arbitrary history.
- The HTTP error reply, the WebSocket upgrade, `ReadMessage`, `WriteMessage` and `conn.Close()` are abstract. The upgrade is an `Option<ConnId>`, a read failure ends the inbox, a write failure is membership in `failing`, and closing an evicted connection is not modelled beyond its removal.
- `json.Unmarshal` is the `decode` parameter, and no field-level JSON rule is modelled. `json.Marshal` is not modelled either: a delivery carries the map itself. The discarded Marshal error cannot arise, since decoded coordinates are finite.
- Coordinates are opaque 64-bit patterns; no floating-point arithmetic is modelled because the server does none.
- The static file server, `main` and logging are not modelled.
