/**
  The presence hub of server/main.go as a value-level state machine.

  The hub holds two maps, `clients` (userID -> connection) and `locations`
  (userID -> latest location). Every transition of `handleWS` runs under one
  mutex, so each is one atomic step here: `Transition` takes the state before
  the locked section to the state after it, together with the broadcast the
  section performed, if any.
*/
module Presence {
  import opened Wrappers

  /** A Go `float64`, kept as its IEEE-754 bit pattern: the hub stores and
      forwards coordinates but never computes with them. */
  type Float64 = bv64

  /** The `Location` struct: the JSON fields `lat` and `lng`. */
  datatype Location = Location(lat: Float64, lng: Float64)

  /** The payload of one WebSocket message. */
  type Bytes = seq<bv8>

  /** A `userID` query parameter that passed the emptiness guard of handleWS. */
  type UserId = s: string | s != "" witness "u"

  /** Identity of one upgraded connection (the `*websocket.Conn` pointer). */
  type ConnId = nat

  /** The whole `locations` map, as `json.Marshal` serialises it for a broadcast. */
  type Snapshot = map<string, Location>

  /** The locals of one running handleWS: its user and its connection. */
  datatype Session = Session(uid: UserId, conn: ConnId)

  /** Why handleWS returned before registering a connection. */
  datatype ConnectError =
    | MissingUserId   // HTTP 400 "Missing userID"
    | UpgradeFailed   // the WebSocket upgrade returned an error

  /** One successful `WriteMessage` of a broadcast: `snapshot` reached `conn`,
      registered under `uid`. */
  datatype Delivery = Delivery(uid: string, conn: ConnId, snapshot: Snapshot)

  datatype HubState = HubState(clients: map<string, ConnId>, locations: Snapshot)

  /** The state after one locked section and the broadcast it sent (`None` when
      it sent none). */
  datatype Outcome = Outcome(next: HubState, broadcast: Option<set<Delivery>>)

  /** What one handleWS contributes, as seen by the hub. A `Message` carries the
      result of `json.Unmarshal` on the payload; `failing` is the set of
      connections whose write errors during the broadcast the step triggers. */
  datatype Event =
    | Open(query: string, upgrade: Option<ConnId>)
    | Message(session: Session, body: Option<Location>, failing: set<ConnId>)
    | Close(session: Session, failing: set<ConnId>)

  const Initial := HubState(map[], map[])

  /** The entry phase of handleWS: the emptiness guard on `userID`, checked
      before the upgrade is attempted, then the upgrade itself. */
  function Accept(query: string, upgrade: Option<ConnId>): (r: Result<Session, ConnectError>)
    ensures r.Success? <==> query != "" && upgrade.Some?
    ensures query == "" ==> r == Failure(MissingUserId)
    ensures query != "" && upgrade.None? ==> r == Failure(UpgradeFailed)
    ensures r.Success? ==> r.value.uid == query && upgrade == Some(r.value.conn)
  {
    if query == "" then Failure(MissingUserId)
    else match upgrade
      case None => Failure(UpgradeFailed)
      case Some(c) => Success(Session(query, c))
  }

  /** The clients left after a broadcast: exactly those whose write succeeded,
      each still under its own connection. */
  function Survivors(clients: map<string, ConnId>, failing: set<ConnId>): (r: map<string, ConnId>)
    ensures forall u :: u in r <==> u in clients && clients[u] !in failing
    ensures forall u :: u in r ==> r[u] == clients[u]
  {
    map u | u in clients && clients[u] !in failing :: clients[u]
  }

  /** The successful writes of a broadcast: one per registered client whose
      connection does not fail, all carrying the same snapshot. */
  function Fanout(clients: map<string, ConnId>, snapshot: Snapshot, failing: set<ConnId>): (r: set<Delivery>)
    ensures forall d :: d in r <==>
      d.uid in clients && d.conn == clients[d.uid] && d.conn !in failing && d.snapshot == snapshot
  {
    set u | u in clients && clients[u] !in failing :: Delivery(u, clients[u], snapshot)
  }

  /** broadcastLocations: write the current `locations` to every client and
      drop the clients whose write failed. */
  function BroadcastStep(s: HubState, failing: set<ConnId>): Outcome
  {
    Outcome(s.(clients := Survivors(s.clients, failing)), Some(Fanout(s.clients, s.locations, failing)))
  }

  /** One locked section of handleWS. */
  function Transition(s: HubState, e: Event): Outcome
  {
    match e
    case Open(query, upgrade) =>
      (match Accept(query, upgrade)
       case Success(session) => Outcome(s.(clients := s.clients[session.uid := session.conn]), None)
       case Failure(_) => Outcome(s, None))
    case Message(session, body, failing) =>
      (match body
       case None => Outcome(s, None)
       case Some(loc) => BroadcastStep(s.(locations := s.locations[session.uid := loc]), failing))
    case Close(session, failing) =>
      BroadcastStep(HubState(s.clients - {session.uid}, s.locations - {session.uid}), failing)
  }

  /** The hub after a serialised history of locked sections. */
  function Run(s: HubState, events: seq<Event>): HubState
    decreases |events|
  {
    if events == [] then s
    else Transition(Run(s, events[..|events| - 1]), events[|events| - 1]).next
  }
}
