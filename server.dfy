/**
  The hub of server/main.go as the program keeps it: two maps mutated in place
  under one mutex. Each method is one locked section, so it runs as a single
  sequential step; `State` gives the value the methods are specified against.
*/
module Server {
  import opened Wrappers
  import opened Presence

  class Hub {
    /** userID -> connection */
    var clients: map<string, ConnId>
    /** userID -> latest location */
    var locations: Snapshot

    /** No entry is ever stored under the empty userID: handleWS rejects it
        before touching either map. */
    ghost predicate Valid()
      reads this
    {
      "" !in clients && "" !in locations
    }

    function State(): HubState
      reads this
    {
      HubState(clients, locations)
    }

    constructor ()
      ensures Valid()
      ensures State() == Initial
    {
      clients := map[];
      locations := map[];
    }

    /** broadcastLocations. Every client registered when it starts is written
        to once, in an unspecified order; a client whose write fails is removed
        from `clients` as the loop reaches it. */
    method Broadcast(failing: set<ConnId>) returns (sent: set<Delivery>)
      requires Valid()
      modifies this`clients
      ensures Valid()
      ensures clients == Survivors(old(clients), failing)
      ensures sent == Fanout(old(clients), locations, failing)
      ensures Outcome(State(), Some(sent)) == BroadcastStep(old(State()), failing)
    {
      var pending := clients.Keys;
      sent := {};
      while pending != {}
        invariant pending <= old(clients).Keys
        invariant "" !in clients
        invariant forall u :: u in clients <==>
          u in old(clients) && (u in pending || old(clients)[u] !in failing)
        invariant forall u :: u in clients ==> clients[u] == old(clients)[u]
        invariant forall d :: d in sent <==>
          && d.uid in old(clients) && d.uid !in pending
          && d.conn == old(clients)[d.uid] && d.conn !in failing && d.snapshot == locations
        decreases pending
      {
        var uid :| uid in pending;
        var conn := clients[uid];
        if conn in failing {
          clients := clients - {uid};
        } else {
          sent := sent + {Delivery(uid, conn, locations)};
        }
        pending := pending - {uid};
      }
    }

    /** The entry of handleWS up to registration. It sends nothing. */
    method Connect(query: string, upgrade: Option<ConnId>) returns (r: Result<Session, ConnectError>)
      requires Valid()
      modifies this`clients
      ensures Valid()
      ensures r == Accept(query, upgrade)
      ensures r.Failure? ==> clients == old(clients)
      ensures r.Success? ==> clients == old(clients)[query := r.value.conn]
      ensures Outcome(State(), None) == Transition(old(State()), Open(query, upgrade))
    {
      if query == "" {
        return Failure(MissingUserId);
      }
      if upgrade.None? {
        return Failure(UpgradeFailed);
      }
      clients := clients[query := upgrade.value];
      r := Success(Session(query, upgrade.value));
    }

    /** One message read by the loop of handleWS. A payload that does not
        decode is skipped; a location is upserted and then broadcast. */
    method Receive(session: Session, msg: Bytes, decode: Bytes -> Option<Location>, failing: set<ConnId>)
      returns (broadcast: Option<set<Delivery>>)
      requires Valid()
      modifies this
      ensures Valid()
      ensures decode(msg).None? ==>
        clients == old(clients) && locations == old(locations) && broadcast.None?
      ensures decode(msg).Some? ==>
        && locations == old(locations)[session.uid := decode(msg).value]
        && clients == Survivors(old(clients), failing)
        && broadcast == Some(Fanout(old(clients), locations, failing))
        && forall d :: d in broadcast.value ==> d.snapshot[session.uid] == decode(msg).value
      ensures Outcome(State(), broadcast) == Transition(old(State()), Message(session, decode(msg), failing))
    {
      match decode(msg) {
        case None =>
          broadcast := None;
        case Some(loc) =>
          locations := locations[session.uid := loc];
          var sent := Broadcast(failing);
          broadcast := Some(sent);
      }
    }

    /** The exit of handleWS once reading fails: forget the user in both maps,
        then broadcast. */
    method Disconnect(session: Session, failing: set<ConnId>) returns (sent: set<Delivery>)
      requires Valid()
      modifies this
      ensures Valid()
      ensures locations == old(locations) - {session.uid}
      ensures clients == Survivors(old(clients) - {session.uid}, failing)
      ensures sent == Fanout(old(clients) - {session.uid}, locations, failing)
      ensures Outcome(State(), Some(sent)) == Transition(old(State()), Close(session, failing))
    {
      clients := clients - {session.uid};
      locations := locations - {session.uid};
      sent := Broadcast(failing);
    }

    /** One whole handleWS taken by itself: connect, the messages read until
        reading fails, then disconnect. Each element of `inbox` is a payload
        together with the connections whose write fails in the broadcast it
        causes; `closing` plays that part for the final broadcast. */
    method Serve(query: string, upgrade: Option<ConnId>, inbox: seq<(Bytes, set<ConnId>)>,
                 decode: Bytes -> Option<Location>, closing: set<ConnId>)
      returns (r: Result<Session, ConnectError>)
      requires Valid()
      modifies this
      ensures Valid()
      ensures r == Accept(query, upgrade)
      ensures State() == Run(old(State()), HandlerEvents(query, upgrade, inbox, decode, closing))
    {
      r := Connect(query, upgrade);
      if r.Failure? {
        return;
      }
      var session := r.value;
      ghost var events := [Open(query, upgrade)];
      var i := 0;
      while i < |inbox|
        invariant 0 <= i <= |inbox|
        invariant Valid()
        invariant events == [Open(query, upgrade)] + Messages(session, inbox[..i], decode)
        invariant State() == Run(old(State()), events)
      {
        var (msg, failing) := inbox[i];
        ghost var e := Message(session, decode(msg), failing);
        var _ := Receive(session, msg, decode, failing);
        RunStep(old(State()), events, e);
        MessagesStep(session, inbox, i, decode);
        events := events + [e];
        i := i + 1;
      }
      var _ := Disconnect(session, closing);
      RunStep(old(State()), events, Close(session, closing));
      assert inbox[..i] == inbox;
    }
  }

  lemma RunStep(s: HubState, events: seq<Event>, e: Event)
    ensures Run(s, events + [e]) == Transition(Run(s, events), e).next
  {
    assert (events + [e])[..|events|] == events;
  }

  lemma MessagesStep(session: Session, inbox: seq<(Bytes, set<ConnId>)>, i: nat, decode: Bytes -> Option<Location>)
    requires i < |inbox|
    ensures Messages(session, inbox[..i + 1], decode)
      == Messages(session, inbox[..i], decode) + [Message(session, decode(inbox[i].0), inbox[i].1)]
  {
    assert inbox[..i + 1][..i] == inbox[..i];
  }

  /** The events one payload sequence produces for `session`. */
  function Messages(session: Session, inbox: seq<(Bytes, set<ConnId>)>, decode: Bytes -> Option<Location>): (r: seq<Event>)
    ensures |r| == |inbox|
    ensures forall i :: 0 <= i < |inbox| ==> r[i] == Message(session, decode(inbox[i].0), inbox[i].1)
    decreases |inbox|
  {
    if inbox == [] then []
    else Messages(session, inbox[..|inbox| - 1], decode)
         + [Message(session, decode(inbox[|inbox| - 1].0), inbox[|inbox| - 1].1)]
  }

  /** The history one handleWS contributes when nothing interleaves with it. */
  function HandlerEvents(query: string, upgrade: Option<ConnId>, inbox: seq<(Bytes, set<ConnId>)>,
                         decode: Bytes -> Option<Location>, closing: set<ConnId>): seq<Event>
  {
    match Accept(query, upgrade)
    case Failure(_) => [Open(query, upgrade)]
    case Success(session) => [Open(query, upgrade)] + Messages(session, inbox, decode) + [Close(session, closing)]
  }
}
