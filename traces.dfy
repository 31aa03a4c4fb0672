/**
  Properties of whole histories of the hub: what `clients` and `locations`
  hold after any serialised sequence of locked sections, stated against
  reference definitions that read the history alone.
*/
module Traces {
  import opened Wrappers
  import opened Presence

  /** Reference definition: the location history `events` leaves for `u`. The
      latest accepted report of `u` wins; a disconnect of `u` since then clears
      it; nothing else (connects, other users, failed writes) has a say. */
  function LatestLocation(events: seq<Event>, u: string, initial: Option<Location>): Option<Location>
    decreases |events|
  {
    if events == [] then initial
    else
      var e := events[|events| - 1];
      if e.Message? && e.session.uid == u && e.body.Some? then e.body
      else if e.Close? && e.session.uid == u then None
      else LatestLocation(events[..|events| - 1], u, initial)
  }

  /** Reference definition: the connection of the latest accepted connect for
      `u` in `events`. */
  function LatestConnection(events: seq<Event>, u: string, initial: Option<ConnId>): Option<ConnId>
    decreases |events|
  {
    if events == [] then initial
    else
      var e := events[|events| - 1];
      if e.Open? && e.query == u && u != "" && e.upgrade.Some? then e.upgrade
      else LatestConnection(events[..|events| - 1], u, initial)
  }

  /** `locations` is last-write-wins per user, emptied by that user's
      disconnect, and untouched by broadcasts, including their evictions. */
  lemma {:induction false} LocationsFollowLatestReport(s: HubState, events: seq<Event>, u: string)
    ensures Lookup(Run(s, events).locations, u) == LatestLocation(events, u, Lookup(s.locations, u))
    decreases |events|
  {
    if events != [] {
      LocationsFollowLatestReport(s, events[..|events| - 1], u);
    }
  }

  /** A registered client is always the connection of the latest connect under
      its userID: a second connect with the same userID replaces the first, and
      no other step ever registers a connection. */
  lemma {:induction false} ClientIsLatestConnection(s: HubState, events: seq<Event>, u: string)
    ensures u in Run(s, events).clients ==>
      Some(Run(s, events).clients[u]) == LatestConnection(events, u, Lookup(s.clients, u))
    decreases |events|
  {
    if events != [] {
      ClientIsLatestConnection(s, events[..|events| - 1], u);
    }
  }

  /** The hub never stores an entry under the empty userID. */
  lemma {:induction false} RunKeepsEmptyIdOut(s: HubState, events: seq<Event>)
    requires "" !in s.clients && "" !in s.locations
    ensures "" !in Run(s, events).clients && "" !in Run(s, events).locations
    decreases |events|
  {
    if events != [] {
      RunKeepsEmptyIdOut(s, events[..|events| - 1]);
    }
  }

  /** `u` has neither a connection nor a location. */
  predicate Absent(s: HubState, u: string)
  {
    u !in s.clients && u !in s.locations
  }

  /** `e` brings `u` back: an accepted connect under `u`, or a decoded report
      from a session of `u`. A refused connect or an undecodable message
      changes nothing and does not count. */
  predicate Rejoins(e: Event, u: string)
  {
    || (e.Open? && e.query == u && e.upgrade.Some?)
    || (e.Message? && e.session.uid == u && e.body.Some?)
  }

  /** No message of the broadcast goes to `u` or mentions `u`. */
  predicate Omits(broadcast: Option<set<Delivery>>, u: string)
  {
    broadcast.Some? ==> forall d :: d in broadcast.value ==> d.uid != u && u !in d.snapshot
  }

  /** A disconnect removes the user from both maps, and its own broadcast is
      neither sent to nor mentions that user. */
  lemma CloseEvicts(s: HubState, session: Session, failing: set<ConnId>)
    ensures Absent(Transition(s, Close(session, failing)).next, session.uid)
    ensures Omits(Transition(s, Close(session, failing)).broadcast, session.uid)
  {
  }

  /** An absent user stays absent until it connects or reports again. */
  lemma {:induction false} StaysAbsent(s: HubState, events: seq<Event>, u: string)
    requires Absent(s, u)
    requires forall i :: 0 <= i < |events| ==> !Rejoins(events[i], u)
    ensures Absent(Run(s, events), u)
    decreases |events|
  {
    if events != [] {
      StaysAbsent(s, events[..|events| - 1], u);
    }
  }

  /** Once disconnected, a user is omitted from every later broadcast, for as
      long as it neither connects nor reports again. */
  lemma DepartedIsOmitted(s: HubState, session: Session, failing: set<ConnId>, later: seq<Event>)
    requires forall i :: 0 <= i < |later| ==> !Rejoins(later[i], session.uid)
    ensures Omits(Transition(s, Close(session, failing)).broadcast, session.uid)
    ensures forall i :: 0 <= i < |later| ==>
      Omits(Transition(Run(Transition(s, Close(session, failing)).next, later[..i]), later[i]).broadcast, session.uid)
    ensures Absent(Run(Transition(s, Close(session, failing)).next, later), session.uid)
  {
    var u := session.uid;
    var gone := Transition(s, Close(session, failing)).next;
    CloseEvicts(s, session, failing);
    forall i | 0 <= i < |later|
      ensures Omits(Transition(Run(gone, later[..i]), later[i]).broadcast, u)
    {
      StaysAbsent(gone, later[..i], u);
    }
    StaysAbsent(gone, later, u);
  }

  /** A second broadcast with the same failing connections changes nothing and
      sends exactly what the first one sent. */
  lemma RepeatedBroadcastIsIdentical(s: HubState, failing: set<ConnId>)
    ensures BroadcastStep(BroadcastStep(s, failing).next, failing) == BroadcastStep(s, failing)
  {
    var first := BroadcastStep(s, failing);
    assert Survivors(first.next.clients, failing) == first.next.clients;
    assert Fanout(first.next.clients, s.locations, failing) == Fanout(s.clients, s.locations, failing);
  }
}
