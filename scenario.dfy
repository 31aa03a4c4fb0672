/** The three-user exchange and the duplicate-userID case, step by step. */
module Scenario {
  import opened Wrappers
  import opened Presence

  /* Three users on connections 1, 2 and 3, no write failing: A joins, C joins,
     A reports, B joins, C reports, A leaves. */

  /** (10, 20) and (11, 21) as IEEE-754 doubles. */
  const Here := Location(0x4024_0000_0000_0000, 0x4034_0000_0000_0000)
  const There := Location(0x4026_0000_0000_0000, 0x4035_0000_0000_0000)

  const A := Session("A", 1)
  const C := Session("C", 3)

  const AandC := HubState(map["A" := 1, "C" := 3], map[])
  const AReported := AandC.(locations := map["A" := Here])
  const BJoined := AReported.(clients := map["A" := 1, "B" := 2, "C" := 3])
  const CReported := BJoined.(locations := map["A" := Here, "C" := There])
  const ALeft := HubState(map["B" := 2, "C" := 3], map["C" := There])

  lemma Joins()
    ensures Transition(Initial, Open("A", Some(1))).broadcast.None?
    ensures Transition(Transition(Initial, Open("A", Some(1))).next, Open("C", Some(3))) == Outcome(AandC, None)
  {
  }

  /** A's report reaches A and C, who are the only ones registered. */
  lemma FirstReport()
    ensures Transition(AandC, Message(A, Some(Here), {})) ==
      Outcome(AReported, Some({Delivery("A", 1, AReported.locations), Delivery("C", 3, AReported.locations)}))
  {
    assert Survivors(AReported.clients, {}) == AReported.clients;
    var sent := Fanout(AReported.clients, AReported.locations, {});
    assert Delivery("A", 1, AReported.locations) in sent;
    assert Delivery("C", 3, AReported.locations) in sent;
    assert forall d | d in sent :: d.uid == "A" || d.uid == "C";
    assert sent == {Delivery("A", 1, AReported.locations), Delivery("C", 3, AReported.locations)};
  }

  /** B's connect sends B nothing. */
  lemma LateJoin()
    ensures Transition(AReported, Open("B", Some(2))) == Outcome(BJoined, None)
  {
  }

  /** B first hears of A with C's report, which goes to all three. */
  lemma SecondReport()
    ensures Transition(BJoined, Message(C, Some(There), {})) ==
      Outcome(CReported, Some({Delivery("A", 1, CReported.locations), Delivery("B", 2, CReported.locations),
                               Delivery("C", 3, CReported.locations)}))
  {
    assert Survivors(CReported.clients, {}) == CReported.clients;
    var sent := Fanout(CReported.clients, CReported.locations, {});
    assert Delivery("A", 1, CReported.locations) in sent;
    assert Delivery("B", 2, CReported.locations) in sent;
    assert Delivery("C", 3, CReported.locations) in sent;
    assert forall d | d in sent :: d.uid == "A" || d.uid == "B" || d.uid == "C";
    assert sent == {Delivery("A", 1, CReported.locations), Delivery("B", 2, CReported.locations),
                    Delivery("C", 3, CReported.locations)};
  }

  /** A's departure is announced to B and C with A gone from the snapshot. */
  lemma Departure()
    ensures Transition(CReported, Close(A, {})) ==
      Outcome(ALeft, Some({Delivery("B", 2, ALeft.locations), Delivery("C", 3, ALeft.locations)}))
  {
    assert CReported.clients - {"A"} == ALeft.clients;
    assert CReported.locations - {"A"} == ALeft.locations;
    assert Survivors(ALeft.clients, {}) == ALeft.clients;
    var sent := Fanout(ALeft.clients, ALeft.locations, {});
    assert Delivery("B", 2, ALeft.locations) in sent;
    assert Delivery("C", 3, ALeft.locations) in sent;
    assert forall d | d in sent :: d.uid == "B" || d.uid == "C";
    assert sent == {Delivery("B", 2, ALeft.locations), Delivery("C", 3, ALeft.locations)};
  }

  /** Two sessions under one userID: the second connect replaces the first,
      and when the first session ends its disconnect removes the userID, so
      the still-open second connection is no longer written to. */
  lemma DuplicateUserId()
    ensures
      var first := Session("A", 1);
      var both := Run(Initial, [Open("A", Some(1)), Open("A", Some(2))]);
      && both.clients == map["A" := 2]
      && Transition(both, Close(first, {})).next.clients == map[]
  {
    var events := [Open("A", Some(1)), Open("A", Some(2))];
    assert events[..1] == [Open("A", Some(1))];
    assert Run(Initial, events[..1]).clients == map["A" := 1];
  }
}
