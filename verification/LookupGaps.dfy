// The two lookups of a message's target, each under its own lock
// (internal/signaling/rooms.go): what they find, over every run of single steps.
module LookupGaps {
  import opened Wrappers
  import opened Signaling
  import opened Rooms
  import opened RoomRuns
  import opened RoomSteps

  // ---- The slots, step by step ----

  // Each slot on its own: the last socket attached there, unless it has been
  // unplugged since, by name or whatever it was.
  function SlotNow(events: seq<SplitEvent>, x: Slot): Option<Peer> {
    if events == [] then None
    else
      var s := SplitRun(events[..|events| - 1]);
      var before := SlotNow(events[..|events| - 1], x);
      match events[|events| - 1]
      case Attaches(k) =>
        if k < |s.arriving| && x == Slot(s.arriving[k].transferID, s.arriving[k].agent, s.arriving[k].device)
        then Some(s.arriving[k].peer) else before
      case Unplugs(a, d, p) => if x.agent == a && x.device == d && (p.None? || p == before) then None else before
      case _ => before
  }

  lemma SameHolder(s: RoomState, u: RoomState, x: Slot)
    requires s.peers == u.peers && s.transferPeers == u.transferPeers
    ensures Holder(s, x) == Holder(u, x)
  {
  }

  lemma {:induction false} StepwiseRoomsAreSlots(events: seq<SplitEvent>, x: Slot)
    ensures Holder(SplitRun(events).rooms, x) == SlotNow(events, x)
    decreases |events|
  {
    hide Connect, Unplugged, Holder, Look, LookAgain, Tracked, WillDrop, Affected;
    if events == [] {
      NothingConnected(x);
    } else {
      var s := SplitRun(events[..|events| - 1]);
      var e := events[|events| - 1];
      var t := SplitStep(s, e);
      StepwiseRoomsAreSlots(events[..|events| - 1], x);
      match e
      case Attaches(k) =>
        if k < |s.arriving| {
          var y := s.arriving[k];
          ConnectedHolder(s.rooms, y.transferID, y.agent, y.device, y.peer, x);
          SameHolder(t.rooms, Connect(s.rooms, y.transferID, y.agent, y.device, y.peer), x);
        }
      case Unplugs(a, d, p) =>
        UnpluggedHolder(s.rooms, a, d, p, x);
        SameHolder(t.rooms, Unplugged(s.rooms, a, d, p), x);
      case _ =>
        if e.Looks? || e.LooksAgain? || e.Tracks? { RoutingIsApart(s, e); }
        SameHolder(t.rooms, s.rooms, x);
    }
  }

  // ---- What the lookups find ----

  ghost predicate Attached(events: seq<SplitEvent>, t: string, agent: string) {
    exists d :: SlotNow(events, Slot(t, agent, d)).Some?
  }

  lemma AgentInMeansHeld(room: Room, agent: string)
    ensures AgentIn(room, agent) <==> exists d :: Held(room, agent, d).Some?
  {
    if AgentIn(room, agent) {
      var d :| d in room[agent];
      assert Held(room, agent, d).Some?;
    }
  }

  // A lookup finds a socket of the agent that is attached just then, or none if
  // there is none.
  lemma FoundIsAttached(events: seq<SplitEvent>, t: string, agent: string, d: string)
    ensures var room := RoomOf(SplitRun(events).rooms, t);
      && (AgentIn(room, agent) <==> Attached(events, t, agent))
      && (FirstCanBe(room, agent, d) ==> First(room, agent, d) == (if Attached(events, t, agent) then SlotNow(events, Slot(t, agent, d)) else None))
  {
    hide SplitRun, SlotNow, RoomOf;
    var room := RoomOf(SplitRun(events).rooms, t);
    AgentInMeansHeld(room, agent);
    forall x ensures Held(room, agent, x) == SlotNow(events, Slot(t, agent, x)) { StepwiseRoomsAreSlots(events, Slot(t, agent, x)); }
    if y :| Held(room, agent, y).Some? { assert SlotNow(events, Slot(t, agent, y)).Some?; }
    if y :| SlotNow(events, Slot(t, agent, y)).Some? { assert Held(room, agent, y).Some?; }
  }

  // The n-th step looked the message up among its transfer's own sockets and
  // found this one, or none where there was none.
  ghost predicate LookedUp(events: seq<SplitEvent>, n: nat, m: Envelope, found: Option<Peer>) {
    && n < |events| && events[n].Looks? && events[n].envelope == m
    && if found.Some? then m.transferID != "" && SlotNow(events[..n], Slot(m.transferID, m.toAgentID, events[n].device)) == found
       else m.transferID == "" || !Attached(events[..n], m.transferID, m.toAgentID)
  }

  // The n-th step looked it up among the always-on sockets and found this one.
  ghost predicate LookedUpAgain(events: seq<SplitEvent>, n: nat, m: Envelope, found: Option<Peer>) {
    && n < |events| && events[n].LooksAgain? && found.Some?
    && SlotNow(events[..n], Slot("", m.toAgentID, events[n].device)) == found
  }

  ghost predicate Honest(events: seq<SplitEvent>, r: Routing) {
    || (exists n :: LookedUp(events, n, r.message, r.found))
    || (exists n, k :: n < k && LookedUp(events, n, r.message, None) && LookedUpAgain(events, k, r.message, r.found))
  }

  lemma StaysHonest(events: seq<SplitEvent>, r: Routing)
    requires events != [] && Honest(events[..|events| - 1], r)
    ensures Honest(events, r)
  {
    hide SlotNow, Attached;
    var before := events[..|events| - 1];
    forall n: nat | n < |before| ensures before[..n] == events[..n] {
    }
    if n :| LookedUp(before, n, r.message, r.found) {
      assert LookedUp(events, n, r.message, r.found);
    } else {
      var n, k :| n < k && LookedUp(before, n, r.message, None) && LookedUpAgain(before, k, r.message, r.found);
      assert LookedUp(events, n, r.message, None) && LookedUpAgain(events, k, r.message, r.found);
    }
  }

  lemma OwnRoomOf(s: RoomState, t: string)
    ensures t != "" ==> OwnRoom(s, t) == RoomOf(s, t)
    ensures t == "" ==> OwnRoom(s, t) == map[]
  {
  }

  lemma LookIsHonest(events: seq<SplitEvent>, m: Envelope, d: string, r: Routing)
    requires events != [] && events[|events| - 1] == Looks(m, d)
    requires var s := SplitRun(events[..|events| - 1]);
             r in Look(s, m, d).routing && r !in s.routing
    ensures Honest(events, r)
  {
    hide SplitRun, SlotNow, Attached, RoomOf, OwnRoom;
    var before := events[..|events| - 1];
    OwnRoomOf(SplitRun(before).rooms, m.transferID);
    FoundIsAttached(before, m.transferID, m.toAgentID, d);
    assert r.message == m;
    assert LookedUp(events, |events| - 1, m, r.found);
  }

  lemma LookAgainIsHonest(events: seq<SplitEvent>, k: nat, d: string, r: Routing)
    requires events != [] && events[|events| - 1] == LooksAgain(k, d)
    requires var s := SplitRun(events[..|events| - 1]);
             r in LookAgain(s, k, d).routing && r !in s.routing && k < |s.routing| && Honest(events[..|events| - 1], s.routing[k])
    ensures Honest(events, r)
  {
    hide SplitRun, SlotNow, Attached;
    var before := events[..|events| - 1];
    var s := SplitRun(before);
    var q := s.routing[k];
    forall x | x in Without(s.routing, k) ensures x in s.routing { WithoutOne(s.routing, k, x); }
    FoundIsAttached(before, "", q.message.toAgentID, d);
    assert r.message == q.message && q.found.None?;
    NoSocketNoLookup(before, q);
    var n: nat :| LookedUp(before, n, q.message, None);
    assert before[..n] == events[..n];
    assert LookedUp(events, n, r.message, None) && LookedUpAgain(events, |events| - 1, r.message, r.found);
  }

  // Over every run of single steps: a message under way with a socket was found
  // that socket attached to its own transfer and target, when it was looked up
  // there; or none was attached there then, and later that one always on to its
  // target. One without a socket had none attached there.
  lemma {:induction false} RoutedHonestly(events: seq<SplitEvent>, r: Routing)
    requires r in SplitRun(events).routing
    ensures Honest(events, r)
    decreases |events|
  {
    hide Look, LookAgain, Honest, Connect, Unplug, WillDrop, TrackActive, Without;
    var before := events[..|events| - 1];
    var s := SplitRun(before);
    var e := events[|events| - 1];
    if r in s.routing {
      RoutedHonestly(before, r);
      StaysHonest(events, r);
    } else if e.Looks? {
      LookIsHonest(events, e.envelope, e.device, r);
    } else if e.LooksAgain? {
      LookedAgainInRange(s, e.which, e.device, r);
      RoutedHonestly(before, s.routing[e.which]);
      LookAgainIsHonest(events, e.which, e.device, r);
    } else if Tracking(s, e) {
      WithoutOne(s.routing, e.which, r);
    }
  }

  lemma LookedAgainInRange(s: Split, k: nat, d: string, r: Routing)
    requires r in LookAgain(s, k, d).routing && r !in s.routing
    ensures k < |s.routing|
  {
  }

  // And it is refused as offline exactly when, at its second lookup, its target
  // has no always-on socket, having had none on its transfer at the first.
  lemma RefusedExactly(events: seq<SplitEvent>, k: nat, d: string)
    requires var s := SplitRun(events);
      k < |s.routing| && s.routing[k].found.None? && FirstCanBe(s.rooms.peers, s.routing[k].message.toAgentID, d)
    ensures var r := SplitRun(events).routing[k];
      var after := SplitStep(SplitRun(events), LooksAgain(k, d)).routing;
      && (exists n :: LookedUp(events, n, r.message, None))
      && if Attached(events, "", r.message.toAgentID)
         then after == SplitRun(events).routing[k := Routing(r.message, SlotNow(events, Slot("", r.message.toAgentID, d)))]
         else after == Without(SplitRun(events).routing, k)
  {
    hide SplitRun, SlotNow, Attached, LookedUp;
    var r := SplitRun(events).routing[k];
    RoutedHonestly(events, r);
    NoSocketNoLookup(events, r);
    FoundIsAttached(events, "", r.message.toAgentID, d);
  }

  // Only a message routed is tracked: a step that tracks one has its target's
  // socket, honestly found.
  lemma TrackedMeansRouted(events: seq<SplitEvent>, k: nat)
    requires SplitStep(SplitRun(events), Tracks(k)) != SplitRun(events)
    ensures var s := SplitRun(events);
      k < |s.routing| && s.routing[k].found.Some? && Honest(events, s.routing[k])
  {
    hide SplitRun, Honest, TrackActive;
    RoutedHonestly(events, SplitRun(events).routing[k]);
  }

  // A message routed with nothing in between: the socket that RouteEnvelope
  // returns is the one these two lookups find.
  lemma RoutedAloneFinds(s: Split, m: Envelope, p: Peer) returns (own: string, alwaysOn: string)
    requires ValidateEnvelope(m).None? && m.toAgentID != ""
    requires if m.transferID != "" && exists d :: Holder(s.rooms, Slot(m.transferID, m.toAgentID, d)).Some?
             then exists d :: Holder(s.rooms, Slot(m.transferID, m.toAgentID, d)) == Some(p)
             else exists d :: Holder(s.rooms, Slot("", m.toAgentID, d)) == Some(p)
    ensures FirstCanBe(OwnRoom(s.rooms, m.transferID), m.toAgentID, own) && FirstCanBe(s.rooms.peers, m.toAgentID, alwaysOn)
    ensures LookAgain(Look(s, m, own), |s.routing|, alwaysOn).routing == s.routing + [Routing(m, Some(p))]
  {
    hide ValidateEnvelope;
    var to, n := m.toAgentID, |s.routing|;
    var room := OwnRoom(s.rooms, m.transferID);
    OwnRoomOf(s.rooms, m.transferID);
    AgentInMeansHeld(room, to);
    AgentInMeansHeld(s.rooms.peers, to);
    own, alwaysOn := AnyDevice(room, to), AnyDevice(s.rooms.peers, to);
    if m.transferID != "" && exists d :: Holder(s.rooms, Slot(m.transferID, to, d)).Some? {
      own :| Holder(s.rooms, Slot(m.transferID, to, own)) == Some(p);
      assert Held(room, to, own) == Some(p);
    } else {
      alwaysOn :| Holder(s.rooms, Slot("", to, alwaysOn)) == Some(p);
      assert Held(s.rooms.peers, to, alwaysOn) == Some(p);
      assert !AgentIn(room, to) by { NoneHeld(s.rooms, m.transferID, to); }
      assert (s.routing + [Routing(m, None)])[n := Routing(m, Some(p))] == s.routing + [Routing(m, Some(p))];
    }
  }

  ghost function AnyDevice(room: Room, agent: string): (d: string)
    ensures FirstCanBe(room, agent, d)
  {
    if AgentIn(room, agent) then var d :| d in room[agent]; d else ""
  }

  lemma NoneHeld(s: RoomState, t: string, agent: string)
    requires t == "" || forall d :: Holder(s, Slot(t, agent, d)).None?
    ensures !AgentIn(OwnRoom(s, t), agent)
  {
    hide Held;
    OwnRoomOf(s, t);
    AgentInMeansHeld(OwnRoom(s, t), agent);
    if t != "" {
      forall d ensures Held(OwnRoom(s, t), agent, d).None? { assert Holder(s, Slot(t, agent, d)).None?; }
    }
  }

  lemma NoSocketNoLookup(events: seq<SplitEvent>, r: Routing)
    requires Honest(events, r) && r.found.None?
    ensures exists n :: LookedUp(events, n, r.message, None)
  {
    hide SlotNow, Attached, LookedUp;
  }

  // ---- Two lookups can miss ----

  // An agent that always has a socket attached can still count as offline: its
  // transfer socket comes after the first lookup, and its always-on one is
  // gone before the second.
  function MissedEvents(m: Envelope, d: string, before: Peer, after: Peer): seq<SplitEvent> {
    [Registers(Arrival("", m.toAgentID, d, before)), Attaches(0), Looks(m, d),
     Registers(Arrival(m.transferID, m.toAgentID, d, after)), Attaches(0), Unplugs(m.toAgentID, d, Some(before)),
     LooksAgain(0, d)]
  }

  lemma OneMoreStep(events: seq<SplitEvent>, n: nat)
    requires n < |events|
    ensures SplitRun(events[..n + 1]) == SplitStep(SplitRun(events[..n]), events[n])
  {
    hide SplitStep;
    assert events[..n + 1][..n] == events[..n];
  }

  // The sockets, arrivals and routings of a state, nothing being active.
  predicate Shape(s: Split, peers: Room, transferPeers: map<string, Room>, arriving: seq<Arrival>, routing: seq<Routing>) {
    && s.rooms.peers == peers && s.rooms.transferPeers == transferPeers && s.rooms.active == map[]
    && s.arriving == arriving && s.routing == routing
  }

  lemma AttachShape(s: Split, x: Arrival, peers: Room, routing: seq<Routing>)
    requires Shape(s, peers, map[], [], routing)
    ensures var t := SplitStep(SplitStep(s, Registers(x)), Attaches(0));
      && Shape(SplitStep(s, Registers(x)), peers, map[], [x], routing)
      && (x.transferID == "" ==> Shape(t, RoomAttach(peers, x.agent, x.device, x.peer), map[], [], routing))
      && (x.transferID != "" ==> Shape(t, peers, map[x.transferID := RoomAttach(map[], x.agent, x.device, x.peer)], [], routing))
  {
    hide RoomAttach, PresenceAdd;
  }

  lemma UnplugShape(s: Split, b: string, d: string, before: Peer, after: Peer, t: string, routing: seq<Routing>)
    requires before != after
    requires Shape(s, map[b := map[d := before]], map[t := map[b := map[d := after]]], [], routing)
    ensures Shape(SplitStep(s, Unplugs(b, d, Some(before))), map[], map[t := map[b := map[d := after]]], [], routing)
  {
    hide AgentOnline, WillDrop, Removes;
    var own := map[b := map[d := after]];
    assert RoomDetach(own, b, d, Some(before)) == own;
    assert map[d := before] - {d} == map[];
  }

  lemma OneIsOnline(s: RoomState, b: string, d: string, p: Peer, t: string)
    requires s.peers == map[b := map[d := p]] || s.transferPeers == map[t := map[b := map[d := p]]]
    ensures AgentOnline(s, b)
  {
    assert d in map[d := p];
    assert s.transferPeers == map[t := map[b := map[d := p]]] ==> t in s.transferPeers && AgentIn(s.transferPeers[t], b);
  }

  lemma OfflineThoughOnline(m: Envelope, d: string, before: Peer, after: Peer)
    requires ValidateEnvelope(m).None? && m.toAgentID != "" && m.transferID != "" && before != after
    ensures var events := MissedEvents(m, d, before, after);
      && SplitRun(events[..3]).routing == [Routing(m, None)]
      && (forall n :: 2 <= n <= |events| ==> AgentOnline(SplitRun(events[..n]).rooms, m.toAgentID))
      && SplitRun(events).routing == []
  {
    hide ValidateEnvelope, SplitRun, SplitStep, AgentOnline, RoomAttach;
    var events := MissedEvents(m, d, before, after);
    var b, t := m.toAgentID, m.transferID;
    var alwaysOn, own, seeking := map[b := map[d := before]], map[b := map[d := after]], [Routing(m, None)];
    OneSocket(b, d, before);
    OneSocket(b, d, after);
    NothingShaped(events[..0]);
    OneMoreStep(events, 0);
    OneMoreStep(events, 1);
    AttachShape(SplitRun(events[..0]), Arrival("", b, d, before), map[], []);
    OneMoreStep(events, 2);
    LookShape(SplitRun(events[..2]), m, d, alwaysOn);
    OneMoreStep(events, 3);
    OneMoreStep(events, 4);
    AttachShape(SplitRun(events[..3]), Arrival(t, b, d, after), alwaysOn, seeking);
    OneMoreStep(events, 5);
    UnplugShape(SplitRun(events[..5]), b, d, before, after, t, seeking);
    OneMoreStep(events, 6);
    LookAgainShape(SplitRun(events[..6]), m, d, map[t := own]);
    forall n | 2 <= n <= |events| ensures AgentOnline(SplitRun(events[..n]).rooms, b) {
      assert n in {2, 3, 4, 5, 6, 7};
      OneIsOnline(SplitRun(events[..n]).rooms, b, d, if n < 6 then before else after, t);
    }
    assert events[..|events|] == events;
  }

  lemma OneSocket(b: string, d: string, p: Peer)
    ensures RoomAttach(map[], b, d, p) == map[b := map[d := p]]
  {
  }

  lemma NothingShaped(none: seq<SplitEvent>)
    requires none == []
    ensures Shape(SplitRun(none), map[], map[], [], [])
  {
  }

  lemma LookShape(s: Split, m: Envelope, d: string, peers: Room)
    requires ValidateEnvelope(m).None? && m.toAgentID != "" && Shape(s, peers, map[], [], [])
    ensures Shape(SplitStep(s, Looks(m, d)), peers, map[], [], [Routing(m, None)])
  {
    hide ValidateEnvelope;
  }

  lemma LookAgainShape(s: Split, m: Envelope, d: string, transferPeers: map<string, Room>)
    requires Shape(s, map[], transferPeers, [], [Routing(m, None)])
    ensures Shape(SplitStep(s, LooksAgain(0, d)), map[], transferPeers, [], [])
  {
  }
}
