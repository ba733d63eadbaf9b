// The rooms with the lock free wherever the program lets go of it: a socket is
// registered, then attached; a socket is unplugged, then, if that was the
// device's last, its presence is dropped; a message's target is looked up, then
// its transfer is tracked (internal/api/ws.go, internal/signaling/rooms.go).
module RoomSteps {
  import opened Wrappers
  import opened Signaling
  import opened Rooms
  import opened RoomRuns

  // A connection that has been registered and is still to be attached.
  datatype Arrival = Arrival(transferID: string, agent: string, device: string, peer: Peer)

  // A message whose target is still sought among the always-on sockets, or has
  // been found, with its socket, and is still to be tracked.
  datatype Routing = Routing(message: Envelope, found: Option<Peer>)

  // The rooms, the arrivals and routings under way, and the presences still to
  // be dropped.
  datatype Split = Split(rooms: RoomState, arriving: seq<Arrival>, leaving: seq<(string, string)>, routing: seq<Routing>)

  const NOTHING_YET: Split := Split(NO_ROOMS, [], [], [])

  datatype SplitEvent =
    | Registers(arrival: Arrival)
    | Attaches(which: nat)
    | Unplugs(agent: string, device: string, gone: Option<Peer>)
    | Drops(which: nat)
    | Looks(envelope: Envelope, device: string)
    | LooksAgain(which: nat, device: string)
    | Tracks(which: nat)

  function Without<T>(l: seq<T>, k: nat): seq<T>
    requires k < |l|
  {
    l[..k] + l[k + 1..]
  }

  // Any socket of an agent, as ranging over its devices finds one first. A
  // device it does not have cannot be the first, and nothing happens.
  predicate FirstCanBe(room: Room, agent: string, device: string) { AgentIn(room, agent) ==> device in room[agent] }

  function First(room: Room, agent: string, device: string): Option<Peer>
    requires FirstCanBe(room, agent, device)
  {
    if AgentIn(room, agent) then Some(room[agent][device]) else None
  }

  // The transfer's own sockets. A message without a transfer is looked up among
  // the always-on ones only.
  function OwnRoom(s: RoomState, transferID: string): Room {
    if transferID != "" && transferID in s.transferPeers then s.transferPeers[transferID] else map[]
  }

  // Route's checks and its lookup among the transfer's own sockets.
  function Look(s: Split, m: Envelope, device: string): Split {
    var room := OwnRoom(s.rooms, m.transferID);
    if ValidateEnvelope(m).Some? || m.toAgentID == "" || !FirstCanBe(room, m.toAgentID, device) then s
    else s.(routing := s.routing + [Routing(m, First(room, m.toAgentID, device))])
  }

  // Its lookup among the always-on ones: what is not found there is refused.
  function LookAgain(s: Split, k: nat, device: string): Split {
    if k >= |s.routing| || s.routing[k].found.Some? || !FirstCanBe(s.rooms.peers, s.routing[k].message.toAgentID, device) then s
    else
      var found := First(s.rooms.peers, s.routing[k].message.toAgentID, device);
      s.(routing := if found.Some? then s.routing[k := s.routing[k].(found := found)] else Without(s.routing, k))
  }

  predicate Tracking(s: Split, e: SplitEvent) { e.Tracks? && e.which < |s.routing| && s.routing[e.which].found.Some? }

  function Tracked(s: Split, k: nat): Split
    requires k < |s.routing|
  {
    var m := s.routing[k].message;
    s.(rooms := s.rooms.(active := TrackActive(s.rooms.active, m.transferID, m.fromAgentID, m.toAgentID)),
       routing := Without(s.routing, k))
  }

  function SplitStep(s: Split, e: SplitEvent): Split {
    match e
    case Registers(x) =>
      s.(rooms := s.rooms.(presence := PresenceAdd(s.rooms.presence, x.agent, x.device)), arriving := s.arriving + [x])
    case Attaches(k) =>
      if k >= |s.arriving| then s
      else
        var x := s.arriving[k];
        s.(rooms := Connect(s.rooms, x.transferID, x.agent, x.device, x.peer).(presence := s.rooms.presence),
           arriving := Without(s.arriving, k))
    case Unplugs(a, d, p) =>
      s.(rooms := Unplug(s.rooms, a, d, p),
         leaving := if WillDrop(s.rooms, a, d, p) then s.leaving + [(a, d)] else s.leaving)
    case Drops(k) =>
      if k >= |s.leaving| then s
      else
        s.(rooms := s.rooms.(presence := PresenceDrop(s.rooms.presence, s.leaving[k].0, s.leaving[k].1)),
           leaving := Without(s.leaving, k))
    case Looks(m, d) => Look(s, m, d)
    case LooksAgain(k, d) => LookAgain(s, k, d)
    case Tracks(k) => if Tracking(s, e) then Tracked(s, k) else s
  }

  function SplitRun(events: seq<SplitEvent>): Split {
    if events == [] then NOTHING_YET else SplitStep(SplitRun(events[..|events| - 1]), events[|events| - 1])
  }

  lemma WithoutOne<T>(l: seq<T>, k: nat, x: T)
    requires k < |l|
    ensures x in Without(l, k) ==> x in l
    ensures x in l && x != l[k] ==> x in Without(l, k)
  {
    if x in l && x != l[k] {
      var i :| 0 <= i < |l| && l[i] == x;
      assert i < k ==> Without(l, k)[i] == x;
      assert i > k ==> Without(l, k)[i - 1] == x;
    }
  }

  // The routing of one message with nothing in between.
  function RoutedAlone(s: Split, m: Envelope, own: string, alwaysOn: string): Split {
    var looked := SplitStep(s, Looks(m, own));
    var again := SplitStep(looked, LooksAgain(|s.routing|, alwaysOn));
    SplitStep(again, Tracks(|s.routing|))
  }

  // It is the one step that RoomRuns takes it for.
  lemma RoutedAloneIsRoute(s: Split, m: Envelope, own: string, alwaysOn: string)
    requires FirstCanBe(OwnRoom(s.rooms, m.transferID), m.toAgentID, own) && FirstCanBe(s.rooms.peers, m.toAgentID, alwaysOn)
    ensures RoutedAlone(s, m, own, alwaysOn) == s.(rooms := Route(s.rooms, m))
  {
    hide ValidateEnvelope, TrackActive;
    var n := |s.routing|;
    if ValidateEnvelope(m).None? && m.toAgentID != "" {
      var looked := SplitStep(s, Looks(m, own));
      var again := SplitStep(looked, LooksAgain(n, alwaysOn));
      assert Without(looked.routing, n) == s.routing;
      assert Targets(s.rooms, m) != map[] ==> |again.routing| == n + 1 && again.routing[..n] == s.routing;
      assert Targets(s.rooms, m) != map[] ==> Without(again.routing, n) == s.routing;
    }
    assert TrackActive(s.rooms.active, "", m.fromAgentID, m.toAgentID) == s.rooms.active by { NoTransferNoTrack(s.rooms.active, m); }
  }

  lemma NoTransferNoTrack(active: map<string, set<string>>, m: Envelope)
    ensures TrackActive(active, "", m.fromAgentID, m.toAgentID) == active
  {
  }

  // ---- What every single step keeps ----

  // No map is kept for nothing, and what is routed names its target.
  predicate Proper(s: Split) { NoEmptyMap(s.rooms) && forall r :: r in s.routing ==> r.message.toAgentID != "" }

  lemma TrackedProperly(active: map<string, set<string>>, t: string, from: string, to: string)
    requires ProperActive(active) && to != ""
    ensures ProperActive(TrackActive(active, t, from, to))
  {
    var agents := (if t in active then active[t] else {}) + Named(from) + Named(to);
    assert to in agents;
  }

  lemma UnplugKeepsMaps(s: RoomState, a: string, d: string, p: Option<Peer>)
    requires NoEmptyMap(s)
    ensures NoEmptyMap(Unplug(s, a, d, p))
  {
    hide Removes, AgentOnline, RoomDetach, TransfersDetach, NoEmptyRoom, NoEmptyRooms, NoEmptySet;
    RoomDetachKeeps(s.peers, a, d, p);
    RoomsDetachKeep(s.transferPeers, a, d, p);
  }

  lemma LooksStayProper(s: Split, e: SplitEvent)
    requires Proper(s) && (e.Looks? || e.LooksAgain?)
    ensures Proper(SplitStep(s, e))
  {
    hide NoEmptyMap, ValidateEnvelope, AgentIn;
    match e
    case Looks(m, d) =>
    case LooksAgain(k, d) =>
      if k < |s.routing| {
        forall r | r in Without(s.routing, k) ensures r in s.routing { WithoutOne(s.routing, k, r); }
      }
    case _ =>
  }

  lemma StepStaysProper(s: Split, e: SplitEvent)
    requires Proper(s)
    ensures Proper(SplitStep(s, e))
  {
    hide NoEmptyRoom, NoEmptyRooms, Connect, Look, LookAgain, Without, PresenceAdd, PresenceDrop, TrackActive, ProperActive;
    match e
    case Registers(x) => PresenceAddKeeps(s.rooms.presence, x.agent, x.device);
    case Attaches(k) =>
      if k < |s.arriving| {
        var x := s.arriving[k];
        ConnectKeepsMaps(s.rooms, x.transferID, x.agent, x.device, x.peer);
      }
    case Unplugs(a, d, p) => UnplugKeepsMaps(s.rooms, a, d, p);
    case Drops(k) => if k < |s.leaving| { PresenceDropKeeps(s.rooms.presence, s.leaving[k].0, s.leaving[k].1); }
    case Looks(_, _) => LooksStayProper(s, e);
    case LooksAgain(_, _) => LooksStayProper(s, e);
    case Tracks(k) =>
      if Tracking(s, e) {
        var m := s.routing[k].message;
        TrackedProperly(s.rooms.active, m.transferID, m.fromAgentID, m.toAgentID);
        forall r | r in Without(s.routing, k) ensures r in s.routing { WithoutOne(s.routing, k, r); }
      }
  }

  lemma {:induction false} RunStaysProper(events: seq<SplitEvent>)
    ensures Proper(SplitRun(events))
    decreases |events|
  {
    hide SplitStep, NoEmptyMap;
    if events == [] {
      NoRoomsAtFirst();
    } else {
      RunStaysProper(events[..|events| - 1]);
      StepStaysProper(SplitRun(events[..|events| - 1]), events[|events| - 1]);
    }
  }

  lemma NoEmptyKey(s: RoomState)
    requires NoEmptyMap(s)
    ensures "" !in s.transferPeers
  {
    hide NoEmptyRoom;
  }

  // The steps of routing touch neither sockets nor presence.
  lemma RoutingIsApart(s: Split, e: SplitEvent)
    requires e.Looks? || e.LooksAgain? || e.Tracks?
    ensures var t := SplitStep(s, e);
      && t.arriving == s.arriving && t.leaving == s.leaving
      && t.rooms == s.rooms.(active := t.rooms.active)
      && (t.rooms.active == s.rooms.active || Tracking(s, e))
  {
    hide ValidateEnvelope, TrackActive, AgentIn;
  }

  lemma Idles(s: Split, e: SplitEvent)
    requires (e.Attaches? && e.which >= |s.arriving|) || (e.Drops? && e.which >= |s.leaving|)
    ensures SplitStep(s, e) == s
  {
  }

  lemma ConnectedOnline(s: RoomState, t: string, a: string, d: string, p: Peer, x: string, y: string)
    requires "" !in s.transferPeers
    ensures DeviceOnline(Connect(s, t, a, d, p), x, y) <==> DeviceOnline(s, x, y) || (x == a && y == d)
  {
    hide DeviceOnline, Connect, Holder;
    var s' := Connect(s, t, a, d, p);
    ConnectedKeys(s, t, a, d, p);
    OnlineMeansHeld(s, x, y);
    OnlineMeansHeld(s', x, y);
    forall u ensures Holder(s', Slot(u, x, y)) == if Slot(u, x, y) == Slot(t, a, d) then Some(p) else Holder(s, Slot(u, x, y)) {
      ConnectedHolder(s, t, a, d, p, Slot(u, x, y));
    }
    assert x == a && y == d ==> Holder(s', Slot(t, x, y)).Some?;
  }
}
