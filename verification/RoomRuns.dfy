// What holds of the signaling rooms after any run of connects, detaches and
// routed messages, each taken as one step. RoomSteps, PresenceGaps,
// LookupGaps and ActiveGaps take these steps apart.
module RoomRuns {
  import opened Wrappers
  import opened Signaling
  import opened Rooms

  datatype Event =
    | Connects(transferID: string, agent: string, device: string, peer: Peer)
    | Detaches(agent: string, device: string, gone: Option<Peer>)
    | Routes(envelope: Envelope)

  function Step(s: RoomState, e: Event): RoomState {
    match e
    case Connects(t, a, d, p) => Connect(s, t, a, d, p)
    case Detaches(a, d, p) => Detach(s, a, d, p)
    case Routes(m) => Route(s, m)
  }

  function Run(events: seq<Event>): RoomState {
    if events == [] then NO_ROOMS else Step(Run(events[..|events| - 1]), events[|events| - 1])
  }

  // ---- A simple reading of the nested maps ----

  // Each slot on its own: the last socket connected there, unless it has been
  // detached since, by name or whatever it was.
  function SlotPeer(events: seq<Event>, x: Slot): Option<Peer> {
    if events == [] then None
    else
      var before := SlotPeer(events[..|events| - 1], x);
      match events[|events| - 1]
      case Connects(t, a, d, p) => if x == Slot(t, a, d) then Some(p) else before
      case Detaches(a, d, p) => if x.agent == a && x.device == d && (p.None? || p == before) then None else before
      case Routes(_) => before
  }

  lemma AttachedHeld(room: Room, a: string, d: string, p: Peer, agent: string, device: string)
    ensures Held(RoomAttach(room, a, d, p), agent, device)
            == if agent == a && device == d then Some(p) else Held(room, agent, device)
  {
  }

  lemma DetachedHeld(room: Room, a: string, d: string, p: Option<Peer>, agent: string, device: string)
    ensures Held(RoomDetach(room, a, d, p), agent, device)
            == if agent == a && device == d && (p.None? || p == Held(room, a, d)) then None else Held(room, agent, device)
  {
    if a in room {
      assert device != d && device in room[a] ==> device in room[a] - {d};
      assert device in room[a] ==> room[a] != map[];
    }
  }

  lemma ConnectedHolder(s: RoomState, t: string, a: string, d: string, p: Peer, x: Slot)
    ensures Holder(Connect(s, t, a, d, p), x) == if x == Slot(t, a, d) then Some(p) else Holder(s, x)
  {
    hide RoomAttach, Held;
    AttachedHeld(RoomOf(s, t), a, d, p, x.agent, x.device);
  }

  lemma UnpluggedHolder(s: RoomState, a: string, d: string, p: Option<Peer>, x: Slot)
    ensures Holder(Unplugged(s, a, d, p), x)
            == if x.agent == a && x.device == d && (p.None? || p == Holder(s, x)) then None else Holder(s, x)
  {
    hide RoomDetach, Held;
    var room := RoomOf(s, x.transferID);
    DetachedHeld(room, a, d, p, x.agent, x.device);
    NothingHeld(x.agent, x.device);
    if a !in room { NothingToDetach(room, a, d, p); }
    UnpluggedRoom(s, a, d, p, x.transferID);
  }

  lemma NothingHeld(agent: string, device: string)
    ensures Held(map[], agent, device) == None
  {
  }

  lemma NothingToDetach(room: Room, a: string, d: string, p: Option<Peer>)
    requires a !in room
    ensures RoomDetach(room, a, d, p) == room
  {
  }

  lemma UnpluggedRoom(s: RoomState, a: string, d: string, p: Option<Peer>, t: string)
    ensures RoomOf(Unplugged(s, a, d, p), t) == RoomDetach(RoomOf(s, t), a, d, p)
  {
    if t != "" && t in s.transferPeers && a !in s.transferPeers[t] {
      NothingToDetach(s.transferPeers[t], a, d, p);
    }
  }

  lemma DetachedHolder(s: RoomState, a: string, d: string, p: Option<Peer>, x: Slot)
    ensures Holder(Detach(s, a, d, p), x) == Holder(Unplugged(s, a, d, p), x)
  {
    hide Removes, AgentOnline, DeviceOnline;
  }

  // The nested maps, with their deletions, are exactly the independent slots.
  lemma {:induction false} RoomsAreSlots(events: seq<Event>, x: Slot)
    ensures Holder(Run(events), x) == SlotPeer(events, x)
    decreases |events|
  {
    hide Connect, Detach, Route, Holder, Unplugged;
    if events == [] {
      NothingConnected(x);
    } else {
      var s := Run(events[..|events| - 1]);
      RoomsAreSlots(events[..|events| - 1], x);
      match events[|events| - 1]
      case Connects(t, a, d, p) => ConnectedHolder(s, t, a, d, p, x);
      case Detaches(a, d, p) =>
        UnpluggedHolder(s, a, d, p, x);
        DetachedHolder(s, a, d, p, x);
      case Routes(m) => RoutedHolder(s, m, x);
    }
  }

  lemma NothingConnected(x: Slot)
    ensures Holder(NO_ROOMS, x) == None
  {
  }

  lemma RoutedHolder(s: RoomState, m: Envelope, x: Slot)
    ensures Holder(Route(s, m), x) == Holder(s, x)
  {
    hide RouteError;
  }

  // So detaching a socket that has been replaced removes nothing: the newer
  // one stays, there and everywhere.
  lemma StaleDetachIsHarmless(events: seq<Event>, agent: string, device: string, stale: Peer, x: Slot)
    requires SlotPeer(events, x) != Some(stale)
    ensures Holder(Run(events + [Detaches(agent, device, Some(stale))]), x) == SlotPeer(events, x)
  {
    hide Run, Holder;
    var all := events + [Detaches(agent, device, Some(stale))];
    assert all[..|all| - 1] == events;
    RoomsAreSlots(all, x);
  }

  // ---- Rooms and presence ----

  predicate NoEmptyRoom(room: Room) { forall a :: a in room ==> room[a] != map[] }

  predicate NoEmptyRooms(rooms: map<string, Room>) {
    forall t :: t in rooms ==> t != "" && rooms[t] != map[] && NoEmptyRoom(rooms[t])
  }

  predicate NoEmptySet(m: map<string, set<string>>) { forall k :: k in m ==> m[k] != {} }

  predicate ProperActive(active: map<string, set<string>>) {
    forall t :: t in active ==> t != "" && active[t] != {} && "" !in active[t]
  }

  // No map is kept for nothing.
  predicate NoEmptyMap(s: RoomState) {
    NoEmptyRoom(s.peers) && NoEmptyRooms(s.transferPeers) && NoEmptySet(s.presence) && ProperActive(s.active)
  }

  // A device is present exactly when some socket of it is attached.
  ghost predicate PresenceAgrees(s: RoomState) {
    forall a, d :: Present(s, a, d) <==> DeviceOnline(s, a, d)
  }

  lemma OnlineMeansHeld(s: RoomState, a: string, d: string)
    requires "" !in s.transferPeers
    ensures DeviceOnline(s, a, d) <==> exists t :: Holder(s, Slot(t, a, d)).Some?
  {
    if DeviceIn(s.peers, a, d) {
      assert Holder(s, Slot("", a, d)).Some?;
    } else if DeviceOnline(s, a, d) {
      var t :| t in s.transferPeers && DeviceIn(s.transferPeers[t], a, d);
      assert Holder(s, Slot(t, a, d)).Some?;
    }
    if t :| Holder(s, Slot(t, a, d)).Some? {
      assert t != "" ==> t in s.transferPeers && DeviceIn(s.transferPeers[t], a, d);
    }
  }

  lemma RoomAttachKeeps(room: Room, a: string, d: string, p: Peer)
    requires NoEmptyRoom(room)
    ensures NoEmptyRoom(RoomAttach(room, a, d, p)) && RoomAttach(room, a, d, p) != map[]
  {
    assert d in RoomAttach(room, a, d, p)[a];
    assert a in RoomAttach(room, a, d, p);
  }

  lemma PresenceAddKeeps(m: map<string, set<string>>, a: string, d: string)
    requires NoEmptySet(m)
    ensures NoEmptySet(PresenceAdd(m, a, d))
  {
    assert d in PresenceAdd(m, a, d)[a];
  }

  lemma ConnectKeepsMaps(s: RoomState, t: string, a: string, d: string, p: Peer)
    requires NoEmptyMap(s)
    ensures NoEmptyMap(Connect(s, t, a, d, p))
  {
    hide RoomAttach, PresenceAdd, NoEmptyRoom, NoEmptySet;
    EmptyRoomIsFine();
    RoomAttachKeeps(RoomOf(s, t), a, d, p);
    PresenceAddKeeps(s.presence, a, d);
  }

  lemma EmptyRoomIsFine()
    ensures NoEmptyRoom(map[])
  {
  }

  lemma RoomDetachKeeps(room: Room, a: string, d: string, p: Option<Peer>)
    requires NoEmptyRoom(room)
    ensures NoEmptyRoom(RoomDetach(room, a, d, p))
    ensures !RoomHit(room, a, d, p) ==> RoomDetach(room, a, d, p) == room
  {
  }

  lemma RoomsDetachKeep(rooms: map<string, Room>, a: string, d: string, p: Option<Peer>)
    requires NoEmptyRooms(rooms)
    ensures NoEmptyRooms(TransfersDetach(rooms, a, d, p))
    ensures !TransfersHit(rooms, a, d, p) ==> TransfersDetach(rooms, a, d, p) == rooms
  {
    hide RoomDetach, NoEmptyRoom, RoomHit;
    forall t | t in rooms
      ensures NoEmptyRoom(RoomDetach(rooms[t], a, d, p))
      ensures !RoomHit(rooms[t], a, d, p) ==> RoomDetach(rooms[t], a, d, p) == rooms[t]
      ensures a !in rooms[t] ==> RoomDetach(rooms[t], a, d, p) == rooms[t]
    {
      RoomDetachKeeps(rooms[t], a, d, p);
      if a !in rooms[t] { NothingToDetach(rooms[t], a, d, p); }
    }
  }

  lemma PresenceDropKeeps(m: map<string, set<string>>, a: string, d: string)
    requires NoEmptySet(m)
    ensures NoEmptySet(PresenceDrop(m, a, d))
  {
  }

  lemma DetachKeepsMaps(s: RoomState, a: string, d: string, p: Option<Peer>)
    requires NoEmptyMap(s)
    ensures NoEmptyMap(Detach(s, a, d, p))
  {
    hide Removes, AgentOnline, DeviceOnline, RoomDetach, TransfersDetach, PresenceDrop, NoEmptyRoom, NoEmptyRooms, NoEmptySet;
    RoomDetachKeeps(s.peers, a, d, p);
    RoomsDetachKeep(s.transferPeers, a, d, p);
    PresenceDropKeeps(s.presence, a, d);
  }

  // A detach that hits nothing changes nothing.
  lemma MissChangesNothing(s: RoomState, a: string, d: string, p: Option<Peer>)
    requires NoEmptyMap(s) && !Removes(s, a, d, p)
    ensures Unplugged(s, a, d, p) == s && Detach(s, a, d, p) == s
  {
    hide AgentOnline, DeviceOnline, RoomDetach, TransfersDetach, PresenceDrop, NoEmptyRoom, NoEmptyRooms,
         NoEmptySet, RoomHit, TransfersHit;
    RoomDetachKeeps(s.peers, a, d, p);
    RoomsDetachKeep(s.transferPeers, a, d, p);
    assert s.active - {} == s.active;
  }

  lemma RouteKeepsMaps(s: RoomState, m: Envelope)
    requires NoEmptyMap(s)
    ensures NoEmptyMap(Route(s, m))
  {
    hide ValidateEnvelope, Targets;
  }

  lemma ConnectKeepsPresence(s: RoomState, t: string, a: string, d: string, p: Peer)
    requires NoEmptyMap(s) && PresenceAgrees(s)
    ensures PresenceAgrees(Connect(s, t, a, d, p))
  {
    hide DeviceOnline, Connect, Holder;
    ConnectKeepsMaps(s, t, a, d, p);
    var s' := Connect(s, t, a, d, p);
    forall x, y ensures Present(s', x, y) <==> DeviceOnline(s', x, y) {
      OnlineMeansHeld(s, x, y);
      OnlineMeansHeld(s', x, y);
      forall u ensures Holder(s', Slot(u, x, y)) == if Slot(u, x, y) == Slot(t, a, d) then Some(p) else Holder(s, Slot(u, x, y)) {
        ConnectedHolder(s, t, a, d, p, Slot(u, x, y));
      }
      assert x == a && y == d ==> Holder(s', Slot(t, x, y)).Some?;
      ConnectedPresence(s, t, a, d, p, x, y);
      assert Present(s, x, y) <==> DeviceOnline(s, x, y);
    }
  }

  lemma ConnectedPresence(s: RoomState, t: string, a: string, d: string, p: Peer, x: string, y: string)
    ensures Present(Connect(s, t, a, d, p), x, y) <==> Present(s, x, y) || (x == a && y == d)
  {
    hide RoomAttach;
  }

  lemma UnpluggedDevice(s: RoomState, a: string, d: string, p: Option<Peer>, x: string, y: string)
    requires NoEmptyMap(s) && (x != a || y != d)
    ensures DeviceOnline(Unplugged(s, a, d, p), x, y) == DeviceOnline(s, x, y)
  {
    hide DeviceOnline, Unplugged, Holder, NoEmptyRoom, NoEmptySet;
    OnlineMeansHeld(s, x, y);
    UnpluggedKeepsKeys(s, a, d, p);
    OnlineMeansHeld(Unplugged(s, a, d, p), x, y);
    forall u ensures Holder(Unplugged(s, a, d, p), Slot(u, x, y)) == Holder(s, Slot(u, x, y)) {
      UnpluggedHolder(s, a, d, p, Slot(u, x, y));
    }
  }

  lemma UnpluggedKeepsKeys(s: RoomState, a: string, d: string, p: Option<Peer>)
    ensures Unplugged(s, a, d, p).transferPeers.Keys <= s.transferPeers.Keys
  {
  }

  lemma DetachKeepsPresence(s: RoomState, a: string, d: string, p: Option<Peer>)
    requires NoEmptyMap(s) && PresenceAgrees(s)
    ensures PresenceAgrees(Detach(s, a, d, p))
  {
    hide DeviceOnline, Unplugged, Removes, NoEmptyMap, Affected;
    if !Removes(s, a, d, p) {
      MissChangesNothing(s, a, d, p);
    } else {
      var s' := Detach(s, a, d, p);
      var u := Unplugged(s, a, d, p);
      forall x, y ensures Present(s', x, y) <==> DeviceOnline(s', x, y) {
        assert Present(s, x, y) <==> DeviceOnline(s, x, y);
        SameSockets(s', u, x, y);
        DroppedPresence(s.presence, a, d, x, y);
        if x != a || y != d {
          UnpluggedDevice(s, a, d, p, x, y);
        } else if DeviceOnline(u, a, d) {
          RemovedWasOnline(s, a, d, p);
        }
      }
    }
  }

  lemma DroppedPresence(m: map<string, set<string>>, a: string, d: string, x: string, y: string)
    ensures x in PresenceDrop(m, a, d) && y in PresenceDrop(m, a, d)[x] <==> x in m && y in m[x] && !(x == a && y == d)
  {
    if a in m && y in m[a] && y != d { assert y in m[a] - {d}; }
  }

  lemma RemovedWasOnline(s: RoomState, a: string, d: string, p: Option<Peer>)
    requires DeviceOnline(Unplugged(s, a, d, p), a, d)
    ensures DeviceOnline(s, a, d)
  {
    UnpluggedRoom(s, a, d, p, "");
  }

  lemma NoRoomsAtFirst()
    ensures NoEmptyMap(NO_ROOMS) && PresenceAgrees(NO_ROOMS) && ActiveAreOnline(NO_ROOMS)
  {
  }

  // Over any run of connects and detaches, of any sockets and in any order, no
  // empty map is left behind, and a device is present exactly when a socket of
  // it, always-on or of some transfer, is attached.
  lemma {:induction false} RoomsAgreeWithPresence(events: seq<Event>)
    ensures NoEmptyMap(Run(events)) && PresenceAgrees(Run(events))
    decreases |events|
  {
    hide Connect, Detach, Route, NoEmptyMap, PresenceAgrees;
    if events == [] {
      NoRoomsAtFirst();
    } else {
      var s := Run(events[..|events| - 1]);
      RoomsAgreeWithPresence(events[..|events| - 1]);
      match events[|events| - 1]
      case Connects(t, a, d, p) =>
        ConnectKeepsMaps(s, t, a, d, p);
        ConnectKeepsPresence(s, t, a, d, p);
      case Detaches(a, d, p) =>
        DetachKeepsMaps(s, a, d, p);
        DetachKeepsPresence(s, a, d, p);
      case Routes(m) =>
        RouteKeepsMaps(s, m);
        RouteKeepsPresence(s, m);
    }
  }

  lemma RouteKeepsPresence(s: RoomState, m: Envelope)
    requires PresenceAgrees(s)
    ensures PresenceAgrees(Route(s, m))
  {
    hide DeviceOnline, RouteError;
    forall x, y ensures DeviceOnline(Route(s, m), x, y) == DeviceOnline(s, x, y) { SameSockets(Route(s, m), s, x, y); }
  }

  // In the slots' own terms.
  lemma PresentMeansConnected(events: seq<Event>, agent: string, device: string)
    ensures Present(Run(events), agent, device) <==> exists t :: SlotPeer(events, Slot(t, agent, device)).Some?
  {
    hide Run, SlotPeer, Holder, Present, DeviceOnline;
    RoomsAgreeWithPresence(events);
    OnlineMeansHeld(Run(events), agent, device);
    forall t ensures Holder(Run(events), Slot(t, agent, device)) == SlotPeer(events, Slot(t, agent, device)) {
      RoomsAreSlots(events, Slot(t, agent, device));
    }
    assert Present(Run(events), agent, device) <==> DeviceOnline(Run(events), agent, device);
  }

  // ---- Active transfers ----

  // Every agent of a transfer under way has a socket attached.
  ghost predicate ActiveAreOnline(s: RoomState) {
    forall t, a :: t in s.active && a in s.active[t] ==> AgentOnline(s, a)
  }

  lemma AgentOnlineByDevice(s: RoomState, a: string)
    ensures AgentOnline(s, a) <==> exists d :: DeviceOnline(s, a, d)
  {
    if AgentIn(s.peers, a) {
      var d :| d in s.peers[a];
      assert DeviceOnline(s, a, d);
    } else if AgentInTransfers(s.transferPeers, a) {
      var t :| t in s.transferPeers && AgentIn(s.transferPeers[t], a);
      var d :| d in s.transferPeers[t][a];
      assert DeviceIn(s.transferPeers[t], a, d);
      assert DeviceOnline(s, a, d);
    }
    if d :| DeviceOnline(s, a, d) {
      if !DeviceIn(s.peers, a, d) {
        var t :| t in s.transferPeers && DeviceIn(s.transferPeers[t], a, d);
        assert AgentIn(s.transferPeers[t], a);
      }
    }
  }

  lemma ConnectedKeys(s: RoomState, t: string, a: string, d: string, p: Peer)
    requires "" !in s.transferPeers
    ensures "" !in Connect(s, t, a, d, p).transferPeers && Connect(s, t, a, d, p).active == s.active
  {
    hide RoomAttach, PresenceAdd;
  }

  // Unplugging a device takes only its own agent offline, and none online.
  lemma UnpluggedAgent(s: RoomState, a: string, d: string, p: Option<Peer>, b: string)
    requires NoEmptyMap(s)
    ensures var u := Unplugged(s, a, d, p);
      && (AgentOnline(u, b) ==> AgentOnline(s, b))
      && (b != a && AgentOnline(s, b) ==> AgentOnline(u, b))
  {
    hide AgentOnline, DeviceOnline, Unplugged, NoEmptyMap;
    var u := Unplugged(s, a, d, p);
    AgentOnlineByDevice(s, b);
    AgentOnlineByDevice(u, b);
    if x :| DeviceOnline(u, b, x) {
      if b == a && x == d { RemovedWasOnline(s, a, d, p); } else { UnpluggedDevice(s, a, d, p, b, x); }
      assert DeviceOnline(s, b, x);
    }
    if b != a && AgentOnline(s, b) {
      var x :| DeviceOnline(s, b, x);
      UnpluggedDevice(s, a, d, p, b, x);
      assert DeviceOnline(u, b, x);
    }
  }

  lemma HitIsOnline(s: RoomState, a: string, d: string, p: Option<Peer>)
    requires NoEmptyMap(s) && Removes(s, a, d, p)
    ensures AgentOnline(s, a)
  {
    if !RoomHit(s.peers, a, d, p) {
      var t :| t in s.transferPeers && RoomHit(s.transferPeers[t], a, d, p);
      assert AgentIn(s.transferPeers[t], a);
    }
  }

  // A detach takes a transfer out of the active set exactly when the detached
  // agent is one of the transfer's and has just lost its last socket. These
  // are the transfers the disconnect callback is called for.
  lemma DeparturesExactly(s: RoomState, a: string, d: string, p: Option<Peer>, t: string)
    requires NoEmptyMap(s) && t in s.active
    ensures var s' := Detach(s, a, d, p);
      && (t !in s'.active <==> a in s.active[t] && AgentOnline(s, a) && !AgentOnline(s', a))
      && (t !in s'.active <==> t in Affected(s, a, d, p))
      && (t in s'.active ==> s'.active[t] == s.active[t])
  {
    hide AgentOnline, DeviceOnline, Unplugged, NoEmptyMap, Removes;
    if Removes(s, a, d, p) {
      HitIsOnline(s, a, d, p);
    } else {
      MissChangesNothing(s, a, d, p);
    }
    SameSockets(Detach(s, a, d, p), Unplugged(s, a, d, p), a, d);
  }

  // Nothing else takes a transfer, or an agent of one, out of it.
  lemma OnlyDetachesDepart(s: RoomState, e: Event, t: string)
    requires !e.Detaches? && t in s.active
    ensures t in Step(s, e).active && s.active[t] <= Step(s, e).active[t]
  {
    hide RoomAttach, PresenceAdd, RouteError;
  }
}
