// Rooms and presence when connecting and detaching are not one step each
// (internal/api/ws.go, internal/signaling/rooms.go).
module PresenceGaps {
  import opened Wrappers
  import opened Signaling
  import opened Rooms
  import opened RoomRuns
  import opened RoomSteps

  ghost predicate IsArriving(s: Split, a: string, d: string) {
    exists x :: x in s.arriving && x.agent == a && x.device == d
  }

  predicate IsLeaving(s: Split, a: string, d: string) { (a, d) in s.leaving }

  // Whether, at the device's last drop since its last registration, some socket
  // of it was attached, or registered and about to be.
  ghost function Spoiled(events: seq<SplitEvent>, a: string, d: string): bool {
    if events == [] then false
    else
      var s := SplitRun(events[..|events| - 1]);
      match events[|events| - 1]
      case Registers(x) => !(x.agent == a && x.device == d) && Spoiled(events[..|events| - 1], a, d)
      case Drops(k) =>
        if k < |s.leaving| && s.leaving[k] == (a, d) then DeviceOnline(s.rooms, a, d) || IsArriving(s, a, d)
        else Spoiled(events[..|events| - 1], a, d)
      case _ => Spoiled(events[..|events| - 1], a, d)
  }

  // What holds of every device at every time, spoiled or not.
  ghost predicate Balanced(s: Split, spoiled: bool, a: string, d: string) {
    var held := DeviceOnline(s.rooms, a, d) || IsArriving(s, a, d);
    && (Present(s.rooms, a, d) ==> held || IsLeaving(s, a, d))
    && (held ==> Present(s.rooms, a, d) || spoiled)
    && (spoiled ==> !Present(s.rooms, a, d) && (held || IsLeaving(s, a, d)))
  }

  // One event, for one device: how its sockets, its presence and what is under
  // way for it change.
  lemma RegisterEffect(s: Split, x: Arrival, a: string, d: string)
    ensures var t := SplitStep(s, Registers(x));
      var same := x.agent == a && x.device == d;
      && DeviceOnline(t.rooms, a, d) == DeviceOnline(s.rooms, a, d)
      && (Present(t.rooms, a, d) <==> same || Present(s.rooms, a, d))
      && (IsArriving(t, a, d) <==> same || IsArriving(s, a, d))
      && IsLeaving(t, a, d) == IsLeaving(s, a, d)
  {
    hide DeviceOnline;
    var t := SplitStep(s, Registers(x));
    SameSockets(t.rooms, s.rooms, a, d);
    assert x in t.arriving;
  }

  lemma AttachEffect(s: Split, k: nat, a: string, d: string)
    requires k < |s.arriving| && "" !in s.rooms.transferPeers
    ensures var t := SplitStep(s, Attaches(k));
      var same := s.arriving[k].agent == a && s.arriving[k].device == d;
      && (DeviceOnline(t.rooms, a, d) <==> same || DeviceOnline(s.rooms, a, d))
      && Present(t.rooms, a, d) == Present(s.rooms, a, d)
      && (IsArriving(t, a, d) ==> IsArriving(s, a, d))
      && (IsArriving(s, a, d) ==> same || IsArriving(t, a, d))
      && IsLeaving(t, a, d) == IsLeaving(s, a, d)
  {
    hide DeviceOnline, Connect, Holder, Without;
    var x := s.arriving[k];
    var c := Connect(s.rooms, x.transferID, x.agent, x.device, x.peer);
    var t := SplitStep(s, Attaches(k));
    SameSockets(t.rooms, c, a, d);
    ConnectedOnline(s.rooms, x.transferID, x.agent, x.device, x.peer, a, d);
    if y :| y in s.arriving && y.agent == a && y.device == d { WithoutOne(s.arriving, k, y); }
    if y :| y in t.arriving && y.agent == a && y.device == d { WithoutOne(s.arriving, k, y); }
  }

  lemma UnplugEffect(s: Split, a: string, d: string, p: Option<Peer>, x: string, y: string)
    requires NoEmptyMap(s.rooms)
    ensures var t := SplitStep(s, Unplugs(a, d, p));
      && (DeviceOnline(t.rooms, x, y) ==> DeviceOnline(s.rooms, x, y))
      && (DeviceOnline(s.rooms, x, y) ==> DeviceOnline(t.rooms, x, y) || IsLeaving(t, x, y))
      && Present(t.rooms, x, y) == Present(s.rooms, x, y)
      && IsArriving(t, x, y) == IsArriving(s, x, y)
      && (IsLeaving(s, x, y) ==> IsLeaving(t, x, y))
      && (IsLeaving(t, x, y) ==> IsLeaving(s, x, y) || !DeviceOnline(t.rooms, x, y))
  {
    hide DeviceOnline, Unplugged, Removes, Affected, NoEmptyMap;
    var u := Unplugged(s.rooms, a, d, p);
    var t := SplitStep(s, Unplugs(a, d, p));
    SameSockets(t.rooms, u, x, y);
    UnpluggedPresence(s.rooms, a, d, p);
    if x != a || y != d {
      UnpluggedDevice(s.rooms, a, d, p, x, y);
    } else {
      if DeviceOnline(u, a, d) { RemovedWasOnline(s.rooms, a, d, p); }
      if !Removes(s.rooms, a, d, p) { MissChangesNothing(s.rooms, a, d, p); }
    }
  }

  lemma UnpluggedPresence(s: RoomState, a: string, d: string, p: Option<Peer>)
    ensures Unplugged(s, a, d, p).presence == s.presence
  {
  }

  lemma DropEffect(s: Split, k: nat, a: string, d: string)
    requires k < |s.leaving|
    ensures var t := SplitStep(s, Drops(k));
      var same := s.leaving[k] == (a, d);
      && DeviceOnline(t.rooms, a, d) == DeviceOnline(s.rooms, a, d)
      && (Present(t.rooms, a, d) <==> Present(s.rooms, a, d) && !same)
      && IsArriving(t, a, d) == IsArriving(s, a, d)
      && (IsLeaving(t, a, d) ==> IsLeaving(s, a, d))
      && (IsLeaving(s, a, d) && !same ==> IsLeaving(t, a, d))
  {
    hide DeviceOnline, PresenceDrop, Without;
    SameSockets(SplitStep(s, Drops(k)).rooms, s.rooms, a, d);
    DroppedPresence(s.rooms.presence, s.leaving[k].0, s.leaving[k].1, a, d);
    WithoutOne(s.leaving, k, (a, d));
  }

  // ---- Over every run ----

  lemma {:induction false} SplitStaysBalanced(events: seq<SplitEvent>, a: string, d: string)
    ensures Balanced(SplitRun(events), Spoiled(events, a, d), a, d)
    decreases |events|
  {
    hide SplitStep, NoEmptyMap, DeviceOnline, Present, IsArriving, IsLeaving;
    if events == [] {
      NothingUnderWay(a, d);
    } else {
      var s := SplitRun(events[..|events| - 1]);
      SplitStaysBalanced(events[..|events| - 1], a, d);
      RunStaysProper(events[..|events| - 1]);
      NoEmptyKey(s.rooms);
      var e := events[|events| - 1];
      match e
      case Registers(x) => RegisterEffect(s, x, a, d);
      case Attaches(k) => if k < |s.arriving| { AttachEffect(s, k, a, d); AttachArrives(s, k, a, d); } else { Idles(s, e); }
      case Unplugs(b, c, p) => UnplugEffect(s, b, c, p, a, d);
      case Drops(k) => if k < |s.leaving| { DropEffect(s, k, a, d); } else { Idles(s, e); }
      case _ => RoutingEffect(s, e, a, d);
    }
  }

  lemma AttachArrives(s: Split, k: nat, a: string, d: string)
    requires k < |s.arriving|
    ensures s.arriving[k].agent == a && s.arriving[k].device == d ==> IsArriving(s, a, d)
  {
    assert s.arriving[k] in s.arriving;
  }

  lemma RoutingEffect(s: Split, e: SplitEvent, a: string, d: string)
    requires e.Looks? || e.LooksAgain? || e.Tracks?
    ensures var t := SplitStep(s, e);
      && DeviceOnline(t.rooms, a, d) == DeviceOnline(s.rooms, a, d) && Present(t.rooms, a, d) == Present(s.rooms, a, d)
      && IsArriving(t, a, d) == IsArriving(s, a, d) && IsLeaving(t, a, d) == IsLeaving(s, a, d)
  {
    hide DeviceOnline, SplitStep;
    RoutingIsApart(s, e);
    SameSockets(SplitStep(s, e).rooms, s.rooms, a, d);
  }

  lemma NothingUnderWay(a: string, d: string)
    ensures Balanced(NOTHING_YET, false, a, d)
  {
  }

  // Over every run of these steps, once nothing is under way for a device, it
  // is present exactly when a socket of it is attached: if and only if, at its
  // last drop since its last registration, none was attached or about to be.
  // Without that it is the presence that is lost; a device is never present
  // without a socket.
  lemma PresenceAgreesExactly(events: seq<SplitEvent>, a: string, d: string)
    requires !IsArriving(SplitRun(events), a, d) && !IsLeaving(SplitRun(events), a, d)
    ensures var s := SplitRun(events).rooms;
      && ((Present(s, a, d) <==> DeviceOnline(s, a, d)) <==> !Spoiled(events, a, d))
      && (Present(s, a, d) ==> DeviceOnline(s, a, d))
  {
    hide SplitRun, Spoiled, DeviceOnline, Present, IsArriving, IsLeaving;
    SplitStaysBalanced(events, a, d);
  }
}
