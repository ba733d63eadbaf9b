// Active transfers and who is online when the lock is free between finding a
// message's target and tracking its transfer (internal/signaling/rooms.go).
module ActiveGaps {
  import opened Wrappers
  import opened Signaling
  import opened Rooms
  import opened RoomRuns
  import opened RoomSteps
  import opened LookupGaps

  predicate IsActive(s: Split, t: string, b: string) { t in s.rooms.active && b in s.rooms.active[t] }

  // The message makes this agent one of the transfer's.
  predicate NamesIn(m: Envelope, t: string, b: string) {
    t != "" && m.transferID == t && b != "" && (b == m.fromAgentID || b == m.toAgentID)
  }

  // ---- One tracking step ----

  lemma TrackedAgents(active: map<string, set<string>>, m: Envelope, t: string, b: string)
    ensures var after := TrackActive(active, m.transferID, m.fromAgentID, m.toAgentID);
      t in after && b in after[t] <==> (t in active && b in active[t]) || NamesIn(m, t, b)
  {
  }

  lemma TrackedIsActive(s: Split, k: nat, t: string, b: string)
    requires k < |s.routing|
    ensures IsActive(Tracked(s, k), t, b) <==> IsActive(s, t, b) || NamesIn(s.routing[k].message, t, b)
    ensures AgentOnline(Tracked(s, k).rooms, b) == AgentOnline(s.rooms, b)
  {
    hide TrackActive, AgentOnline, NamesIn;
    TrackedAgents(s.rooms.active, s.routing[k].message, t, b);
    SameSockets(Tracked(s, k).rooms, s.rooms, b, "");
  }

  // Everyone the message makes an agent of its transfer is online.
  predicate NamedOnline(s: RoomState, m: Envelope) {
    m.transferID != "" ==> (m.fromAgentID == "" || AgentOnline(s, m.fromAgentID)) && (m.toAgentID == "" || AgentOnline(s, m.toAgentID))
  }

  // Tracking keeps the agents of active transfers online if and only if both
  // agents it names are online just then, whatever the lookup had found.
  lemma TrackingKeepsActiveExactly(s: Split, k: nat)
    requires k < |s.routing| && ActiveAreOnline(s.rooms)
    ensures ActiveAreOnline(Tracked(s, k).rooms) <==> NamedOnline(s.rooms, s.routing[k].message)
  {
    hide AgentOnline, Tracked;
    var m := s.routing[k].message;
    var t := Tracked(s, k);
    forall x, b ensures (IsActive(t, x, b) <==> IsActive(s, x, b) || NamesIn(m, x, b)) && AgentOnline(t.rooms, b) == AgentOnline(s.rooms, b) {
      TrackedIsActive(s, k, x, b);
    }
    if !NamedOnline(s.rooms, m) {
      var b := if m.fromAgentID == "" || AgentOnline(s.rooms, m.fromAgentID) then m.toAgentID else m.fromAgentID;
      assert NamesIn(m, m.transferID, b) && IsActive(t, m.transferID, b);
    } else if ActiveAreOnline(s.rooms) {
      forall x, b | x in t.rooms.active && b in t.rooms.active[x] ensures AgentOnline(t.rooms, b) {
        assert IsActive(t, x, b);
        assert IsActive(s, x, b) || NamesIn(m, x, b);
      }
    }
  }

  // ---- The other steps, for one transfer and one of its agents ----

  lemma ConnectedAgent(s: RoomState, t: string, a: string, d: string, p: Peer, b: string)
    requires "" !in s.transferPeers
    ensures AgentOnline(Connect(s, t, a, d, p), b) <==> AgentOnline(s, b) || b == a
  {
    hide AgentOnline, DeviceOnline, Connect;
    var s' := Connect(s, t, a, d, p);
    AgentOnlineByDevice(s, b);
    AgentOnlineByDevice(s', b);
    forall y ensures DeviceOnline(s', b, y) <==> DeviceOnline(s, b, y) || (b == a && y == d) {
      ConnectedOnline(s, t, a, d, p, b, y);
    }
    assert b == a ==> DeviceOnline(s', b, d);
  }

  lemma AttachedAgent(s: Split, k: nat, t: string, b: string)
    requires k < |s.arriving| && "" !in s.rooms.transferPeers
    ensures var u := SplitStep(s, Attaches(k));
      && (AgentOnline(u.rooms, b) <==> AgentOnline(s.rooms, b) || b == s.arriving[k].agent)
      && IsActive(u, t, b) == IsActive(s, t, b)
  {
    hide AgentOnline, Connect, Without;
    var x := s.arriving[k];
    var c := Connect(s.rooms, x.transferID, x.agent, x.device, x.peer);
    ConnectedKeys(s.rooms, x.transferID, x.agent, x.device, x.peer);
    ConnectedAgent(s.rooms, x.transferID, x.agent, x.device, x.peer, b);
    SameSockets(SplitStep(s, Attaches(k)).rooms, c, b, "");
  }

  // A transfer that keeps an agent through an unplugging keeps it as it was,
  // online or not.
  lemma UnpluggedActive(s: Split, a: string, d: string, p: Option<Peer>, t: string, b: string)
    requires NoEmptyMap(s.rooms) && IsActive(SplitStep(s, Unplugs(a, d, p)), t, b)
    ensures IsActive(s, t, b)
    ensures AgentOnline(SplitStep(s, Unplugs(a, d, p)).rooms, b) == AgentOnline(s.rooms, b)
  {
    hide AgentOnline, DeviceOnline, NoEmptyMap, Removes, Unplugged, WillDrop;
    var u := Unplugged(s.rooms, a, d, p);
    SameSockets(SplitStep(s, Unplugs(a, d, p)).rooms, u, b, "");
    UnpluggedAgent(s.rooms, a, d, p, b);
    if !Removes(s.rooms, a, d, p) { MissChangesNothing(s.rooms, a, d, p); }
  }

  // Who is offline has no socket whose detaching could take a transfer away.
  lemma OfflineIsNotCalledBack(s: RoomState, b: string, d: string, p: Option<Peer>)
    requires NoEmptyMap(s) && !AgentOnline(s, b)
    ensures Affected(s, b, d, p) == {}
  {
    hide AgentOnline, NoEmptyMap, Removes, Unplugged;
    if Removes(s, b, d, p) { HitIsOnline(s, b, d, p); }
  }

  lemma QuietStep(s: Split, e: SplitEvent, t: string, b: string)
    requires !e.Attaches? && !e.Unplugs? && !Tracking(s, e)
    ensures IsActive(SplitStep(s, e), t, b) == IsActive(s, t, b)
    ensures AgentOnline(SplitStep(s, e).rooms, b) == AgentOnline(s.rooms, b)
  {
    hide AgentOnline, Look, LookAgain, Tracking;
    if e.Looks? || e.LooksAgain? || e.Tracks? { RoutingIsApart(s, e); }
    SameSockets(SplitStep(s, e).rooms, s.rooms, b, "");
  }

  // ---- Over every run ----

  // The last tracking that named this agent in this transfer came while it had
  // no socket attached, and none has been attached since.
  predicate Stale(events: seq<SplitEvent>, t: string, b: string) {
    if events == [] then false
    else
      var s := SplitRun(events[..|events| - 1]);
      var e := events[|events| - 1];
      if Tracking(s, e) && NamesIn(s.routing[e.which].message, t, b) then !AgentOnline(s.rooms, b)
      else if e.Attaches? && e.which < |s.arriving| && s.arriving[e.which].agent == b then false
      else Stale(events[..|events| - 1], t, b)
  }

  // Over every run of single steps, an active transfer names an agent that is
  // offline if and only if it was tracked so and the agent has not been back.
  // Until it is back, nothing it detaches takes the transfer away.
  lemma {:induction false} TrackedOfflineExactly(events: seq<SplitEvent>, t: string, b: string)
    requires IsActive(SplitRun(events), t, b)
    ensures !AgentOnline(SplitRun(events).rooms, b) <==> Stale(events, t, b)
    ensures Stale(events, t, b) ==> forall d, p :: Affected(SplitRun(events).rooms, b, d, p) == {}
    decreases |events|
  {
    hide AgentOnline, NoEmptyMap, SplitStep, Tracked, NamesIn, Affected, IsActive;
    if events == [] {
      NothingActive(t, b);
    } else {
      var s := SplitRun(events[..|events| - 1]);
      var e := events[|events| - 1];
      RunStaysProper(events[..|events| - 1]);
      StepOnAgent(s, e, t, b);
      if IsActive(s, t, b) { TrackedOfflineExactly(events[..|events| - 1], t, b); }
      RunStaysProper(events);
    }
    if Stale(events, t, b) {
      forall d, p ensures Affected(SplitRun(events).rooms, b, d, p) == {} { OfflineIsNotCalledBack(SplitRun(events).rooms, b, d, p); }
    }
  }

  lemma NothingActive(t: string, b: string)
    ensures !IsActive(NOTHING_YET, t, b)
  {
  }

  // What a step does to an agent that is one of the transfer's after it.
  lemma StepOnAgent(s: Split, e: SplitEvent, t: string, b: string)
    requires NoEmptyMap(s.rooms) && IsActive(SplitStep(s, e), t, b)
    ensures var u := SplitStep(s, e);
      if Tracking(s, e) && NamesIn(s.routing[e.which].message, t, b) then AgentOnline(u.rooms, b) == AgentOnline(s.rooms, b)
      else
        && IsActive(s, t, b)
        && (AgentOnline(u.rooms, b)
            <==> AgentOnline(s.rooms, b) || (e.Attaches? && e.which < |s.arriving| && s.arriving[e.which].agent == b))
  {
    hide AgentOnline, NoEmptyMap, Tracked, NamesIn, IsActive;
    NoEmptyKey(s.rooms);
    if Tracking(s, e) {
      TrackedIsActive(s, e.which, t, b);
    } else if e.Attaches? {
      if e.which < |s.arriving| { AttachedAgent(s, e.which, t, b); } else { Idles(s, e); }
    } else if e.Unplugs? {
      UnpluggedActive(s, e.agent, e.device, e.gone, t, b);
    } else {
      QuietStep(s, e, t, b);
    }
  }

  // Each tracking step of the run came while everyone it named was online.
  predicate TrackedInTime(events: seq<SplitEvent>) {
    events != [] ==>
      var s := SplitRun(events[..|events| - 1]);
      var e := events[|events| - 1];
      && TrackedInTime(events[..|events| - 1])
      && (Tracking(s, e) ==> NamedOnline(s.rooms, s.routing[e.which].message))
  }

  // At every time of the run, every agent of every active transfer is online.
  ghost predicate AlwaysOnline(events: seq<SplitEvent>) {
    forall n :: 0 <= n <= |events| ==> ActiveAreOnline(SplitRun(events[..n]).rooms)
  }

  lemma UntilLast(events: seq<SplitEvent>)
    requires events != []
    ensures AlwaysOnline(events) <==> AlwaysOnline(events[..|events| - 1]) && ActiveAreOnline(SplitRun(events).rooms)
  {
    hide SplitRun, ActiveAreOnline;
    var before := events[..|events| - 1];
    forall n | 0 <= n <= |before| ensures before[..n] == events[..n] {
    }
    assert events[..|events|] == events;
    if AlwaysOnline(events) {
      forall n | 0 <= n <= |before| ensures ActiveAreOnline(SplitRun(before[..n]).rooms) {
        assert ActiveAreOnline(SplitRun(events[..n]).rooms);
      }
      assert ActiveAreOnline(SplitRun(events[..|events|]).rooms);
    } else {
      var n :| 0 <= n <= |events| && !ActiveAreOnline(SplitRun(events[..n]).rooms);
      assert n < |events| ==> before[..n] == events[..n];
    }
  }

  lemma OtherStepsKeepActive(s: Split, e: SplitEvent)
    requires NoEmptyMap(s.rooms) && ActiveAreOnline(s.rooms) && !Tracking(s, e)
    ensures ActiveAreOnline(SplitStep(s, e).rooms)
  {
    hide AgentOnline, NoEmptyMap, SplitStep, NamesIn, Tracking;
    var u := SplitStep(s, e);
    forall t, b | t in u.rooms.active && b in u.rooms.active[t] ensures AgentOnline(u.rooms, b) {
      assert IsActive(u, t, b);
      StepOnAgent(s, e, t, b);
    }
  }

  // So at every time every agent of every active transfer is online if and
  // only if each message was tracked while both its agents were.
  lemma {:induction false} ActiveStayOnlineExactly(events: seq<SplitEvent>)
    ensures AlwaysOnline(events) <==> TrackedInTime(events)
    decreases |events|
  {
    hide SplitStep, NoEmptyMap, ActiveAreOnline, AlwaysOnline, NamedOnline, Tracked;
    if events == [] {
      NothingEverActive();
    } else {
      var s := SplitRun(events[..|events| - 1]);
      var e := events[|events| - 1];
      ActiveStayOnlineExactly(events[..|events| - 1]);
      UntilLast(events);
      RunStaysProper(events[..|events| - 1]);
      if AlwaysOnline(events[..|events| - 1]) {
        OnlineNow(events[..|events| - 1]);
        if Tracking(s, e) {
          TrackingKeepsActiveExactly(s, e.which);
          TrackingTracks(s, e);
        } else {
          OtherStepsKeepActive(s, e);
        }
      }
    }
  }

  lemma NothingEverActive()
    ensures AlwaysOnline([])
  {
    var none: seq<SplitEvent> := [];
    assert none[..0] == none;
    NoRoomsAtFirst();
  }

  lemma OnlineNow(events: seq<SplitEvent>)
    requires AlwaysOnline(events)
    ensures ActiveAreOnline(SplitRun(events).rooms)
  {
    assert events[..|events|] == events;
  }

  lemma TrackingTracks(s: Split, e: SplitEvent)
    requires Tracking(s, e)
    ensures SplitStep(s, e) == Tracked(s, e.which)
  {
  }

  // ---- The late tracking does happen ----

  // A message has been found its target, which then loses its only device;
  // its transfer is tracked all the same. It names the offline target while
  // the sender is online throughout, and no callback was due.
  lemma TrackingCanComeLate(s: Split, k: nat, d: string)
    requires NoEmptyMap(s.rooms) && k < |s.routing| && s.routing[k].found.Some?
    requires var m := s.routing[k].message;
      && m.transferID != "" && m.transferID !in s.rooms.active
      && m.toAgentID != "" && m.fromAgentID != m.toAgentID
      && AgentOnline(s.rooms, m.fromAgentID) && AgentOnline(s.rooms, m.toAgentID)
      && forall x :: DeviceOnline(s.rooms, m.toAgentID, x) ==> x == d
    ensures var m := s.routing[k].message;
      var unplugged := SplitStep(s, Unplugs(m.toAgentID, d, None));
      var late := SplitStep(unplugged, Tracks(k));
      && m.transferID !in Affected(s.rooms, m.toAgentID, d, None)
      && AgentOnline(unplugged.rooms, m.fromAgentID) && AgentOnline(late.rooms, m.fromAgentID)
      && IsActive(late, m.transferID, m.toAgentID) && !AgentOnline(late.rooms, m.toAgentID)
  {
    hide AgentOnline, DeviceOnline, NoEmptyMap, Removes, Tracked, WillDrop, Affected;
    var m := s.routing[k].message;
    var unplugged := SplitStep(s, Unplugs(m.toAgentID, d, None));
    LastDeviceGone(s.rooms, m.toAgentID, d);
    UnpluggedAgent(s.rooms, m.toAgentID, d, None, m.fromAgentID);
    SameSockets(unplugged.rooms, Unplugged(s.rooms, m.toAgentID, d, None), m.fromAgentID, "");
    SameSockets(unplugged.rooms, Unplugged(s.rooms, m.toAgentID, d, None), m.toAgentID, "");
    TrackedIsActive(unplugged, k, m.transferID, m.toAgentID);
    TrackedIsActive(unplugged, k, m.transferID, m.fromAgentID);
    AffectedAreActive(s.rooms, m.toAgentID, d);
  }

  lemma AffectedAreActive(s: RoomState, b: string, d: string)
    ensures Affected(s, b, d, None) <= s.active.Keys
  {
    hide Removes, AgentOnline;
  }

  lemma LastDeviceGone(s: RoomState, b: string, d: string)
    requires NoEmptyMap(s) && forall x :: DeviceOnline(s, b, x) ==> x == d
    ensures !AgentOnline(Unplugged(s, b, d, None), b)
  {
    hide AgentOnline, DeviceOnline, NoEmptyMap, Unplugged;
    var u := Unplugged(s, b, d, None);
    AgentOnlineByDevice(u, b);
    if x :| DeviceOnline(u, b, x) {
      if x == d { UnpluggedIsOffline(s, b, d); } else { UnpluggedDevice(s, b, d, None, b, x); }
    }
  }

  lemma UnpluggedIsOffline(s: RoomState, b: string, d: string)
    ensures !DeviceOnline(Unplugged(s, b, d, None), b, d)
  {
  }

  // A run that gets there from nothing, for every message between two agents:
  // both connect, the target on the transfer; the message is looked up, the
  // target unplugged, the transfer tracked.
  function LateEvents(m: Envelope, c: string, p: Peer, d: string, q: Peer): seq<SplitEvent> {
    [Registers(Arrival("", m.fromAgentID, c, p)), Attaches(0), Registers(Arrival(m.transferID, m.toAgentID, d, q)), Attaches(0),
     Looks(m, d), Unplugs(m.toAgentID, d, None), Tracks(0)]
  }

  lemma LateTrackingHappens(m: Envelope, c: string, p: Peer, d: string, q: Peer)
    requires ValidateEnvelope(m).None? && m.transferID != "" && m.toAgentID != "" && m.fromAgentID != m.toAgentID
    ensures var late := SplitRun(LateEvents(m, c, p, d, q));
      && AgentOnline(late.rooms, m.fromAgentID) && !AgentOnline(late.rooms, m.toAgentID)
      && IsActive(late, m.transferID, m.toAgentID)
  {
    hide ValidateEnvelope, SplitRun, SplitStep, AgentOnline, DeviceOnline, RoomAttach, Affected, NoEmptyMap, IsActive;
    var events := LateEvents(m, c, p, d, q);
    var a, own := map[m.fromAgentID := map[c := p]], map[m.transferID := map[m.toAgentID := map[d := q]]];
    OneSocket(m.fromAgentID, c, p);
    OneSocket(m.toAgentID, d, q);
    NothingShaped(events[..0]);
    OneMoreStep(events, 0);
    OneMoreStep(events, 1);
    AttachShape(SplitRun(events[..0]), Arrival("", m.fromAgentID, c, p), map[], []);
    OneMoreStep(events, 2);
    OneMoreStep(events, 3);
    AttachShape(SplitRun(events[..2]), Arrival(m.transferID, m.toAgentID, d, q), a, []);
    OneMoreStep(events, 4);
    LookFindsShape(SplitRun(events[..4]), m, d, q, a);
    var s := SplitRun(events[..5]);
    RunStaysProper(events[..5]);
    BothAreOnline(s.rooms, m, c, p, d, q);
    TrackingCanComeLate(s, 0, d);
    OneMoreStep(events, 5);
    OneMoreStep(events, 6);
    assert events[..|events|] == events;
  }

  lemma LookFindsShape(s: Split, m: Envelope, d: string, q: Peer, peers: Room)
    requires ValidateEnvelope(m).None? && m.toAgentID != "" && m.transferID != ""
    requires Shape(s, peers, map[m.transferID := map[m.toAgentID := map[d := q]]], [], [])
    ensures Shape(SplitStep(s, Looks(m, d)), peers, map[m.transferID := map[m.toAgentID := map[d := q]]], [], [Routing(m, Some(q))])
  {
    hide ValidateEnvelope;
    assert d in map[d := q];
  }

  lemma BothAreOnline(s: RoomState, m: Envelope, c: string, p: Peer, d: string, q: Peer)
    requires s.peers == map[m.fromAgentID := map[c := p]] && s.transferPeers == map[m.transferID := map[m.toAgentID := map[d := q]]]
    requires m.fromAgentID != m.toAgentID
    ensures AgentOnline(s, m.fromAgentID) && AgentOnline(s, m.toAgentID)
    ensures forall x :: DeviceOnline(s, m.toAgentID, x) ==> x == d
  {
    OneIsOnline(s, m.fromAgentID, c, p, m.transferID);
    OneIsOnline(s, m.toAgentID, d, q, m.transferID);
  }
}
