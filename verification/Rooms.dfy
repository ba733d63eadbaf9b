// Signaling rooms and presence (internal/signaling/rooms.go,
// internal/signaling/presence.go): who is connected, by which socket, and
// which transfers are under way.
module Rooms {
  import opened Wrappers
  import opened Signaling

  // A connected socket, by identity.
  datatype Peer = Peer(socket: nat)
  type Devices = map<string, Peer>
  type Room = map<string, Devices>

  // peers: the always-on sockets; transferPeers: those of one transfer;
  // active: the agents of each transfer under way; presence: the devices the
  // registry counts as online.
  datatype RoomState = RoomState(peers: Room, transferPeers: map<string, Room>, active: map<string, set<string>>,
                                 presence: map<string, set<string>>)

  const NO_ROOMS: RoomState := RoomState(map[], map[], map[], map[])

  function RoomAttach(room: Room, agent: string, device: string, peer: Peer): Room {
    room[agent := (if agent in room then room[agent] else map[])[device := peer]]
  }

  // Detaching without a peer removes whatever socket the device has.
  predicate Hits(devices: Devices, device: string, peer: Option<Peer>) {
    peer.None? || (device in devices && devices[device] == peer.value)
  }

  function RoomDetach(room: Room, agent: string, device: string, peer: Option<Peer>): Room {
    if agent !in room then room
    else
      var devices := if Hits(room[agent], device, peer) then room[agent] - {device} else room[agent];
      if devices == map[] then room - {agent} else room[agent := devices]
  }

  function TransfersDetach(rooms: map<string, Room>, agent: string, device: string, peer: Option<Peer>): map<string, Room> {
    map t | t in rooms && (agent !in rooms[t] || RoomDetach(rooms[t], agent, device, peer) != map[]) ::
      RoomDetach(rooms[t], agent, device, peer)
  }

  predicate RoomHit(room: Room, agent: string, device: string, peer: Option<Peer>) {
    agent in room && Hits(room[agent], device, peer)
  }

  predicate TransfersHit(rooms: map<string, Room>, agent: string, device: string, peer: Option<Peer>) {
    exists t :: t in rooms && RoomHit(rooms[t], agent, device, peer)
  }

  predicate DeviceIn(room: Room, agent: string, device: string) { agent in room && device in room[agent] }

  predicate AgentIn(room: Room, agent: string) { agent in room && room[agent] != map[] }

  predicate AgentInTransfers(rooms: map<string, Room>, agent: string) {
    exists t :: t in rooms && AgentIn(rooms[t], agent)
  }

  predicate DeviceOnline(s: RoomState, agent: string, device: string) {
    DeviceIn(s.peers, agent, device) || exists t :: t in s.transferPeers && DeviceIn(s.transferPeers[t], agent, device)
  }

  predicate AgentOnline(s: RoomState, agent: string) {
    AgentIn(s.peers, agent) || AgentInTransfers(s.transferPeers, agent)
  }

  predicate Present(s: RoomState, agent: string, device: string) {
    agent in s.presence && device in s.presence[agent]
  }

  function PresenceAdd(p: map<string, set<string>>, agent: string, device: string): map<string, set<string>> {
    p[agent := (if agent in p then p[agent] else {}) + {device}]
  }

  function PresenceDrop(p: map<string, set<string>>, agent: string, device: string): map<string, set<string>> {
    if agent !in p then p
    else if p[agent] - {device} == {} then p - {agent}
    else p[agent := p[agent] - {device}]
  }

  // Register with presence, then attach: one step. An empty transfer id means
  // an always-on socket.
  function Connect(s: RoomState, transferID: string, agent: string, device: string, peer: Peer): RoomState {
    var here := s.(presence := PresenceAdd(s.presence, agent, device));
    if transferID == "" then here.(peers := RoomAttach(s.peers, agent, device, peer))
    else here.(transferPeers :=
                 s.transferPeers[transferID :=
                   RoomAttach(if transferID in s.transferPeers then s.transferPeers[transferID] else map[], agent, device, peer)])
  }

  predicate Removes(s: RoomState, agent: string, device: string, peer: Option<Peer>) {
    RoomHit(s.peers, agent, device, peer) || TransfersHit(s.transferPeers, agent, device, peer)
  }

  // The sockets after a detach, before anything else is settled.
  function Unplugged(s: RoomState, agent: string, device: string, peer: Option<Peer>): RoomState {
    s.(peers := RoomDetach(s.peers, agent, device, peer),
       transferPeers := TransfersDetach(s.transferPeers, agent, device, peer))
  }

  // The transfers a detach takes out of the active set.
  function Affected(s: RoomState, agent: string, device: string, peer: Option<Peer>): set<string> {
    if Removes(s, agent, device, peer) && !AgentOnline(Unplugged(s, agent, device, peer), agent)
    then set t | t in s.active && agent in s.active[t]
    else {}
  }

  // The part of a detach done under the lock of the rooms, and whether the
  // presence is to be dropped after it.
  function Unplug(s: RoomState, agent: string, device: string, peer: Option<Peer>): RoomState {
    Unplugged(s, agent, device, peer).(active := s.active - Affected(s, agent, device, peer))
  }

  predicate WillDrop(s: RoomState, agent: string, device: string, peer: Option<Peer>) {
    Removes(s, agent, device, peer) && !DeviceOnline(Unplugged(s, agent, device, peer), agent, device)
  }

  // Detach, and drop the device's presence if that was its last socket: one step.
  function Detach(s: RoomState, agent: string, device: string, peer: Option<Peer>): RoomState {
    var u := Unplugged(s, agent, device, peer);
    u.(active := s.active - Affected(s, agent, device, peer),
       presence := if Removes(s, agent, device, peer) && !DeviceOnline(u, agent, device)
                   then PresenceDrop(s.presence, agent, device) else s.presence)
  }

  // The sockets a message may go to: those of its transfer for its target, or
  // if there is none, the target's always-on ones.
  function Targets(s: RoomState, e: Envelope): Devices {
    if e.transferID != "" && e.transferID in s.transferPeers && e.toAgentID in s.transferPeers[e.transferID]
       && s.transferPeers[e.transferID][e.toAgentID] != map[]
    then s.transferPeers[e.transferID][e.toAgentID]
    else if e.toAgentID in s.peers then s.peers[e.toAgentID]
    else map[]
  }

  function Named(agent: string): set<string> { if agent == "" then {} else {agent} }

  function TrackActive(active: map<string, set<string>>, t: string, from: string, to: string): map<string, set<string>> {
    if t == "" then active
    else active[t := (if t in active then active[t] else {}) + Named(from) + Named(to)]
  }

  function RouteError(s: RoomState, e: Envelope): Option<SignalingError> {
    if ValidateEnvelope(e).Some? then ValidateEnvelope(e)
    else if e.toAgentID == "" then Some(RouteTargetRequired)
    else if Targets(s, e) == map[] then Some(AgentOffline)
    else None
  }

  function Route(s: RoomState, e: Envelope): RoomState {
    if RouteError(s, e).Some? then s else s.(active := TrackActive(s.active, e.transferID, e.fromAgentID, e.toAgentID))
  }

  // What is online depends on the sockets alone.
  lemma SameSockets(s: RoomState, u: RoomState, x: string, y: string)
    requires s.peers == u.peers && s.transferPeers == u.transferPeers
    ensures DeviceOnline(s, x, y) == DeviceOnline(u, x, y) && AgentOnline(s, x) == AgentOnline(u, x)
  {
  }

  // ---- A simple reading of the nested maps ----

  // One place a socket can be: a device of an agent, on one transfer or (empty
  // transfer id) always on.
  datatype Slot = Slot(transferID: string, agent: string, device: string)

  function Held(room: Room, agent: string, device: string): Option<Peer> {
    if agent in room && device in room[agent] then Some(room[agent][device]) else None
  }

  function RoomOf(s: RoomState, transferID: string): Room {
    if transferID == "" then s.peers
    else if transferID in s.transferPeers then s.transferPeers[transferID]
    else map[]
  }

  function Holder(s: RoomState, x: Slot): Option<Peer> { Held(RoomOf(s, x.transferID), x.agent, x.device) }

  // ---- The manager and the registry as objects ----

  class PresenceRegistry {
    var agents: map<string, set<string>>

    constructor ()
      ensures agents == map[]
    {
      agents := map[];
    }

    method Register(agent: string, device: string)
      modifies this
      ensures agents == PresenceAdd(old(agents), agent, device)
    {
      if agent !in agents { agents := agents[agent := {}]; }
      agents := agents[agent := agents[agent] + {device}];
    }

    method Disconnect(agent: string, device: string)
      modifies this
      ensures agents == PresenceDrop(old(agents), agent, device)
    {
      if agent !in agents { return; }
      var devices := agents[agent] - {device};
      agents := agents[agent := devices];
      if devices == {} { agents := agents - {agent}; }
    }
  }

  // l lists the set, each element once.
  ghost predicate Lists(l: seq<string>, s: set<string>) {
    && (forall t :: t in l <==> t in s)
    && (forall i, j :: 0 <= i < j < |l| ==> l[i] != l[j])
  }

  lemma NothingListed()
    ensures Lists([], {})
  {
  }

  function CallsFor(affected: seq<string>, agent: string): seq<(string, string)> {
    seq(|affected|, i requires 0 <= i < |affected| => (affected[i], agent))
  }

  // The disconnect callback has been called once for each of these transfers,
  // and for nothing else.
  ghost predicate Called(before: seq<(string, string)>, after: seq<(string, string)>, agent: string, transfers: set<string>) {
    && before <= after
    && (forall c :: c in after[|before|..] <==> c.0 in transfers && c.1 == agent)
    && (forall i, j :: |before| <= i < j < |after| ==> after[i] != after[j])
  }

  lemma SameMembers(before: seq<(string, string)>, after: seq<(string, string)>, agent: string,
                    affected: seq<string>, transfers: set<string>)
    requires after == before + CallsFor(affected, agent) && Lists(affected, transfers)
    ensures Called(before, after, agent, transfers)
  {
    var calls := CallsFor(affected, agent);
    assert after[|before|..] == calls;
    forall c ensures c in calls <==> c.0 in transfers && c.1 == agent {
      if c.0 in transfers && c.1 == agent {
        var i :| 0 <= i < |affected| && affected[i] == c.0;
        assert calls[i] == c;
      }
    }
  }

  lemma Overwritten<K, V>(m: map<K, V>, k: K, v: V, w: V)
    ensures m[k := v][k := w] == m[k := w]
  {
  }

  class RoomManager {
    const presence: PresenceRegistry
    var peers: Room
    var transferPeers: map<string, Room>
    var active: map<string, set<string>>
    // The calls made to the disconnect callback, oldest first.
    var disconnects: seq<(string, string)>

    ghost function State(): RoomState
      reads this, presence
    {
      RoomState(peers, transferPeers, active, presence.agents)
    }

    constructor (presence: PresenceRegistry)
      ensures this.presence == presence && disconnects == []
      ensures State() == NO_ROOMS.(presence := presence.agents)
    {
      this.presence := presence;
      peers, transferPeers, active, disconnects := map[], map[], map[], [];
    }

    method AttachPeer(agent: string, device: string, peer: Peer)
      modifies this`peers
      ensures peers == RoomAttach(old(peers), agent, device, peer)
    {
      if agent !in peers { peers := peers[agent := map[]]; }
      var devices := peers[agent][device := peer];
      peers := peers[agent := devices];
      Overwritten(old(peers), agent, map[], devices);
    }

    method AttachTransferPeer(agent: string, device: string, transferID: string, peer: Peer)
      modifies this`peers, this`transferPeers
      ensures State() == Connect(old(State()), transferID, agent, device, peer).(presence := old(presence.agents))
    {
      if transferID == "" {
        AttachPeer(agent, device, peer);
        return;
      }
      if transferID !in transferPeers { transferPeers := transferPeers[transferID := map[]]; }
      ghost var room := transferPeers[transferID];
      if agent !in transferPeers[transferID] {
        transferPeers := transferPeers[transferID := transferPeers[transferID][agent := map[]]];
      }
      var devices := transferPeers[transferID][agent][device := peer];
      transferPeers := transferPeers[transferID := transferPeers[transferID][agent := devices]];
      Overwritten(room, agent, map[], devices);
      ghost var attached := RoomAttach(room, agent, device, peer);
      Overwritten(old(transferPeers), transferID, map[], attached);
      Overwritten(old(transferPeers), transferID, room[agent := map[]], attached);
      Overwritten(old(transferPeers)[transferID := map[]], transferID, room[agent := map[]], attached);
    }

    // handleSignalingWebSocket, up to its read loop.
    method ConnectPeer(agent: string, device: string, transferID: string, peer: Peer)
      modifies this`peers, this`transferPeers, presence
      ensures State() == Connect(old(State()), transferID, agent, device, peer)
    {
      presence.Register(agent, device);
      AttachTransferPeer(agent, device, transferID, peer);
    }

    method DetachTransferPeer(agent: string, device: string, peer: Option<Peer>) returns (removed: bool)
      modifies this`transferPeers
      ensures transferPeers == TransfersDetach(old(transferPeers), agent, device, peer)
      ensures removed <==> TransfersHit(old(transferPeers), agent, device, peer)
    {
      hide Half, HitAmong, RoomDetach, RoomHit;
      ghost var before := transferPeers;
      removed := false;
      var left := transferPeers.Keys;
      NoneYet(before, before.Keys - left, agent, device, peer);
      while left != {}
        invariant left <= before.Keys
        invariant transferPeers == Half(before, before.Keys - left, agent, device, peer)
        invariant removed <==> HitAmong(before, before.Keys - left, agent, device, peer)
        decreases |left|
      {
        var t :| t in left;
        HalfStep(before, before.Keys - left, t, agent, device, peer);
        assert before.Keys - left + {t} == before.Keys - (left - {t});
        left := left - {t};
        var agents := transferPeers[t];
        if agent !in agents { continue; }
        var devices := agents[agent];
        if Hits(devices, device, peer) {
          devices := devices - {device};
          removed := true;
        }
        agents := if devices == map[] then agents - {agent} else agents[agent := devices];
        transferPeers := if agents == map[] then transferPeers - {t} else transferPeers[t := agents];
      }
      AllDone(before, before.Keys - left, agent, device, peer);
    }

    method HasDevicePeer(agent: string, device: string) returns (online: bool)
      ensures online <==> DeviceOnline(State(), agent, device)
    {
      if agent in peers && device in peers[agent] { return true; }
      var left := transferPeers.Keys;
      while left != {}
        invariant left <= transferPeers.Keys
        invariant forall t :: t in transferPeers.Keys - left ==> !DeviceIn(transferPeers[t], agent, device)
        decreases |left|
      {
        var t :| t in left;
        if agent in transferPeers[t] && device in transferPeers[t][agent] { return true; }
        left := left - {t};
      }
      return false;
    }

    method HasTransferPeer(agent: string) returns (online: bool)
      ensures online <==> AgentInTransfers(transferPeers, agent)
    {
      var left := transferPeers.Keys;
      while left != {}
        invariant left <= transferPeers.Keys
        invariant forall t :: t in transferPeers.Keys - left ==> !AgentIn(transferPeers[t], agent)
        decreases |left|
      {
        var t :| t in left;
        if agent in transferPeers[t] && transferPeers[t][agent] != map[] { return true; }
        left := left - {t};
      }
      return false;
    }

    // The deletion loop over the active transfers.
    method DropActive(agent: string) returns (affected: seq<string>)
      modifies this`active
      ensures active == old(active) - (set t | t in old(active) && agent in old(active)[t])
      ensures Lists(affected, set t | t in old(active) && agent in old(active)[t])
    {
      ghost var before := active;
      affected := [];
      var left := active.Keys;
      while left != {}
        invariant left <= before.Keys
        invariant active == before - (set t | t in before.Keys - left && agent in before[t])
        invariant Lists(affected, set t | t in before.Keys - left && agent in before[t])
        decreases |left|
      {
        var t :| t in left;
        left := left - {t};
        if agent in active[t] {
          affected := affected + [t];
          active := active - {t};
        }
      }
    }

    // detach, as DetachPeer and Disconnect call it.
    method DetachPeer(agent: string, device: string, peer: Option<Peer>)
      modifies this, presence
      ensures State() == Detach(old(State()), agent, device, peer)
      ensures Called(old(disconnects), disconnects, agent, Affected(old(State()), agent, device, peer))
    {
      hide Affected, Removes, Unplugged, Lists, Called, DeviceOnline;
      var drop, affected := UnplugPeer(agent, device, peer);
      if drop {
        presence.Disconnect(agent, device);
      }
      NotifyAll(affected, agent);
      SameMembers(old(disconnects), disconnects, agent, affected, Affected(old(State()), agent, device, peer));
    }

    // What detach does before it releases the lock.
    method UnplugPeer(agent: string, device: string, peer: Option<Peer>) returns (drop: bool, affected: seq<string>)
      modifies this`peers, this`transferPeers, this`active
      ensures State() == Unplug(old(State()), agent, device, peer)
      ensures drop <==> WillDrop(old(State()), agent, device, peer)
      ensures Lists(affected, Affected(old(State()), agent, device, peer))
    {
      hide TransfersDetach, TransfersHit, RoomDetach, Hits, RoomHit, Lists, DeviceOnline, AgentInTransfers;
      var removed := DetachAlwaysOn(agent, device, peer);
      var alsoRemoved := DetachTransferPeer(agent, device, peer);
      removed := removed || alsoRemoved;
      var deviceStillOnline := HasDevicePeer(agent, device);
      SameSockets(State(), Unplugged(old(State()), agent, device, peer), agent, device);
      var agentStillOnline := HasTransferPeer(agent);
      agentStillOnline := agentStillOnline || (agent in peers && peers[agent] != map[]);
      affected := [];
      if removed && !agentStillOnline {
        affected := DropActive(agent);
      } else {
        NothingListed();
        assert active == active - {};
      }
      drop := removed && !deviceStillOnline;
    }

    method DetachAlwaysOn(agent: string, device: string, peer: Option<Peer>) returns (removed: bool)
      modifies this`peers
      ensures peers == RoomDetach(old(peers), agent, device, peer)
      ensures removed <==> RoomHit(old(peers), agent, device, peer)
    {
      removed := false;
      if agent in peers {
        var devices := peers[agent];
        if Hits(devices, device, peer) {
          devices := devices - {device};
          removed := true;
        }
        peers := if devices == map[] then peers - {agent} else peers[agent := devices];
      }
    }

    method NotifyAll(affected: seq<string>, agent: string)
      modifies this`disconnects
      ensures disconnects == old(disconnects) + CallsFor(affected, agent)
    {
      var i := 0;
      while i < |affected|
        invariant 0 <= i <= |affected|
        invariant disconnects == old(disconnects) + CallsFor(affected[..i], agent)
      {
        disconnects := disconnects + [(affected[i], agent)];
        i := i + 1;
      }
      assert affected[..i] == affected;
    }

    // Route: the first socket of a map in no particular order, any of them. The
    // transfer's own sockets come before the target's always-on ones.
    method RouteEnvelope(e: Envelope) returns (r: Result<Peer, SignalingError>)
      modifies this`active
      ensures State() == Route(old(State()), e)
      ensures RouteError(old(State()), e).Some? ==> r == Err(RouteError(old(State()), e).value)
      ensures RouteError(old(State()), e).None? ==> r.Ok? && r.value in Targets(old(State()), e).Values
      ensures r.Ok? ==>
        if e.transferID != "" && exists d :: Holder(old(State()), Slot(e.transferID, e.toAgentID, d)).Some?
        then exists d :: Holder(old(State()), Slot(e.transferID, e.toAgentID, d)) == Some(r.value)
        else exists d :: Holder(old(State()), Slot("", e.toAgentID, d)) == Some(r.value)
      ensures r == Err(AgentOffline) <==>
        && ValidateEnvelope(e).None? && e.toAgentID != ""
        && (e.transferID != "" ==> forall d :: Holder(old(State()), Slot(e.transferID, e.toAgentID, d)).None?)
        && forall d :: Holder(old(State()), Slot("", e.toAgentID, d)).None?
      ensures r.Err? && r.error != AgentOffline ==>
        r.error == if ValidateEnvelope(e).Some? then ValidateEnvelope(e).value else RouteTargetRequired
      ensures r.Ok? ==> ValidateEnvelope(e).None? && e.toAgentID != ""
      ensures active == if r.Ok? then TrackActive(old(active), e.transferID, e.fromAgentID, e.toAgentID) else old(active)
    {
      hide ValidateEnvelope, Held;
      NotOffline(e);
      var invalid := ValidateEnvelope(e);
      if invalid.Some? { return Err(invalid.value); }
      if e.toAgentID == "" { return Err(RouteTargetRequired); }
      var peer := None;
      ghost var s, at := State(), "";
      if e.transferID != "" {
        peer, at := FirstTransferPeer(e.transferID, e.toAgentID);
        assert peer.Some? ==> Holder(s, Slot(e.transferID, e.toAgentID, at)) == peer;
      }
      if peer.None? {
        peer, at := FirstPeer(e.toAgentID);
        assert peer.Some? ==> Holder(s, Slot("", e.toAgentID, at)) == peer;
      }
      if peer.None? { return Err(AgentOffline); }
      if e.transferID != "" {
        Track(e.transferID, e.fromAgentID, e.toAgentID);
      }
      return Ok(peer.value);
    }

    method FirstPeer(agent: string) returns (p: Option<Peer>, ghost at: string)
      ensures p.None? <==> agent !in peers || peers[agent] == map[]
      ensures p.Some? ==> p.value in peers[agent].Values
      ensures p.None? ==> forall d :: Held(peers, agent, d).None?
      ensures p.Some? ==> Held(peers, agent, at) == p
    {
      if agent !in peers || peers[agent] == map[] { return None, ""; }
      var device :| device in peers[agent].Keys;
      return Some(peers[agent][device]), device;
    }

    method FirstTransferPeer(transferID: string, agent: string) returns (p: Option<Peer>, ghost at: string)
      ensures p.None? <==> transferID !in transferPeers || !AgentIn(transferPeers[transferID], agent)
      ensures p.Some? ==> p.value in transferPeers[transferID][agent].Values
      ensures p.None? && transferID in transferPeers ==> forall d :: Held(transferPeers[transferID], agent, d).None?
      ensures p.Some? ==> transferID in transferPeers && Held(transferPeers[transferID], agent, at) == p
    {
      if transferID !in transferPeers || agent !in transferPeers[transferID] || transferPeers[transferID][agent] == map[] {
        return None, "";
      }
      var device :| device in transferPeers[transferID][agent].Keys;
      return Some(transferPeers[transferID][agent][device]), device;
    }

    method Track(t: string, from: string, to: string)
      modifies this`active
      ensures active == TrackActive(old(active), t, from, to)
    {
      if t == "" { return; }
      var agents := if t in active then active[t] else {};
      if from != "" { agents := agents + {from}; }
      if to != "" { agents := agents + {to}; }
      assert agents == (if t in active then active[t] else {}) + Named(from) + Named(to);
      active := active[t := agents];
    }
  }

  lemma NotOffline(e: Envelope)
    ensures ValidateEnvelope(e) != Some(AgentOffline)
    ensures forall agent: string, device: string :: Held(map[], agent, device).None?
  {
  }

  predicate HitAmong(rooms: map<string, Room>, done: set<string>, agent: string, device: string, peer: Option<Peer>) {
    exists t :: t in rooms && t in done && RoomHit(rooms[t], agent, device, peer)
  }

  lemma NoneYet(rooms: map<string, Room>, done: set<string>, agent: string, device: string, peer: Option<Peer>)
    requires done == {}
    ensures Half(rooms, done, agent, device, peer) == rooms && !HitAmong(rooms, done, agent, device, peer)
  {
  }

  lemma AllDone(rooms: map<string, Room>, done: set<string>, agent: string, device: string, peer: Option<Peer>)
    requires done == rooms.Keys
    ensures Half(rooms, done, agent, device, peer) == TransfersDetach(rooms, agent, device, peer)
    ensures HitAmong(rooms, done, agent, device, peer) <==> TransfersHit(rooms, agent, device, peer)
  {
    hide RoomDetach, RoomHit;
  }

  lemma HalfStep(rooms: map<string, Room>, done: set<string>, t: string, agent: string, device: string, peer: Option<Peer>)
    requires t in rooms && t !in done
    ensures var half := Half(rooms, done, agent, device, peer);
      && t in half && half[t] == rooms[t]
      && Half(rooms, done + {t}, agent, device, peer)
         == (if agent !in rooms[t] then half
             else
               var devices := if Hits(rooms[t][agent], device, peer) then rooms[t][agent] - {device} else rooms[t][agent];
               var agents := if devices == map[] then rooms[t] - {agent} else rooms[t][agent := devices];
               if agents == map[] then half - {t} else half[t := agents])
    ensures HitAmong(rooms, done + {t}, agent, device, peer)
            <==> HitAmong(rooms, done, agent, device, peer) || (agent in rooms[t] && Hits(rooms[t][agent], device, peer))
  {
    var half := Half(rooms, done, agent, device, peer);
    var next := Half(rooms, done + {t}, agent, device, peer);
    var agents := RoomDetach(rooms[t], agent, device, peer);
    hide RoomDetach;
    assert agent in rooms[t] && agents != map[] ==> next == half[t := agents];
    assert agent in rooms[t] && agents == map[] ==> next == half - {t};
  }

  // The rooms of these transfers detached, the others not yet.
  function Half(rooms: map<string, Room>, done: set<string>, agent: string, device: string, peer: Option<Peer>): map<string, Room> {
    map t | t in rooms && (t !in done || agent !in rooms[t] || RoomDetach(rooms[t], agent, device, peer) != map[]) ::
      if t in done then RoomDetach(rooms[t], agent, device, peer) else rooms[t]
  }
}
