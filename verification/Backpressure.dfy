// How much a sender leaves buffered in its channel: the wait before each chunk
// (waitForBackpressure in internal/p2p/sender.go), and what it bounds over a
// whole stream.
module Backpressure {
  import opened Wrappers
  import opened GoIntegers
  import opened ChunkCrypto
  import opened Frames
  import opened SenderProtocol
  import opened StreamSimulation

  // A channel buffers what it is sent, and on its own only ever drains.
  class BufferedChannel {
    var buffered: nat

    constructor ()
      ensures buffered == 0
    {
      buffered := 0;
    }

    method Drain(n: nat)
      modifies this
      ensures buffered == Drained(old(buffered), n)
      ensures buffered == if n < old(buffered) then old(buffered) - n else 0
    {
      buffered := if n < buffered then buffered - n else 0;
    }
  }

  function Drained(buffered: nat, n: nat): nat { if n < buffered then buffered - n else 0 }

  // One turn of the wait: whether the context is cancelled, what drains before
  // the waiting begins, how the wait for a low buffer ends and what has drained
  // by then, and, should nothing have drained, the ten milliseconds after it.
  datatype Pause = Pause(cancelled: bool, early: nat, waitFails: bool, during: nat, cancelledLater: bool, later: nat)

  // What is buffered when the wait ends, and whether it ended well. When the
  // turns run out the context is cancelled.
  function Wait(buffered: nat, limit: nat, pauses: seq<Pause>): (nat, bool)
    decreases |pauses|
  {
    if limit == 0 || buffered <= limit then (buffered, true)
    else if pauses == [] || pauses[0].cancelled then (buffered, false)
    else
      var p := pauses[0];
      var before := Drained(buffered, p.early);
      var after := Drained(before, p.during);
      if p.waitFails then (after, false)
      else if after < before || after <= limit then Wait(after, limit, pauses[1..])
      else if p.cancelledLater then (after, false)
      else Wait(Drained(after, p.later), limit, pauses[1..])
  }

  method WaitForBackpressure(channel: BufferedChannel, limit: nat, pauses: seq<Pause>) returns (waited: bool)
    modifies channel
    ensures (channel.buffered, waited) == Wait(old(channel.buffered), limit, pauses)
  {
    if limit == 0 { return true; }
    var i := 0;
    while channel.buffered > limit
      invariant 0 <= i <= |pauses|
      invariant Wait(old(channel.buffered), limit, pauses) == Wait(channel.buffered, limit, pauses[i..])
      decreases |pauses| - i
    {
      if i == |pauses| || pauses[i].cancelled { return false; }
      assert pauses[i..][0] == pauses[i] && pauses[i..][1..] == pauses[i + 1..];
      channel.Drain(pauses[i].early);
      var before := channel.buffered;
      channel.Drain(pauses[i].during);
      if pauses[i].waitFails { return false; }
      var after := channel.buffered;
      if after >= before && after > limit {
        if pauses[i].cancelledLater { return false; }
        channel.Drain(pauses[i].later);
      }
      i := i + 1;
    }
    return true;
  }

  // A wait that ends well under a limit ends at or below it.
  lemma {:induction false} WaitedIsLow(buffered: nat, limit: nat, pauses: seq<Pause>)
    ensures var (b, waited) := Wait(buffered, limit, pauses);
      b <= buffered && (waited && limit > 0 ==> b <= limit)
    decreases |pauses|
  {
    if limit > 0 && buffered > limit && pauses != [] && !pauses[0].cancelled {
      var p := pauses[0];
      var after := Drained(Drained(buffered, p.early), p.during);
      WaitedIsLow(after, limit, pauses[1..]);
      WaitedIsLow(Drained(after, p.later), limit, pauses[1..]);
    }
  }

  // A turn goes on unless the context is cancelled, the wait fails, or nothing
  // has drained and the context is cancelled then.
  predicate GoesOn(buffered: nat, limit: nat, p: Pause) {
    !p.cancelled && !p.waitFails && (p.cancelledLater ==> p.during > 0 || buffered <= limit + p.early)
  }

  // What is buffered after these turns. The later drain counts only where the
  // wait had drained nothing.
  function LevelAfter(buffered: nat, limit: nat, pauses: seq<Pause>): nat {
    if pauses == [] then buffered
    else
      var p := pauses[0];
      var before := if p.early < buffered then buffered - p.early else 0;
      var after := if p.during < before then before - p.during else 0;
      LevelAfter(if after < before || after <= limit then after else if p.later < after then after - p.later else 0, limit, pauses[1..])
  }

  predicate AllGoOn(buffered: nat, limit: nat, pauses: seq<Pause>)
    decreases |pauses|
  {
    pauses != [] ==>
      && buffered > limit && GoesOn(buffered, limit, pauses[0])
      && AllGoOn(LevelAfter(buffered, limit, pauses[..1]), limit, pauses[1..])
  }

  lemma LevelOfOne(buffered: nat, limit: nat, p: Pause)
    ensures var before := Drained(buffered, p.early);
      var after := Drained(before, p.during);
      LevelAfter(buffered, limit, [p]) == if after < before || after <= limit then after else Drained(after, p.later)
  {
    var after := LevelAfter(buffered, limit, [p]);
    assert [p][1..] == [];
    assert LevelAfter(after, limit, []) == after;
  }

  // The wait ends well exactly when, after some turns that all go on, no more
  // than the limit is buffered; it ends there.
  lemma {:induction false} WaitsExactly(buffered: nat, limit: nat, pauses: seq<Pause>, n: nat)
    requires limit > 0 && n <= |pauses| && AllGoOn(buffered, limit, pauses[..n])
    ensures var level := LevelAfter(buffered, limit, pauses[..n]);
      && (level <= limit ==> Wait(buffered, limit, pauses) == (level, true))
      && (level > limit && (n == |pauses| || !GoesOn(level, limit, pauses[n])) ==> !Wait(buffered, limit, pauses).1)
    decreases n
  {
    hide LevelAfter;
    if n == 0 {
      assert LevelAfter(buffered, limit, pauses[..0]) == buffered by { NoTurns(buffered, limit); }
      if buffered > limit && pauses != [] && !GoesOn(buffered, limit, pauses[0]) { StoppedTurn(buffered, limit, pauses); }
    } else {
      var next := LevelAfter(buffered, limit, pauses[..1]);
      assert pauses[..n][0] == pauses[0] && pauses[..n][..1] == pauses[..1] && pauses[..n][1..] == pauses[1..][..n - 1];
      assert pauses[..1] == [pauses[0]];
      LevelOfOne(buffered, limit, pauses[0]);
      LevelSplits(buffered, limit, pauses[..n]);
      WentOn(buffered, limit, pauses);
      WaitsExactly(next, limit, pauses[1..], n - 1);
      assert n < |pauses| ==> pauses[1..][n - 1] == pauses[n];
    }
  }

  lemma NoTurns(buffered: nat, limit: nat)
    ensures LevelAfter(buffered, limit, []) == buffered
  {
  }

  lemma LevelSplits(buffered: nat, limit: nat, pauses: seq<Pause>)
    requires pauses != []
    ensures LevelAfter(buffered, limit, pauses) == LevelAfter(LevelAfter(buffered, limit, pauses[..1]), limit, pauses[1..])
  {
    assert pauses[..1] == [pauses[0]] && [pauses[0]][1..] == [];
  }

  lemma WentOn(buffered: nat, limit: nat, pauses: seq<Pause>)
    requires limit > 0 && buffered > limit && pauses != [] && GoesOn(buffered, limit, pauses[0])
    ensures var p := pauses[0];
      var before := Drained(buffered, p.early);
      var after := Drained(before, p.during);
      Wait(buffered, limit, pauses)
      == Wait(if after < before || after <= limit then after else Drained(after, p.later), limit, pauses[1..])
  {
  }

  lemma StoppedTurn(buffered: nat, limit: nat, pauses: seq<Pause>)
    requires limit > 0 && buffered > limit && pauses != [] && !GoesOn(buffered, limit, pauses[0])
    ensures !Wait(buffered, limit, pauses).1
  {
  }

  // ---- A sender over such a channel ----

  // What drains before a chunk's wait, and the wait.
  datatype Pace = Pace(drained: nat, pauses: seq<Pause>)

  // A sendChunk whose wait is this one: what the environment answered, the
  // sender after it, and what is buffered then.
  datatype Sending = Sending(io: ChunkIO, state: TxState, error: Option<P2PError>, buffered: nat)

  function Send(c: TxConfig, size: Frame -> nat, limit: nat, s: TxState, buffered: nat, data: Bytes, io: ChunkIO, p: Pace): Sending {
    var (low, waited) := Wait(Drained(buffered, p.drained), limit, p.pauses);
    var timed := io.(waited := waited);
    var (t, e) := SendStep(c, s, data, timed);
    Sending(timed, t, e, if e.None? && t.sent != [] then low + size(t.sent[|t.sent| - 1]) else low)
  }

  // A loop paced by its channel: the turns with the waits' own answers in them,
  // what was buffered right after each frame sent, and at the end.
  datatype Paced = Paced(turns: seq<Turn>, levels: seq<nat>, buffered: nat)

  function PacedLoop(c: TxConfig, size: Frame -> nat, limit: nat, s: TxState, buffered: nat, turns: seq<Turn>, paces: seq<Pace>): Paced
    requires |turns| <= |paces|
    decreases |turns|
  {
    if turns == [] || turns[0].cancelled then Paced(turns, [], buffered)
    else if turns[0].data == [] then
      if !turns[0].end.More? then Paced(turns, [], buffered)
      else
        var rest := PacedLoop(c, size, limit, s, buffered, turns[1..], paces[1..]);
        rest.(turns := [turns[0]] + rest.turns)
    else
      var x := Send(c, size, limit, s, buffered, turns[0].data, turns[0].io, paces[0]);
      var now := turns[0].(io := x.io);
      if x.error.Some? then Paced([now] + turns[1..], [], x.buffered)
      else if !now.end.More? then Paced([now] + turns[1..], [x.buffered], x.buffered)
      else
        var rest := PacedLoop(c, size, limit, x.state, x.buffered, turns[1..], paces[1..]);
        Paced([now] + rest.turns, [x.buffered] + rest.levels, rest.buffered)
  }

  datatype Pacing = Pacing(paces: seq<Pace>, sentinel: Pace, drainedLast: nat)

  // A whole stream paced by its channel.
  datatype Flow = Flow(script: Script, levels: seq<nat>)

  function ManifestLevel(c: TxConfig, size: Frame -> nat, s: TxState, sent: bool, buffered: nat): seq<nat> {
    if SendManifest(c, s, sent).result.Finished? then [buffered + size(ManifestFrame(FinalManifest(c, s)))] else []
  }

  function PacedStream(c: TxConfig, size: Frame -> nat, limit: nat, source: Bytes, script: Script, p: Pacing): Flow
    requires |script.turns| <= |p.paces|
  {
    if c.transferID == "" || (c.encryption.None? && !c.allowPlaintext) || StartSending(c, source).Err? then Flow(script, [])
    else
      var l := PacedLoop(c, size, limit, StartSending(c, source).value, 0, script.turns, p.paces);
      var o := ReadLoop(c, StartSending(c, source).value, l.turns);
      var looped := script.(turns := l.turns);
      if o.error.Some? then Flow(looped, l.levels)
      else if NeedsSentinel(c, o.state) then
        var x := Send(c, size, limit, o.state, l.buffered, [], script.sentinel, p.sentinel);
        Flow(looped.(sentinel := x.io),
             l.levels + if x.error.Some? then [] else
               [x.buffered] + ManifestLevel(c, size, x.state, script.manifestSent, Drained(x.buffered, p.drainedLast)))
      else Flow(looped, l.levels + ManifestLevel(c, size, o.state, script.manifestSent, Drained(l.buffered, p.drainedLast)))
  }

  // A sendChunk that goes well leaves at most the limit and its own frame.
  lemma SendLevel(c: TxConfig, size: Frame -> nat, limit: nat, s: TxState, buffered: nat, data: Bytes, io: ChunkIO, p: Pace)
    requires c.transferID != "" && limit > 0
    ensures var x := Send(c, size, limit, s, buffered, data, io, p);
      && (x.state, x.error) == SendStep(c, s, data, x.io)
      && (x.error.Some? ==> x.state.sent == s.sent && x.buffered == Wait(Drained(buffered, p.drained), limit, p.pauses).0 <= buffered)
      && (x.error.None? ==>
            && |x.state.sent| == |s.sent| + 1 && x.state.sent[..|s.sent|] == s.sent
            && x.state.sent[|s.sent|].frameType.Chunk?
            && x.buffered == Wait(Drained(buffered, p.drained), limit, p.pauses).0 + size(x.state.sent[|s.sent|])
            && x.buffered <= limit + size(x.state.sent[|s.sent|]))
  {
    hide Wait, ValidateFrame;
    WaitedIsLow(Drained(buffered, p.drained), limit, p.pauses);
    var x := Send(c, size, limit, s, buffered, data, io, p);
    if x.error.None? { SendEffect(c, s, data, x.io); }
  }

  // Every frame of the loop is a chunk, and what is buffered right after it is
  // at most the limit and that frame,
  // and never less than that frame.
  ghost predicate Leveled(size: Frame -> nat, limit: nat, before: seq<Frame>, after: seq<Frame>, levels: seq<nat>) {
    && before <= after && |levels| == |after| - |before|
    && forall k :: 0 <= k < |levels| ==>
         size(after[|before| + k]) <= levels[k] <= limit + size(after[|before| + k]) && after[|before| + k].frameType.Chunk?
  }

  // No more is buffered than the limit and the last frame sent.
  ghost predicate Under(size: Frame -> nat, limit: nat, sent: seq<Frame>, buffered: nat) {
    buffered <= if sent == [] then 0 else limit + size(sent[|sent| - 1])
  }

  lemma LevelsJoin(size: Frame -> nat, limit: nat, a: seq<Frame>, b: seq<Frame>, d: seq<Frame>, first: seq<nat>, rest: seq<nat>)
    requires Leveled(size, limit, a, b, first) && Leveled(size, limit, b, d, rest)
    ensures Leveled(size, limit, a, d, first + rest)
  {
    forall k | 0 <= k < |first + rest|
      ensures d[|a| + k].frameType.Chunk? && (first + rest)[k] <= limit + size(d[|a| + k])
    {
      if k < |first| {
        assert first[k] <= limit + size(b[|a| + k]) && d[|a| + k] == b[|a| + k];
      } else {
        var j := k - |first|;
        assert rest[j] <= limit + size(d[|b| + j]) && d[|b| + j].frameType.Chunk?;
        assert |a| + k == |b| + j;
      }
    }
  }

  lemma {:induction false} LoopLevels(c: TxConfig, size: Frame -> nat, limit: nat, s: TxState, buffered: nat, turns: seq<Turn>,
                                      paces: seq<Pace>)
    requires |turns| <= |paces| && c.transferID != "" && limit > 0 && Under(size, limit, s.sent, buffered)
    ensures var l := PacedLoop(c, size, limit, s, buffered, turns, paces);
      var sent := ReadLoop(c, s, l.turns).state.sent;
      Leveled(size, limit, s.sent, sent, l.levels) && Under(size, limit, sent, l.buffered)
    decreases |turns|
  {
    hide Send, SendStep, Leveled;
    SameFrames(size, limit, s.sent);
    if turns != [] && !turns[0].cancelled {
      var l := PacedLoop(c, size, limit, s, buffered, turns, paces);
      if turns[0].data == [] {
        if turns[0].end.More? {
          LoopLevels(c, size, limit, s, buffered, turns[1..], paces[1..]);
          assert l.turns[1..] == PacedLoop(c, size, limit, s, buffered, turns[1..], paces[1..]).turns;
        }
      } else {
        SendLevel(c, size, limit, s, buffered, turns[0].data, turns[0].io, paces[0]);
        var x := Send(c, size, limit, s, buffered, turns[0].data, turns[0].io, paces[0]);
        if x.error.None? {
          OneFrame(size, limit, s.sent, x.state.sent, x.buffered);
          if turns[0].end.More? {
            LoopLevels(c, size, limit, x.state, x.buffered, turns[1..], paces[1..]);
            var rest := PacedLoop(c, size, limit, x.state, x.buffered, turns[1..], paces[1..]);
            assert l.turns[1..] == rest.turns;
            LevelsJoin(size, limit, s.sent, x.state.sent, ReadLoop(c, x.state, rest.turns).state.sent, [x.buffered], rest.levels);
          }
        }
      }
    }
  }

  lemma SameFrames(size: Frame -> nat, limit: nat, frames: seq<Frame>)
    ensures Leveled(size, limit, frames, frames, [])
  {
  }

  lemma OneFrame(size: Frame -> nat, limit: nat, before: seq<Frame>, after: seq<Frame>, level: nat)
    requires |after| == |before| + 1 && after[..|before|] == before
    requires after[|before|].frameType.Chunk? && size(after[|before|]) <= level <= limit + size(after[|before|])
    ensures Leveled(size, limit, before, after, [level])
  {
  }

  // What is buffered right after each frame: the limit and that frame, but for
  // the manifest, which is last, is not waited for, and comes on top of what
  // the frame before it left.
  ghost predicate Bounded(size: Frame -> nat, limit: nat, sent: seq<Frame>, levels: seq<nat>) {
    && |levels| == |sent|
    && forall k :: 0 <= k < |sent| ==>
         if sent[k].frameType.Chunk? then size(sent[k]) <= levels[k] <= limit + size(sent[k])
         else k == |sent| - 1 && size(sent[k]) <= levels[k] <= (if k == 0 then 0 else limit + size(sent[k - 1])) + size(sent[k])
  }

  lemma ChunksAreBounded(size: Frame -> nat, limit: nat, sent: seq<Frame>, levels: seq<nat>)
    requires Leveled(size, limit, [], sent, levels)
    ensures Bounded(size, limit, sent, levels) && forall k :: 0 <= k < |sent| ==> sent[k].frameType.Chunk?
  {
    var none: seq<Frame> := [];
    forall k | 0 <= k < |sent| ensures size(sent[k]) <= levels[k] <= limit + size(sent[k]) && sent[k].frameType.Chunk? {
      assert sent[|none| + k] == sent[k];
    }
  }

  lemma ManifestIsBounded(c: TxConfig, size: Frame -> nat, limit: nat, s: TxState, sent: bool, buffered: nat, levels: seq<nat>)
    requires Leveled(size, limit, [], s.sent, levels) && Under(size, limit, s.sent, buffered)
    ensures Bounded(size, limit, SendManifest(c, s, sent).state.sent, levels + ManifestLevel(c, size, s, sent, buffered))
  {
    hide ValidateFrame, Leveled;
    ChunksAreBounded(size, limit, s.sent, levels);
    assert levels + [] == levels;
  }

  // Over every stream, whatever its frames measure, however its channel drains
  // and its waits go.
  lemma BufferStaysBounded(c: TxConfig, size: Frame -> nat, limit: nat, source: Bytes, script: Script, p: Pacing)
    requires |script.turns| <= |p.paces| && limit > 0
    ensures var flow := PacedStream(c, size, limit, source, script, p);
      Bounded(size, limit, Stream(c, source, flow.script).state.sent, flow.levels)
  {
    hide Send, SendStep, SendManifest, ManifestLevel, ReadLoop, PacedLoop, ValidateFrame, Leveled, Bounded;
    SameFrames(size, limit, []);
    ChunksAreBounded(size, limit, [], []);
    if c.transferID != "" && (c.encryption.Some? || c.allowPlaintext) && StartSending(c, source).Ok? {
      var s := StartSending(c, source).value;
      assert s.sent == [];
      LoopLevels(c, size, limit, s, 0, script.turns, p.paces);
      var l := PacedLoop(c, size, limit, s, 0, script.turns, p.paces);
      var o := ReadLoop(c, s, l.turns);
      if o.error.Some? {
        ChunksAreBounded(size, limit, o.state.sent, l.levels);
      } else if NeedsSentinel(c, o.state) {
        SentinelIsBounded(c, size, limit, o.state, l.buffered, l.levels, script, p);
        assert l.levels + [] == l.levels;
      } else {
        ManifestIsBounded(c, size, limit, o.state, script.manifestSent, Drained(l.buffered, p.drainedLast), l.levels);
      }
    }
  }

  lemma SentinelIsBounded(c: TxConfig, size: Frame -> nat, limit: nat, s: TxState, buffered: nat, levels: seq<nat>,
                          script: Script, p: Pacing)
    requires c.transferID != "" && limit > 0 && Leveled(size, limit, [], s.sent, levels) && Under(size, limit, s.sent, buffered)
    ensures var x := Send(c, size, limit, s, buffered, [], script.sentinel, p.sentinel);
      && (x.state, x.error) == SendStep(c, s, [], x.io)
      && (x.error.Some? ==> Bounded(size, limit, x.state.sent, levels))
      && (x.error.None? ==>
            Bounded(size, limit, SendManifest(c, x.state, script.manifestSent).state.sent,
                    levels + ([x.buffered] + ManifestLevel(c, size, x.state, script.manifestSent, Drained(x.buffered, p.drainedLast)))))
  {
    hide Send, SendStep, SendManifest, ManifestLevel, Leveled, Bounded, Wait;
    SendLevel(c, size, limit, s, buffered, [], script.sentinel, p.sentinel);
    var x := Send(c, size, limit, s, buffered, [], script.sentinel, p.sentinel);
    if x.error.Some? {
      ChunksAreBounded(size, limit, s.sent, levels);
    } else {
      OneFrame(size, limit, s.sent, x.state.sent, x.buffered);
      LevelsJoin(size, limit, [], s.sent, x.state.sent, levels, [x.buffered]);
      var last := ManifestLevel(c, size, x.state, script.manifestSent, Drained(x.buffered, p.drainedLast));
      ManifestIsBounded(c, size, limit, x.state, script.manifestSent, Drained(x.buffered, p.drainedLast), levels + [x.buffered]);
      assert levels + ([x.buffered] + last) == levels + [x.buffered] + last;
    }
  }
}
