/** Who receives whom: the control side (jamodio-agent/src/pipeline.rs, `add_stream`,
    `remove_stream`, `teardown_session`), the ordered command queue, and the receive thread
    (jamodio-agent/src/pipeline/recv_thread.rs), in every interleaving. */
module Generations {
  import opened Options
  import opened Conceal
  import opened Decoding
  import opened Reception
  import CoreRuns
  import DecodeRuns

  const MAX_RECV_STREAMS: nat := 32

  /** A stream as the receive thread registers it. */
  datatype Reg = Reg(producer: Producer, epoch: nat)

  datatype Cmd = Add(reg: Reg) | Unregister(reg: Reg)

  // ------------------------------------------------------------------ the control side

  datatype Control = Control(recvStreams: map<Producer, nat>, recvEpoch: nat, threadRunning: bool)

  /** What may fail while a stream is added: its address, keys and socket; the start of the thread;
      the opening of the output, which comes last. */
  datatype AddOutcome = AddOutcome(prepared: bool, spawned: bool, playing: bool)

  predicate HasCapacity(current: nat) {
    current < MAX_RECV_STREAMS
  }

  /** The control side and the commands it sent. */
  datatype Sent = Sent(control: Control, cmds: seq<Cmd>, ok: bool)

  function RemoveStream(c: Control, id: Producer): Sent {
    if id in c.recvStreams then
      Sent(c.(recvStreams := c.recvStreams - {id}),
           if c.threadRunning then [Unregister(Reg(id, c.recvStreams[id]))] else [], true)
    else Sent(c, [], true)
  }

  function AddStream(c: Control, id: Producer, o: AddOutcome): Sent {
    var removed := RemoveStream(c, id);
    var c1 := removed.control;
    if !HasCapacity(|c1.recvStreams|) || !o.prepared || (!c1.threadRunning && !o.spawned) then
      Sent(c1, removed.cmds, false)
    else
      var epoch := c1.recvEpoch + 1;
      Sent(Control(c1.recvStreams[id := epoch], epoch, true), removed.cmds + [Add(Reg(id, epoch))], o.playing)
  }

  /** The addition can be made: it is prepared, the thread runs or starts, fewer than 32 others are
      received. */
  predicate Possible(c: Control, id: Producer, o: AddOutcome) {
    o.prepared && (c.threadRunning || o.spawned) && |c.recvStreams.Keys - {id}| < 32
  }

  /** The command that takes back the generation received. */
  function TakenBack(c: Control, id: Producer): seq<Cmd> {
    if id in c.recvStreams && c.threadRunning then [Unregister(Reg(id, c.recvStreams[id]))] else []
  }

  /** An addition that can be made is made, whether or not the producer was received: one more generation,
      the former one taken back before. Otherwise the producer is not received any more. */
  lemma {:induction false} AdditionMeans(c: Control, id: Producer, o: AddOutcome)
    ensures
      var sent := AddStream(c, id, o);
      if Possible(c, id, o) then
        && sent.control == Control(c.recvStreams[id := c.recvEpoch + 1], c.recvEpoch + 1, true)
        && sent.cmds == TakenBack(c, id) + [Cmd.Add(Reg(id, c.recvEpoch + 1))]
        && sent.ok == o.playing
      else
        && sent.control == Control(c.recvStreams - {id}, c.recvEpoch, c.threadRunning)
        && sent.cmds == TakenBack(c, id)
        && !sent.ok
  {
    WithoutOne(c.recvStreams, id, c.recvEpoch + 1);
  }

  lemma {:induction false} WithoutOne(streams: map<Producer, nat>, id: Producer, epoch: nat)
    ensures |streams - {id}| == |streams.Keys - {id}|
    ensures id !in streams ==> streams - {id} == streams
    ensures (streams - {id})[id := epoch] == streams[id := epoch]
  {
    assert (streams - {id}).Keys == streams.Keys - {id};
  }

  /** The part of the pipeline that decides what is received. */
  class ReceiveControl {
    var recvStreams: map<Producer, nat>
    var recvEpoch: nat
    var threadRunning: bool
    var sent: seq<Cmd>

    ghost function View(): Control
      reads this
    {
      Control(recvStreams, recvEpoch, threadRunning)
    }

    constructor ()
      ensures View() == Control(map[], 0, false) && sent == []
    {
      recvStreams, recvEpoch, threadRunning, sent := map[], 0, false, [];
    }

    method Remove(id: Producer)
      modifies this
      ensures View() == RemoveStream(old(View()), id).control
      ensures sent == old(sent) + RemoveStream(old(View()), id).cmds
      ensures View() == Control(old(recvStreams) - {id}, old(recvEpoch), old(threadRunning))
      ensures sent == old(sent) + TakenBack(old(View()), id)
    {
      assert id !in recvStreams ==> recvStreams - {id} == recvStreams;
      if id in recvStreams {
        var epoch := recvStreams[id];
        recvStreams := recvStreams - {id};
        if threadRunning {
          sent := sent + [Unregister(Reg(id, epoch))];
        }
      }
    }

    method Add(id: Producer, o: AddOutcome) returns (ok: bool)
      modifies this
      ensures View() == AddStream(old(View()), id, o).control
      ensures sent == old(sent) + AddStream(old(View()), id, o).cmds
      ensures ok == AddStream(old(View()), id, o).ok
      ensures
        if Possible(old(View()), id, o) then
          && View() == Control(old(recvStreams)[id := old(recvEpoch) + 1], old(recvEpoch) + 1, true)
          && ok == o.playing
        else
          View() == Control(old(recvStreams) - {id}, old(recvEpoch), old(threadRunning)) && !ok
    {
      AdditionMeans(View(), id, o);
      hide Possible;
      Remove(id);
      if !HasCapacity(|recvStreams|) || !o.prepared {
        return false;
      }
      if !threadRunning {
        if !o.spawned {
          return false;
        }
        threadRunning := true;
      }
      recvEpoch := recvEpoch + 1;
      recvStreams := recvStreams[id := recvEpoch];
      sent := sent + [Cmd.Add(Reg(id, recvEpoch))];
      return o.playing;
    }
  }

  // ------------------------------------------------------------------ the whole system

  /** `failed` remembers the streams whose socket could not be registered. `closing`: the control
      side closed the queue and waits for the thread to end. */
  datatype Thread =
    | Absent
    | Dead
    | Running(regs: set<Reg>, queue: seq<Cmd>, core: CoreState, closing: bool)

  datatype System = System(control: Control, thread: Thread, failed: set<Reg>)

  const BOOT := System(Control(map[], 0, false), Absent, {})

  datatype Step =
    | Adding(id: Producer, outcome: AddOutcome)
    | Removing(id: Producer)
    | TearingDown(order: seq<Producer>)
    | Processing(registered: bool)
    | Reading(reg: Reg, created: bool, packet: Packet, block: Measure)
    | Masking(now: Time, looks: Producer -> Look, block: Measure)
    | Ending
    | PollFailing

  function RegsOf(streams: map<Producer, nat>): set<Reg> {
    set id | id in streams :: Reg(id, streams[id])
  }

  /** `remove_stream` for every producer of `order`. */
  function RemoveAll(c: Control, order: seq<Producer>): Sent
    decreases |order|
  {
    if order == [] then Sent(c, [], true) else
    var first := RemoveStream(c, order[0]);
    var rest := RemoveAll(first.control, order[1..]);
    Sent(rest.control, first.cmds + rest.cmds, true)
  }

  /** Commands reach a thread that runs; a dead one loses them. */
  function Send(t: Thread, cmds: seq<Cmd>): Thread {
    match t
    case Running(_, queue, _, _) => t.(queue := queue + cmds)
    case Absent => if cmds == [] then Absent else Running({}, cmds, EMPTY, false)
    case Dead => Dead
  }

  function RegsAfter(regs: set<Reg>, cmd: Cmd): set<Reg> {
    match cmd
    case Add(reg) => regs + {reg}
    case Unregister(reg) => regs - {reg}
  }

  predicate Enabled(s: System, step: Step) {
    var controlFree := s.thread.Running? ==> !s.thread.closing;
    match step
    case Adding(_, _) => controlFree
    case Removing(_) => controlFree
    case TearingDown(order) => controlFree && s.control.recvStreams.Keys == set id | id in order
    case Processing(_) => s.thread.Running? && s.thread.queue != []
    case Reading(reg, _, _, _) => s.thread.Running? && reg in s.thread.regs
    case Masking(_, _, _) => s.thread.Running?
    case Ending => s.thread.Running? && s.thread.closing && s.thread.queue == []
    case PollFailing => s.thread.Running?
  }

  function Next(s: System, step: Step): System
    requires Enabled(s, step)
  {
    match step
    case Adding(id, outcome) =>
      var sent := AddStream(s.control, id, outcome);
      s.(control := sent.control, thread := Send(s.thread, sent.cmds))
    case Removing(id) =>
      var sent := RemoveStream(s.control, id);
      s.(control := sent.control, thread := Send(s.thread, sent.cmds))
    case TearingDown(order) =>
      var sent := RemoveAll(s.control, order);
      if s.thread.Running? then
        s.(control := sent.control, thread := Send(s.thread, sent.cmds).(closing := true))
      else
        s.(control := sent.control.(threadRunning := false), thread := Absent)
    case Processing(registered) =>
      var cmd := s.thread.queue[0];
      var t := s.thread.(queue := s.thread.queue[1..]);
      (match cmd
       case Add(reg) =>
         if registered then s.(thread := t.(regs := t.regs + {reg}))
         else s.(thread := t, failed := s.failed + {reg})
       case Unregister(reg) =>
         if reg in t.regs
         then s.(thread := t.(regs := t.regs - {reg}, core := Remove(t.core, reg.producer, reg.epoch)))
         else s.(thread := t))
    case Reading(reg, created, packet, block) =>
      s.(thread := s.thread.(core := OnPacket(s.thread.core, reg.producer, reg.epoch, created, packet, block)))
    case Masking(now, looks, block) =>
      s.(thread := s.thread.(core := ConcealDue(s.thread.core, now, looks, block)))
    case Ending => s.(control := s.control.(threadRunning := false), thread := Absent)
    case PollFailing => s.(thread := if s.thread.closing then Absent else Dead,
                           control := if s.thread.closing then s.control.(threadRunning := false) else s.control)
  }

  function Run(s: System, steps: seq<Step>): System
    requires Allowed(s, steps)
    decreases |steps|
  {
    if steps == [] then s else Run(Next(s, steps[0]), steps[1..])
  }

  predicate Allowed(s: System, steps: seq<Step>)
    decreases |steps|
  {
    steps == [] || (Enabled(s, steps[0]) && Allowed(Next(s, steps[0]), steps[1..]))
  }

  // ------------------------------------------------------------------ the pending queue

  /** The registrations once every pending command is carried out. */
  function ApplyAll(regs: set<Reg>, queue: seq<Cmd>): set<Reg>
    decreases |queue|
  {
    if queue == [] then regs else ApplyAll(RegsAfter(regs, queue[0]), queue[1..])
  }

  /** At most one generation of each producer. */
  ghost predicate Once(regs: set<Reg>) {
    forall a, b :: a in regs && b in regs && a.producer == b.producer ==> a == b
  }

  /** It stays so after each pending command. */
  ghost predicate AlwaysOnce(regs: set<Reg>, queue: seq<Cmd>)
    decreases |queue|
  {
    Once(regs) && (queue != [] ==> AlwaysOnce(RegsAfter(regs, queue[0]), queue[1..]))
  }

  lemma {:induction false} OneMoreCommand(regs: set<Reg>, queue: seq<Cmd>, cmd: Cmd)
    ensures ApplyAll(regs, queue + [cmd]) == RegsAfter(ApplyAll(regs, queue), cmd)
    ensures AlwaysOnce(regs, queue) && Once(RegsAfter(ApplyAll(regs, queue), cmd)) ==> AlwaysOnce(regs, queue + [cmd])
    decreases |queue|
  {
    if queue != [] {
      assert (queue + [cmd])[1..] == queue[1..] + [cmd];
      OneMoreCommand(RegsAfter(regs, queue[0]), queue[1..], cmd);
    } else {
      assert (queue + [cmd])[1..] == [];
    }
  }

  lemma {:induction false} FewerStaysOnce(fewer: set<Reg>, regs: set<Reg>, queue: seq<Cmd>)
    requires fewer <= regs && AlwaysOnce(regs, queue)
    ensures AlwaysOnce(fewer, queue)
    decreases |queue|
  {
    if queue != [] {
      FewerStaysOnce(RegsAfter(fewer, queue[0]), RegsAfter(regs, queue[0]), queue[1..]);
    }
  }

  /** A registration that failed is missing after the queue too, unless the queue adds it again. */
  lemma {:induction false} MissingStaysMissing(regs: set<Reg>, queue: seq<Cmd>, reg: Reg)
    requires Cmd.Add(reg) !in queue
    ensures ApplyAll(regs - {reg}, queue) == ApplyAll(regs, queue) - {reg}
    decreases |queue|
  {
    if queue != [] {
      var after := RegsAfter(regs, queue[0]);
      assert queue[0] in queue;
      assert RegsAfter(regs - {reg}, queue[0]) == after - {reg};
      MissingStaysMissing(after, queue[1..], reg);
    }
  }

  // ------------------------------------------------------------------ the invariant

  /** Generations only grow: what waits to be added is newer than all that was. */
  ghost predicate EpochsBelow(regs: set<Reg>, queue: seq<Cmd>, failed: set<Reg>, bound: nat) {
    && (forall r :: r in regs ==> r.epoch <= bound)
    && (forall k, r :: 0 <= k < |queue| && queue[k].Add? && r in regs ==> r.epoch < queue[k].reg.epoch)
    && (forall k :: 0 <= k < |queue| && queue[k].Add? ==> queue[k].reg.epoch <= bound)
    && (forall j, k :: 0 <= j < k < |queue| && queue[j].Add? && queue[k].Add? ==> queue[j].reg.epoch < queue[k].reg.epoch)
    && (forall k, f :: 0 <= k < |queue| && queue[k].Add? && f in failed ==> f.epoch < queue[k].reg.epoch)
    && (forall f :: f in failed ==> f.epoch <= bound)
  }

  ghost predicate ControlSound(c: Control) {
    && |c.recvStreams| <= MAX_RECV_STREAMS
    && (forall id :: id in c.recvStreams ==> c.recvStreams[id] <= c.recvEpoch)
  }

  ghost predicate CoreFollows(regs: set<Reg>, core: CoreState) {
    && CoreRuns.Agreeing(core)
    && forall id :: id in core.states ==> Reg(id, core.states[id].epoch) in regs
  }

  ghost predicate ThreadSound(c: Control, t: Thread, failed: set<Reg>)
    requires t.Running?
  {
    && c.threadRunning
    && ApplyAll(t.regs, t.queue) == RegsOf(c.recvStreams) - failed
    && AlwaysOnce(t.regs, t.queue)
    && EpochsBelow(t.regs, t.queue, failed, c.recvEpoch)
    && CoreFollows(t.regs, t.core)
    && (t.closing ==> c.recvStreams == map[])
  }

  ghost predicate Sound(s: System) {
    && ControlSound(s.control)
    && (forall f :: f in s.failed ==> f.epoch <= s.control.recvEpoch)
    && match s.thread
       case Absent => !s.control.threadRunning && s.control.recvStreams == map[]
       case Dead => s.control.threadRunning
       case Running(_, _, _, _) => ThreadSound(s.control, s.thread, s.failed)
  }

  // ------------------------------------------------------------------ every step keeps it

  lemma {:induction false} RegsWithout(streams: map<Producer, nat>, id: Producer)
    requires id in streams
    ensures RegsOf(streams - {id}) == RegsOf(streams) - {Reg(id, streams[id])}
  {
    forall r
      ensures r in RegsOf(streams - {id}) <==> r in RegsOf(streams) && r != Reg(id, streams[id])
    {
      if r in RegsOf(streams) && r != Reg(id, streams[id]) {
        assert r.producer in streams - {id};
      }
    }
  }

  lemma {:induction false} RegsWith(streams: map<Producer, nat>, id: Producer, epoch: nat)
    requires id !in streams
    ensures RegsOf(streams[id := epoch]) == RegsOf(streams) + {Reg(id, epoch)}
  {
    forall r
      ensures r in RegsOf(streams[id := epoch]) <==> r in RegsOf(streams) || r == Reg(id, epoch)
    {
      if r in RegsOf(streams) || r == Reg(id, epoch) {
        assert r.producer in streams[id := epoch] && streams[id := epoch][r.producer] == r.epoch;
      }
    }
  }

  lemma {:induction false} EpochsAppend(regs: set<Reg>, queue: seq<Cmd>, failed: set<Reg>, bound: nat, cmd: Cmd, bound': nat)
    requires EpochsBelow(regs, queue, failed, bound) && bound <= bound'
    requires cmd.Add? ==> bound < cmd.reg.epoch <= bound'
    ensures EpochsBelow(regs, queue + [cmd], failed, bound')
  {
  }

  lemma {:induction false} SendRemoval(c: Control, t: Thread, failed: set<Reg>, id: Producer)
    requires t.Running? && ThreadSound(c, t, failed) && ControlSound(c)
    ensures
      var sent := RemoveStream(c, id);
      && ThreadSound(sent.control, Send(t, sent.cmds), failed) && ControlSound(sent.control)
      && sent.control.recvStreams == c.recvStreams - {id} && sent.control.recvEpoch == c.recvEpoch
  {
    hide CoreFollows, ApplyAll, AlwaysOnce, EpochsBelow, RegsOf;
    var sent := RemoveStream(c, id);
    if id in c.recvStreams {
      EpochsAppend(t.regs, t.queue, failed, c.recvEpoch, Unregister(Reg(id, c.recvStreams[id])), c.recvEpoch);
      var reg := Reg(id, c.recvStreams[id]);
      OneMoreCommand(t.regs, t.queue, Unregister(reg));
      RegsWithout(c.recvStreams, id);
      OnceForMap(c.recvStreams - {id});
    } else {
      assert t.queue + [] == t.queue;
      assert c.recvStreams - {id} == c.recvStreams;
    }
  }

  lemma {:induction false} OnceForMap(streams: map<Producer, nat>)
    ensures Once(RegsOf(streams))
  {
  }

  lemma {:induction false} SendAddition(c: Control, t: Thread, failed: set<Reg>, id: Producer)
    requires t.Running? && ThreadSound(c, t, failed) && ControlSound(c)
    requires id !in c.recvStreams && HasCapacity(|c.recvStreams|) && !t.closing
    requires forall f :: f in failed ==> f.epoch <= c.recvEpoch
    ensures
      var epoch := c.recvEpoch + 1;
      var c' := Control(c.recvStreams[id := epoch], epoch, true);
      ThreadSound(c', Send(t, [Cmd.Add(Reg(id, epoch))]), failed) && ControlSound(c')
  {
    hide CoreFollows, ApplyAll, AlwaysOnce, EpochsBelow, RegsOf;
    var epoch := c.recvEpoch + 1;
    var reg := Reg(id, epoch);
    EpochsAppend(t.regs, t.queue, failed, c.recvEpoch, Cmd.Add(reg), epoch);
    assert reg !in failed;
    OneMoreCommand(t.regs, t.queue, Cmd.Add(reg));
    RegsWith(c.recvStreams, id, epoch);
    OnceForMap(c.recvStreams[id := epoch]);
  }

  lemma {:induction false} SendTwice(t: Thread, first: seq<Cmd>, second: seq<Cmd>)
    requires t.Running?
    ensures Send(t, first + second) == Send(Send(t, first), second)
  {
    assert t.queue + (first + second) == (t.queue + first) + second;
  }

  /** A thread just started and given nothing yet. */
  const IDLE_THREAD := Running({}, [], EMPTY, false)

  lemma {:induction false} AddingToRunning(c: Control, t: Thread, failed: set<Reg>, id: Producer, o: AddOutcome)
    requires t.Running? && ThreadSound(c, t, failed) && ControlSound(c) && !t.closing
    requires forall f :: f in failed ==> f.epoch <= c.recvEpoch
    ensures
      var sent := AddStream(c, id, o);
      ThreadSound(sent.control, Send(t, sent.cmds), failed) && ControlSound(sent.control)
  {
    hide ThreadSound, ControlSound;
    var removed := RemoveStream(c, id);
    var c1 := removed.control;
    SendRemoval(c, t, failed, id);
    if AddStream(c, id, o).control != c1 {
      assert Send(t, removed.cmds).closing == t.closing;
      assert c1.recvEpoch == c.recvEpoch;
      SendAddition(c1, Send(t, removed.cmds), failed, id);
      SendTwice(t, removed.cmds, [Cmd.Add(Reg(id, c1.recvEpoch + 1))]);
    }
  }

  lemma {:induction false} IdleSound(c: Control, failed: set<Reg>)
    requires ControlSound(c) && c.recvStreams == map[] && c.threadRunning
    requires forall f :: f in failed ==> f.epoch <= c.recvEpoch
    ensures ThreadSound(c, IDLE_THREAD, failed)
  {
    assert RegsOf(c.recvStreams) == {};
    assert CoreRuns.Agreeing(EMPTY);
  }

  lemma {:induction false} AddingToAbsent(c: Control, failed: set<Reg>, id: Producer, o: AddOutcome)
    requires ControlSound(c) && c.recvStreams == map[] && !c.threadRunning
    requires forall f :: f in failed ==> f.epoch <= c.recvEpoch
    ensures
      var sent := AddStream(c, id, o);
      && ControlSound(sent.control)
      && (sent.cmds == [] ==> sent.control == c)
      && (sent.cmds != [] ==> ThreadSound(sent.control, Send(IDLE_THREAD, sent.cmds), failed))
  {
    hide ThreadSound, ControlSound, Send;
    var sent := AddStream(c, id, o);
    if sent.control != c {
      var c2 := c.(threadRunning := true);
      assert ControlSound(c2) by {
        ControlIgnoresThread(c, c2);
      }
      IdleSound(c2, failed);
      SendAddition(c2, IDLE_THREAD, failed, id);
      assert sent.cmds == [Cmd.Add(Reg(id, c.recvEpoch + 1))];
    }
  }

  lemma {:induction false} ControlIgnoresThread(c: Control, c': Control)
    requires ControlSound(c) && c' == c.(threadRunning := c'.threadRunning)
    ensures ControlSound(c')
  {
  }

  lemma {:induction false} AddingKeeps(s: System, id: Producer, o: AddOutcome)
    requires Sound(s) && Enabled(s, Adding(id, o))
    ensures Sound(Next(s, Adding(id, o)))
  {
    hide ThreadSound, ControlSound, AddStream;
    AddingRaisesEpoch(s.control, id, o);
    match s.thread {
      case Running(_, _, _, _) => AddingToRunning(s.control, s.thread, s.failed, id, o);
      case Absent =>
        AddingToAbsent(s.control, s.failed, id, o);
        assert [] + AddStream(s.control, id, o).cmds == AddStream(s.control, id, o).cmds;
      case Dead => AddingToDead(s.control, id, o);
    }
  }

  lemma {:induction false} AddingRaisesEpoch(c: Control, id: Producer, o: AddOutcome)
    ensures AddStream(c, id, o).control.recvEpoch >= c.recvEpoch
    ensures AddStream(c, id, o).cmds != [] ==> AddStream(c, id, o).control.threadRunning
    ensures c.threadRunning ==> AddStream(c, id, o).control.threadRunning
  {
  }

  lemma {:induction false} AddingToDead(c: Control, id: Producer, o: AddOutcome)
    requires ControlSound(c)
    ensures ControlSound(AddStream(c, id, o).control)
  {
  }

  lemma {:induction false} RemoveAllKeeps(c: Control, t: Thread, failed: set<Reg>, order: seq<Producer>)
    requires t.Running? && ThreadSound(c, t, failed) && ControlSound(c)
    requires c.recvStreams.Keys <= set id | id in order
    ensures
      var sent := RemoveAll(c, order);
      && ThreadSound(sent.control, Send(t, sent.cmds), failed) && ControlSound(sent.control)
      && sent.control.recvStreams == map[] && sent.control.recvEpoch == c.recvEpoch
    decreases |order|
  {
    if order == [] {
      assert t.queue + [] == t.queue;
    } else {
      var first := RemoveStream(c, order[0]);
      SendRemoval(c, t, failed, order[0]);
      forall id | id in first.control.recvStreams
        ensures id in order[1..]
      {
        assert id in order && id != order[0];
      }
      RemoveAllKeeps(first.control, Send(t, first.cmds), failed, order[1..]);
      SendTwice(t, first.cmds, RemoveAll(first.control, order[1..]).cmds);
    }
  }

  /** A removal takes away the registration and the decode state of its own generation only. */
  lemma {:induction false} RemovalFollows(regs: set<Reg>, core: CoreState, reg: Reg)
    requires CoreFollows(regs, core)
    ensures CoreFollows(regs - {reg}, Remove(core, reg.producer, reg.epoch))
  {
    hide DecodeRuns.Sound;
  }

  lemma {:induction false} EpochsTail(regs: set<Reg>, queue: seq<Cmd>, failed: set<Reg>, bound: nat)
    requires queue != [] && EpochsBelow(regs, queue, failed, bound)
    ensures EpochsBelow(RegsAfter(regs, queue[0]), queue[1..], failed, bound)
    ensures queue[0].Add? ==> EpochsBelow(regs, queue[1..], failed + {queue[0].reg}, bound)
    ensures queue[0].Add? ==> queue[0] !in queue[1..] && queue[0].reg !in regs
  {
    var tail := queue[1..];
    forall k | 0 <= k < |tail|
      ensures tail[k] == queue[k + 1]
    {
    }
  }

  lemma {:induction false} CommandTaken(c: Control, t: Thread, failed: set<Reg>, core: CoreState)
    requires t.Running? && t.queue != [] && ThreadSound(c, t, failed)
    requires CoreFollows(RegsAfter(t.regs, t.queue[0]), core)
    ensures ThreadSound(c, t.(queue := t.queue[1..], regs := RegsAfter(t.regs, t.queue[0]), core := core), failed)
  {
    hide CoreFollows, EpochsBelow, RegsOf;
    EpochsTail(t.regs, t.queue, failed, c.recvEpoch);
  }

  lemma {:induction false} RegistrationFails(c: Control, t: Thread, failed: set<Reg>)
    requires t.Running? && t.queue != [] && t.queue[0].Add? && ThreadSound(c, t, failed)
    ensures ThreadSound(c, t.(queue := t.queue[1..]), failed + {t.queue[0].reg})
  {
    hide CoreFollows, EpochsBelow, RegsOf;
    var reg := t.queue[0].reg;
    var tail := t.queue[1..];
    EpochsTail(t.regs, t.queue, failed, c.recvEpoch);
    MissingStaysMissing(t.regs + {reg}, tail, reg);
    assert (t.regs + {reg}) - {reg} == t.regs;
    FewerStaysOnce(t.regs, t.regs + {reg}, tail);
    assert RegsOf(c.recvStreams) - (failed + {reg}) == (RegsOf(c.recvStreams) - failed) - {reg};
  }

  lemma {:induction false} MoreRegistrations(regs: set<Reg>, core: CoreState, reg: Reg)
    requires CoreFollows(regs, core)
    ensures CoreFollows(regs + {reg}, core)
  {
    hide CoreRuns.Agreeing;
  }

  lemma {:induction false} ProcessingKeeps(s: System, registered: bool)
    requires Sound(s) && Enabled(s, Processing(registered))
    ensures Sound(Next(s, Processing(registered)))
  {
    hide CoreFollows, Remove, ApplyAll, AlwaysOnce, EpochsBelow, RegsOf;
    var t := s.thread;
    match t.queue[0] {
      case Add(reg) =>
        if registered {
          MoreRegistrations(t.regs, t.core, reg);
          CommandTaken(s.control, t, s.failed, t.core);
        } else {
          RegistrationFails(s.control, t, s.failed);
          assert reg.epoch <= s.control.recvEpoch by {
            QueuedIsBelow(t.regs, t.queue, s.failed, s.control.recvEpoch);
          }
        }
      case Unregister(reg) =>
        if reg in t.regs {
          RemovalFollows(t.regs, t.core, reg);
          CommandTaken(s.control, t, s.failed, Remove(t.core, reg.producer, reg.epoch));
        } else {
          assert t.regs - {reg} == t.regs;
          CommandTaken(s.control, t, s.failed, t.core);
        }
    }
  }

  lemma {:induction false} QueuedIsBelow(regs: set<Reg>, queue: seq<Cmd>, failed: set<Reg>, bound: nat)
    requires queue != [] && queue[0].Add? && EpochsBelow(regs, queue, failed, bound)
    ensures queue[0].reg.epoch <= bound
  {
  }

  lemma {:induction false} ReadingKeeps(s: System, reg: Reg, created: bool, p: Packet, block: Measure)
    requires Sound(s) && Enabled(s, Reading(reg, created, p, block))
    ensures Sound(Next(s, Reading(reg, created, p, block)))
  {
    hide DecodeRuns.Sound, OnPacket;
    CoreRuns.HearKeeps(s.thread.core, reg.producer, reg.epoch, created, p, block);
    var core' := OnPacket(s.thread.core, reg.producer, reg.epoch, created, p, block);
    assert CoreFollows(s.thread.regs, core');
  }

  lemma {:induction false} MaskingKeeps(s: System, now: Time, looks: Producer -> Look, block: Measure)
    requires Sound(s) && Enabled(s, Masking(now, looks, block))
    ensures Sound(Next(s, Masking(now, looks, block)))
  {
    hide DecodeRuns.Sound, ConcealDue;
    CoreRuns.MaskKeeps(s.thread.core, now, looks, block);
    var core' := ConcealDue(s.thread.core, now, looks, block);
    assert CoreFollows(s.thread.regs, core');
  }

  lemma {:induction false} RemovalOnControl(c: Control, id: Producer)
    requires ControlSound(c)
    ensures
      var c' := RemoveStream(c, id).control;
      && ControlSound(c') && c'.threadRunning == c.threadRunning && c'.recvEpoch == c.recvEpoch
      && (c.recvStreams == map[] ==> c'.recvStreams == map[])
    ensures RemoveStream(c, id).cmds != [] ==> c.recvStreams != map[]
  {
    if id in c.recvStreams {
      assert (c.recvStreams - {id}).Keys == c.recvStreams.Keys - {id};
    }
  }

  lemma {:induction false} RemovingKeeps(s: System, id: Producer)
    requires Sound(s) && Enabled(s, Removing(id))
    ensures Sound(Next(s, Removing(id)))
  {
    hide ThreadSound, ControlSound, RemoveStream;
    RemovalOnControl(s.control, id);
    if s.thread.Running? {
      SendRemoval(s.control, s.thread, s.failed, id);
    }
  }

  lemma {:induction false} TearingDownKeeps(s: System, order: seq<Producer>)
    requires Sound(s) && Enabled(s, TearingDown(order))
    ensures Sound(Next(s, TearingDown(order)))
  {
    hide RemoveAll;
    RemoveAllEmpties(s.control, order);
    if s.thread.Running? {
      var sent := RemoveAll(s.control, order);
      RemoveAllKeeps(s.control, s.thread, s.failed, order);
      ClosingKeeps(sent.control, Send(s.thread, sent.cmds), s.failed);
    }
  }

  lemma {:induction false} ClosingKeeps(c: Control, t: Thread, failed: set<Reg>)
    requires t.Running? && ThreadSound(c, t, failed) && c.recvStreams == map[]
    ensures ThreadSound(c, t.(closing := true), failed)
  {
  }

  lemma {:induction false} EndKeeps(s: System, step: Step)
    requires Sound(s) && Enabled(s, step) && (step.Ending? || step.PollFailing?)
    ensures Sound(Next(s, step))
  {
    hide CoreFollows, ApplyAll, AlwaysOnce, EpochsBelow, RegsOf;
  }

  lemma {:induction false} RemoveAllEmpties(c: Control, order: seq<Producer>)
    requires c.recvStreams.Keys <= set id | id in order
    ensures RemoveAll(c, order).control == c.(recvStreams := map[])
    decreases |order|
  {
    if order != [] {
      var first := RemoveStream(c, order[0]);
      forall id | id in first.control.recvStreams
        ensures id in order[1..]
      {
        assert id in order && id != order[0];
      }
      RemoveAllEmpties(first.control, order[1..]);
    }
  }

  /** Every interleaving of the control side and the thread, with every failure. */
  lemma {:induction false} RunSound(s: System, steps: seq<Step>)
    requires Sound(s) && Allowed(s, steps)
    ensures Sound(Run(s, steps))
    decreases |steps|
  {
    hide Sound, Next;
    if steps != [] {
      match steps[0] {
        case Adding(id, o) => AddingKeeps(s, id, o);
        case Processing(registered) => ProcessingKeeps(s, registered);
        case Reading(reg, created, p, block) => ReadingKeeps(s, reg, created, p, block);
        case Masking(now, looks, block) => MaskingKeeps(s, now, looks, block);
        case Removing(id) => RemovingKeeps(s, id);
        case TearingDown(order) => TearingDownKeeps(s, order);
        case _ => EndKeeps(s, steps[0]);
      }
      RunSound(Next(s, steps[0]), steps[1..]);
    }
  }

  // ------------------------------------------------------------------ what it means

  /** What the thread will receive once its queue is empty is exactly what the control side holds,
      less the streams whose socket could not be registered; and the limit is never passed. */
  lemma {:induction false} QueueLeadsToControl(steps: seq<Step>)
    requires Allowed(BOOT, steps)
    ensures
      var s := Run(BOOT, steps);
      && |s.control.recvStreams| <= MAX_RECV_STREAMS
      && (s.thread.Running? ==>
            && ApplyAll(s.thread.regs, s.thread.queue) == RegsOf(s.control.recvStreams) - s.failed
            && Once(s.thread.regs)
            && (s.thread.queue == [] ==> s.thread.regs == RegsOf(s.control.recvStreams) - s.failed))
  {
    RunSound(BOOT, steps);
  }

  /** A packet of a registered stream finds no decode state, or the one of its own generation: the
      branches for a stale packet and for a superseded state are never taken. */
  lemma {:induction false} StaleIsUnreachable(steps: seq<Step>, reg: Reg)
    requires Allowed(BOOT, steps)
    requires Run(BOOT, steps).thread.Running? && reg in Run(BOOT, steps).thread.regs
    ensures
      var core := Run(BOOT, steps).thread.core;
      reg.producer in core.states ==> core.states[reg.producer].epoch == reg.epoch
  {
    RunSound(BOOT, steps);
    var t := Run(BOOT, steps).thread;
    if reg.producer in t.core.states {
      var held := Reg(reg.producer, t.core.states[reg.producer].epoch);
      assert held in t.regs && reg in t.regs;
    }
  }

  /** So in the whole system the mixer's peers are the decode states, codec failures included. */
  lemma {:induction false} MixerFollowsStates(steps: seq<Step>)
    requires Allowed(BOOT, steps) && Run(BOOT, steps).thread.Running?
    ensures Run(BOOT, steps).thread.core.mixer == Run(BOOT, steps).thread.core.states.Keys
  {
    MixerRun(BOOT, steps);
  }

  /** In every run of the whole system each stream keeps its budget: between two accepted packets its
      invented frames are at most `MAX_CONSECUTIVE`, and its holes and frames add up. */
  lemma {:induction false} StreamsKeepTheirAccounts(steps: seq<Step>, id: Producer, i: nat, j: nat)
    requires Allowed(BOOT, steps) && Run(BOOT, steps).thread.Running?
    requires id in Run(BOOT, steps).thread.core.states
    requires i <= j <= |Run(BOOT, steps).thread.core.states[id].log|
    requires DecodeRuns.WithoutGap(Run(BOOT, steps).thread.core.states[id].log[i..j])
    ensures
      var st := Run(BOOT, steps).thread.core.states[id];
      && DecodeRuns.Count(st.log[i..j], DecodeRuns.IsInvented()) <= MAX_CONSECUTIVE
      && DecodeRuns.HolesPushed(st.log) == DecodeRuns.HolesClassified(st.log) + DecodeRuns.Pending(st)
      && st.holes.Total() == |DecodeRuns.HolesClassified(st.log)|
      && st.premature.frames + (if st.lastConceal.Some? then 1 else 0) <= st.underrunFrames
  {
    hide Run;
    RunSound(BOOT, steps);
    var st := Run(BOOT, steps).thread.core.states[id];
    assert DecodeRuns.Sound(st);
    DecodeRuns.SegmentBudget(st.log, i, j);
  }

  ghost predicate MixerExact(s: System) {
    s.thread.Running? ==> s.thread.core.mixer == s.thread.core.states.Keys
  }

  lemma {:induction false} MixerRun(s: System, steps: seq<Step>)
    requires Sound(s) && MixerExact(s) && Allowed(s, steps)
    ensures MixerExact(Run(s, steps))
    decreases |steps|
  {
    if steps != [] {
      MixerStep(s, steps[0]);
      RunSound(s, steps[..1]);
      assert steps[..1][1..] == [];
      MixerRun(Next(s, steps[0]), steps[1..]);
    }
  }

  lemma {:induction false} MixerStep(s: System, step: Step)
    requires Sound(s) && MixerExact(s) && Enabled(s, step)
    ensures MixerExact(Next(s, step))
  {
    hide DecodeRuns.Sound, OnPacket, ConcealDue;
    match step {
      case Reading(reg, created, p, block) =>
        CoreRuns.HearKeeps(s.thread.core, reg.producer, reg.epoch, created, p, block);
        if reg.producer in s.thread.core.states {
          var held := Reg(reg.producer, s.thread.core.states[reg.producer].epoch);
          assert held in s.thread.regs && reg in s.thread.regs && Once(s.thread.regs);
        }
      case Masking(now, looks, block) =>
        CoreRuns.MaskKeeps(s.thread.core, now, looks, block);
      case _ =>
    }
  }
}
