/** What a request of the control side comes to in the receive thread, and the whole system seen from one
    producer (jamodio-agent/src/pipeline.rs, `add_stream`, `remove_stream`;
    jamodio-agent/src/pipeline/recv_thread.rs). */
module Receiving {
  import opened Options
  import opened Decoding
  import opened Reception
  import opened Generations
  import CoreRuns
  import CoreStories
  import DecodeRuns

  // ------------------------------------------------------------------ the queue is carried out

  /** The thread takes `n` commands and every socket can be registered. */
  function Carried(n: nat): seq<Step> {
    if n == 0 then [] else [Processing(true)] + Carried(n - 1)
  }

  lemma {:induction false} QueueIsCarriedOut(s: System, n: nat)
    requires Sound(s) && s.thread.Running? && n == |s.thread.queue|
    ensures Allowed(s, Carried(n))
    ensures
      var done := Run(s, Carried(n));
      && Sound(done) && done.control == s.control && done.failed == s.failed
      && done.thread.Running? && done.thread.queue == [] && done.thread.regs == RegsOf(s.control.recvStreams) - s.failed
    decreases n
  {
    hide ControlSound, CoreFollows, AlwaysOnce, EpochsBelow, Remove;
    if n > 0 {
      assert Carried(n)[0] == Processing(true) && Carried(n)[1..] == Carried(n - 1);
      ProcessingKeeps(s, true);
      QueueIsCarriedOut(Next(s, Processing(true)), n - 1);
    }
  }

  // ------------------------------------------------------------------ an addition

  /** Nothing else changes among the producers received. */
  ghost predicate OthersKept(c: Control, c': Control, id: Producer) {
    c'.recvStreams - {id} == c.recvStreams - {id}
  }

  /** After any run, adding a producer that can be gives it a generation above all that were, whether or
      not it was received already, and leaves the others; otherwise it is not received any more. Unless
      the thread died, once its queue is carried out this very generation is registered, and no other of
      the producer; or none at all. */
  lemma {:induction false} AdditionIsReceived(steps: seq<Step>, id: Producer, o: AddOutcome)
    requires Allowed(BOOT, steps) && Enabled(Run(BOOT, steps), Adding(id, o))
    ensures
      var s := Run(BOOT, steps);
      var added := Next(s, Adding(id, o));
      && OthersKept(s.control, added.control, id)
      && (id in added.control.recvStreams <==> Possible(s.control, id, o))
      && (Possible(s.control, id, o) ==>
            var g := added.control.recvStreams[id];
            && (forall b :: b in s.control.recvStreams ==> s.control.recvStreams[b] < g)
            && (s.thread.Running? ==> forall r :: r in s.thread.regs ==> r.epoch < g)
            && (!s.thread.Dead? ==> added.thread.Running?))
      && (added.thread.Running? ==>
            var done := Carried(|added.thread.queue|);
            && Allowed(added, done) && Run(added, done).thread.Running?
            && forall r: Reg :: r.producer == id ==>
                 (r in Run(added, done).thread.regs <==> Possible(s.control, id, o) && r.epoch == added.control.recvStreams[id]))
  {
    hide Generations.Run, Allowed, ThreadSound;
    RunSound(BOOT, steps);
    var s := Run(BOOT, steps);
    AddingKeeps(s, id, o);
    var added := Next(s, Adding(id, o));
    AdditionOnControl(s.control, id, o);
    AllBelow(s);
    if added.thread.Running? {
      QueueIsCarriedOut(added, |added.thread.queue|);
      if Possible(s.control, id, o) {
        assert Reg(id, added.control.recvStreams[id]) !in s.failed;
      }
    }
  }

  lemma {:induction false} AdditionOnControl(c: Control, id: Producer, o: AddOutcome)
    requires ControlSound(c)
    ensures
      var sent := AddStream(c, id, o);
      && OthersKept(c, sent.control, id)
      && (id in sent.control.recvStreams <==> Possible(c, id, o))
      && (Possible(c, id, o) ==> sent.control.recvStreams[id] == c.recvEpoch + 1 && sent.cmds != [])
  {
    hide AddStream, Possible;
    AdditionMeans(c, id, o);
  }

  lemma {:induction false} AllBelow(s: System)
    requires Sound(s)
    ensures forall b :: b in s.control.recvStreams ==> s.control.recvStreams[b] <= s.control.recvEpoch
    ensures s.thread.Running? ==> forall r :: r in s.thread.regs ==> r.epoch <= s.control.recvEpoch
  {
  }

  // ------------------------------------------------------------------ a removal

  lemma {:induction false} StatesAreRegistered(s: System)
    requires Sound(s) && s.thread.Running?
    ensures forall b :: b in s.thread.core.states ==> exists r :: r in s.thread.regs && r.producer == b
  {
    hide CoreRuns.Agreeing, AlwaysOnce, EpochsBelow, ControlSound, ApplyAll;
    forall b | b in s.thread.core.states
      ensures exists r :: r in s.thread.regs && r.producer == b
    {
      assert Reg(b, s.thread.core.states[b].epoch) in s.thread.regs;
    }
  }

  /** After any run, a removed producer is not received any more and the others still are; once the queue
      is carried out the thread has no registration of it and no decode state. */
  lemma {:induction false} RemovalIsComplete(steps: seq<Step>, id: Producer)
    requires Allowed(BOOT, steps) && Enabled(Run(BOOT, steps), Removing(id))
    ensures
      var s := Run(BOOT, steps);
      var removed := Next(s, Removing(id));
      && removed.control.recvStreams == s.control.recvStreams - {id}
      && (s.thread.Running? ==>
            var done := Carried(|removed.thread.queue|);
            && removed.thread.Running? && Allowed(removed, done) && Run(removed, done).thread.Running?
            && id !in Run(removed, done).thread.core.states
            && forall r :: r in Run(removed, done).thread.regs ==> r.producer != id)
  {
    hide Generations.Run, Allowed;
    RunSound(BOOT, steps);
    var s := Run(BOOT, steps);
    RemovingKeeps(s, id);
    var removed := Next(s, Removing(id));
    assert id !in s.control.recvStreams ==> s.control.recvStreams - {id} == s.control.recvStreams;
    if s.thread.Running? {
      QueueIsCarriedOut(removed, |removed.thread.queue|);
      StatesAreRegistered(Run(removed, Carried(|removed.thread.queue|)));
    }
  }

  /** After any run, a teardown leaves nothing to receive; a thread that runs empties its queue, ends with
      no registration, and is gone. */
  lemma {:induction false} TeardownIsComplete(steps: seq<Step>, order: seq<Producer>)
    requires Allowed(BOOT, steps) && Enabled(Run(BOOT, steps), TearingDown(order))
    ensures
      var s := Run(BOOT, steps);
      var torn := Next(s, TearingDown(order));
      && torn.control.recvStreams == map[]
      && (!s.thread.Running? ==> torn.thread.Absent? && !torn.control.threadRunning)
      && (s.thread.Running? ==>
            var done := Carried(|torn.thread.queue|);
            && torn.thread.Running? && Allowed(torn, done) && Run(torn, done).thread.Running?
            && Run(torn, done).thread.regs == {} && Run(torn, done).thread.core.states == map[]
            && Enabled(Run(torn, done), Ending)
            && Next(Run(torn, done), Ending).thread.Absent? && !Next(Run(torn, done), Ending).control.threadRunning)
  {
    hide Generations.Run, Allowed;
    RunSound(BOOT, steps);
    hide Sound;
    var s := Run(BOOT, steps);
    TearingDownKeeps(s, order);
    var torn := Next(s, TearingDown(order));
    RemoveAllEmpties(s.control, order);
    if s.thread.Running? {
      TornDown(torn);
    }
  }

  lemma {:induction false} TornDown(torn: System)
    requires Sound(torn) && torn.thread.Running? && torn.thread.closing && torn.control.recvStreams == map[]
    ensures
      var done := Carried(|torn.thread.queue|);
      && Allowed(torn, done) && Run(torn, done).thread.Running?
      && Run(torn, done).thread.regs == {} && Run(torn, done).thread.core.states == map[]
      && Enabled(Run(torn, done), Ending)
  {
    hide Generations.Run, Allowed, Sound;
    QueueIsCarriedOut(torn, |torn.thread.queue|);
    ClosingStays(torn, |torn.thread.queue|);
    StatesAreRegistered(Run(torn, Carried(|torn.thread.queue|)));
    assert RegsOf(torn.control.recvStreams) == {};
  }

  lemma {:induction false} ClosingStays(s: System, n: nat)
    requires s.thread.Running? && n == |s.thread.queue| && Allowed(s, Carried(n))
    requires Run(s, Carried(n)).thread.Running?
    ensures Run(s, Carried(n)).thread.closing == s.thread.closing
    decreases n
  {
    if n > 0 {
      assert Carried(n)[0] == Processing(true) && Carried(n)[1..] == Carried(n - 1);
      ClosingStays(Next(s, Processing(true)), n - 1);
    }
  }

  // ------------------------------------------------------------------ one producer in the whole system

  /** What a step asks of the core of the thread, which starts empty with it. */
  function CoreStepsAfter(s: System, sofar: seq<CoreRuns.CoreStep>, step: Step): seq<CoreRuns.CoreStep>
    requires Enabled(s, step)
  {
    match step
    case Reading(reg, created, packet, block) =>
      sofar + [CoreRuns.Hear(reg.producer, reg.epoch, created, packet, block)]
    case Masking(now, looks, block) => sofar + [CoreRuns.Mask(now, looks, block)]
    case Processing(_) =>
      var cmd := s.thread.queue[0];
      if cmd.Unregister? && cmd.reg in s.thread.regs then sofar + [CoreRuns.Leave(cmd.reg.producer, cmd.reg.epoch)]
      else sofar
    case _ => if s.thread.Running? then sofar else []
  }

  function CoreSteps(s: System, sofar: seq<CoreRuns.CoreStep>, steps: seq<Step>): seq<CoreRuns.CoreStep>
    requires Allowed(s, steps)
    decreases |steps|
  {
    if steps == [] then sofar else CoreSteps(Next(s, steps[0]), CoreStepsAfter(s, sofar, steps[0]), steps[1..])
  }

  ghost predicate CoreIs(s: System, sofar: seq<CoreRuns.CoreStep>) {
    s.thread.Running? ==> s.thread.core == CoreRuns.Run(EMPTY, sofar)
  }

  lemma {:induction false} CoreStepIs(s: System, sofar: seq<CoreRuns.CoreStep>, step: Step)
    requires CoreIs(s, sofar) && Enabled(s, step)
    ensures CoreIs(Next(s, step), CoreStepsAfter(s, sofar, step))
  {
    hide OnPacket, ConcealDue, AddStream, RemoveStream, RemoveAll, CoreRuns.Run;
    match step {
      case Reading(reg, created, packet, block) =>
        CoreStories.OneMoreCoreStep(EMPTY, sofar, CoreRuns.Hear(reg.producer, reg.epoch, created, packet, block));
      case Masking(now, looks, block) =>
        CoreStories.OneMoreCoreStep(EMPTY, sofar, CoreRuns.Mask(now, looks, block));
      case Processing(_) =>
        var reg := s.thread.queue[0].reg;
        CoreStories.OneMoreCoreStep(EMPTY, sofar, CoreRuns.Leave(reg.producer, reg.epoch));
      case _ =>
        assert CoreRuns.Run(EMPTY, []) == EMPTY by { NoCoreStep(); }
    }
  }

  lemma {:induction false} NoCoreStep()
    ensures CoreRuns.Run(EMPTY, []) == EMPTY
  {
  }

  lemma {:induction false} CoreRunIs(s: System, sofar: seq<CoreRuns.CoreStep>, steps: seq<Step>)
    requires CoreIs(s, sofar) && Allowed(s, steps)
    ensures CoreIs(Run(s, steps), CoreSteps(s, sofar, steps))
    decreases |steps|
  {
    hide CoreIs, Next, CoreStepsAfter, Enabled;
    if steps != [] {
      CoreStepIs(s, sofar, steps[0]);
      CoreRunIs(Next(s, steps[0]), CoreStepsAfter(s, sofar, steps[0]), steps[1..]);
    }
  }

  /** After any run of the whole system, the stream of a producer in the thread is what its story makes of
      a fresh one: the packets read on the socket of its generation and one look for every masking pass
      since that generation began, in order. */
  lemma {:induction false} SystemTellsEachStory(steps: seq<Step>, id: Producer)
    requires Allowed(BOOT, steps) && Run(BOOT, steps).thread.Running?
    ensures CoreStories.Tells(Run(BOOT, steps).thread.core, id, CoreStories.HeldAfter(CoreSteps(BOOT, [], steps), id))
  {
    hide CoreStories.Tells, Generations.Run, CoreSteps, Allowed;
    CoreRunIs(BOOT, [], steps);
    CoreStories.CoreTellsEachStory(CoreSteps(BOOT, [], steps), id);
  }
}
