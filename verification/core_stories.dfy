/** What the core does for one producer, told without the core (jamodio-agent/src/pipeline.rs,
    `RxCore::on_packet`, `remove_peer`, `conceal_pass`): the packets of its generation and one look for
    every masking pass, in order, since the generation began. */
module CoreStories {
  import opened Options
  import opened Conceal
  import opened Decoding
  import opened Reception
  import opened CoreRuns
  import DecodeRuns

  /** The life of one generation. */
  datatype Story = Story(epoch: nat, steps: seq<DecodeRuns.Step>)

  /** What is held for a producer: its story, whether the mixer has a stream for it, whether its
      statistics are published. */
  datatype Held = Held(story: Option<Story>, inMixer: bool, published: bool)

  const NOTHING := Held(None, false, false)

  function Reads(steps: seq<DecodeRuns.Step>): nat {
    if steps == [] then 0
    else Reads(steps[..|steps| - 1]) + if steps[|steps| - 1].Read? then 1 else 0
  }

  function Longer(h: Held, step: DecodeRuns.Step): Held
    requires h.story.Some?
  {
    h.(story := Some(h.story.value.(steps := h.story.value.steps + [step])))
  }

  /** One more packet of the generation held. What it makes invent and its own sound go nowhere when the
      mixer has no stream; the statistics come out every fortieth packet. */
  function Read(h: Held, p: Packet, block: Measure): Held
    requires h.story.Some?
  {
    var heard := if h.inMixer then p else Packet(p.number, p.recv, p.inSystem, [], None, None);
    var after := Longer(h, DecodeRuns.Read(heard, block));
    after.(published := h.published || (p.number.Some? && Reads(after.story.value.steps) % 40 == 0))
  }

  function After(h: Held, id: Producer, step: CoreStep): Held {
    match step
    case Hear(producer, epoch, created, packet, block) =>
      if producer != id then h
      else if h.story.Some? && h.story.value.epoch > epoch then h
      else if h.story.Some? && h.story.value.epoch == epoch then Read(h, packet, block)
      else if created then Read(Held(Some(Story(epoch, [])), true, h.published), packet, block)
      else h.(inMixer := false)
    case Leave(producer, epoch) =>
      if producer == id && h.story.Some? && h.story.value.epoch == epoch then NOTHING else h
    case Mask(now, looks, block) =>
      if h.story.None? then h
      else Longer(h, DecodeRuns.Tick(now, if h.inMixer then looks(id) else Look(None, looks(id).tail, None), block))
  }

  /** What a run of the core leaves for a producer. */
  function HeldAfter(steps: seq<CoreStep>, id: Producer): Held {
    if steps == [] then NOTHING
    else After(HeldAfter(steps[..|steps| - 1], id), id, steps[|steps| - 1])
  }

  // ------------------------------------------------------------------ one more step

  lemma {:induction false} OneMoreCoreStep(c: CoreState, steps: seq<CoreStep>, step: CoreStep)
    ensures CoreRuns.Run(c, steps + [step]) == CoreRuns.Apply(CoreRuns.Run(c, steps), step)
    decreases |steps|
  {
    hide CoreRuns.Apply;
    if steps == [] {
      assert ([] + [step])[1..] == [];
    } else {
      assert (steps + [step])[1..] == steps[1..] + [step];
      OneMoreCoreStep(CoreRuns.Apply(c, steps[0]), steps[1..], step);
    }
  }

  lemma {:induction false} FillKeepsPackets(st: StreamState, p: Packet, n: nat, arrived: Arrived, block: Measure)
    ensures FillOnArrival(st, p, n, arrived, block).packets == st.packets
  {
    if n > 0 {
      FillKeepsPackets(st, p, n - 1, arrived, block);
    }
  }

  lemma {:induction false} AdmitKeepsPackets(st: StreamState, arrival: SeqTracking.Arrival, p: Packet, block: Measure)
    ensures Admit(st, arrival, p, block).packets == st.packets
  {
    var n := if arrival.Next? then ArrivalBudget(arrival.missing, st.consecutive) else 0;
    FillKeepsPackets(Accept(st, p.recv), p, n, Arrived(p.recv, p.inSystem), block);
  }

  lemma {:induction false} StepCounts(st: StreamState, step: DecodeRuns.Step)
    ensures DecodeRuns.Apply(st, step).packets == st.packets + if step.Read? then 1 else 0
  {
    if step.Read? && step.packet.number.Some? {
      var number := step.packet.number.value;
      AdmitKeepsPackets(DecodeRuns.Tracked(st, number), SeqTracking.OnPacket(st.track, number).1, step.packet, step.block);
    }
  }

  lemma {:induction false} RunCounts(epoch: nat, steps: seq<DecodeRuns.Step>)
    ensures DecodeRuns.Run(Fresh(epoch), steps).packets == Reads(steps)
    decreases |steps|
  {
    hide DecodeRuns.Apply;
    if steps != [] {
      var before, last := steps[..|steps| - 1], steps[|steps| - 1];
      RunCounts(epoch, before);
      DecodeRuns.OneMoreStep(Fresh(epoch), before, last);
      assert before + [last] == steps;
      StepCounts(DecodeRuns.Run(Fresh(epoch), before), last);
    }
  }

  // ------------------------------------------------------------------ the core tells the story

  ghost predicate Tells(c: CoreState, id: Producer, h: Held) {
    && (id in c.states <==> h.story.Some?)
    && (id in c.states ==> c.states[id] == DecodeRuns.Run(Fresh(h.story.value.epoch), h.story.value.steps))
    && (id in c.states ==> c.states[id].epoch == h.story.value.epoch)
    && (id in c.mixer <==> h.inMixer) && (h.inMixer ==> h.story.Some?)
    && (id in c.stats <==> h.published)
  }

  lemma {:induction false} DeliverTells(c: CoreState, id: Producer, h: Held, p: Packet, block: Measure)
    requires id in c.states && Tells(c, id, h)
    ensures Tells(Deliver(c, id, p, block), id, Read(h, p, block))
  {
    hide Receive, DecodeRuns.Run;
    var story := h.story.value;
    var step := DecodeRuns.Read(Heard(p, id in c.mixer), block);
    DecodeRuns.OneMoreStep(Fresh(story.epoch), story.steps, step);
    RunCounts(story.epoch, story.steps);
    ReceiveKeepsEpoch(c.states[id], Heard(p, id in c.mixer), block);
    assert (story.steps + [step])[..|story.steps|] == story.steps;
  }

  lemma {:induction false} HearTells(c: CoreState, id: Producer, h: Held, epoch: nat, created: bool, p: Packet, block: Measure)
    requires Tells(c, id, h)
    ensures Tells(OnPacket(c, id, epoch, created, p, block), id, After(h, id, Hear(id, epoch, created, p, block)))
  {
    hide Deliver, Read, DecodeRuns.Apply;
    if id in c.states && c.states[id].epoch == epoch {
      DeliverTells(c, id, h, p, block);
    } else if created && (id in c.states ==> c.states[id].epoch < epoch) {
      var c1 := if id in c.states then c.(mixer := c.mixer - {id}) else c;
      var c2 := c1.(states := c1.states[id := Fresh(epoch)], mixer := c1.mixer + {id});
      DeliverTells(c2, id, Held(Some(Story(epoch, [])), true, h.published), p, block);
    }
  }

  lemma {:induction false} MaskTells(c: CoreState, id: Producer, h: Held, now: Time, looks: Producer -> Look, block: Measure)
    requires Tells(c, id, h)
    ensures Tells(ConcealDue(c, now, looks, block), id, After(h, id, Mask(now, looks, block)))
  {
    hide Examine, DecodeRuns.Run;
    if id in c.states {
      var story := h.story.value;
      var look := Seen(looks(id), id in c.mixer);
      DecodeRuns.OneMoreStep(Fresh(story.epoch), story.steps, DecodeRuns.Tick(now, look, block));
      ExamineKeepsEpoch(c.states[id], now, look, block);
    }
  }

  lemma {:induction false} StepTells(c: CoreState, id: Producer, h: Held, step: CoreStep)
    requires Tells(c, id, h)
    ensures Tells(CoreRuns.Apply(c, step), id, After(h, id, step))
  {
    hide DecodeRuns.Run, Deliver, ConcealDue, Read, Longer;
    match step {
      case Hear(producer, epoch, created, packet, block) =>
        if producer == id {
          HearTells(c, id, h, epoch, created, packet, block);
        } else {
          OthersAreUntouched(c, id, step);
        }
      case Leave(_, _) =>
      case Mask(now, looks, block) => MaskTells(c, id, h, now, looks, block);
    }
  }

  lemma {:induction false} OthersAreUntouched(c: CoreState, id: Producer, step: CoreStep)
    requires step.Hear? && step.id != id
    ensures
      var c' := CoreRuns.Apply(c, step);
      && (id in c'.states <==> id in c.states) && (id in c.states ==> c'.states[id] == c.states[id])
      && (id in c'.mixer <==> id in c.mixer) && (id in c'.stats <==> id in c.stats)
  {
  }

  /** After any run of the core, a producer has a decode state exactly when a generation of it began and
      was not removed; its state is what its story makes of a fresh stream: every packet of that
      generation and one look for every masking pass since, in order, none more and none less. The mixer
      and the published statistics follow the same story. */
  lemma {:induction false} CoreTellsEachStory(steps: seq<CoreStep>, id: Producer)
    ensures Tells(CoreRuns.Run(EMPTY, steps), id, HeldAfter(steps, id))
    decreases |steps|
  {
    hide After, CoreRuns.Apply, DecodeRuns.Apply;
    if steps != [] {
      var before, last := steps[..|steps| - 1], steps[|steps| - 1];
      CoreTellsEachStory(before, id);
      OneMoreCoreStep(EMPTY, before, last);
      assert before + [last] == steps;
      StepTells(CoreRuns.Run(EMPTY, before), id, HeldAfter(before, id), last);
    }
  }
}
