/** What every run of the reception keeps: the maps that must agree, the generations, and the
    exactness of the next sleep. */
module CoreRuns {
  import opened Options
  import opened Conceal
  import opened Decoding
  import opened Reception
  import DecodeRuns

  datatype CoreStep =
    | Hear(id: Producer, epoch: nat, created: bool, packet: Packet, block: Measure)
    | Leave(id: Producer, epoch: nat)
    | Mask(now: Time, looks: Producer -> Look, block: Measure)

  function Apply(c: CoreState, step: CoreStep): CoreState {
    match step
    case Hear(id, epoch, created, packet, block) => OnPacket(c, id, epoch, created, packet, block)
    case Leave(id, epoch) => Remove(c, id, epoch)
    case Mask(now, looks, block) => ConcealDue(c, now, looks, block)
  }

  function Run(c: CoreState, steps: seq<CoreStep>): CoreState
    decreases |steps|
  {
    if steps == [] then c else Run(Apply(c, steps[0]), steps[1..])
  }

  // ------------------------------------------------------------------ one stream inside the core

  lemma {:induction false} FillKeepsEpoch(st: StreamState, p: Packet, n: nat, arrived: Arrived, block: Measure)
    ensures FillOnArrival(st, p, n, arrived, block).epoch == st.epoch
  {
    if n > 0 {
      FillKeepsEpoch(st, p, n - 1, arrived, block);
    }
  }

  lemma {:induction false} ReceiveKeepsEpoch(st: StreamState, p: Packet, block: Measure)
    ensures Receive(st, p, block).epoch == st.epoch
  {
    if p.number.Some? {
      var s := DecodeRuns.Tracked(st, p.number.value);
      var arrival := SeqTracking.OnPacket(st.track, p.number.value).1;
      AdmitKeepsEpoch(s, arrival, p, block);
    }
  }

  lemma {:induction false} AdmitKeepsEpoch(st: StreamState, arrival: SeqTracking.Arrival, p: Packet, block: Measure)
    ensures Admit(st, arrival, p, block).epoch == st.epoch
  {
    var n := if arrival.Next? then ArrivalBudget(arrival.missing, st.consecutive) else 0;
    FillKeepsEpoch(Accept(st, p.recv), p, n, Arrived(p.recv, p.inSystem), block);
  }

  lemma {:induction false} ExamineKeepsEpoch(st: StreamState, now: Time, look: Look, block: Measure)
    ensures Examine(st, now, look, block).epoch == st.epoch
  {
  }

  /** What a delivery changes in the core. */
  lemma {:induction false} DeliverShape(c: CoreState, id: Producer, p: Packet, block: Measure)
    requires id in c.states
    requires DecodeRuns.Sound(c.states[id])
    ensures
      var c' := Deliver(c, id, p, block);
      && c'.states.Keys == c.states.Keys && c'.mixer == c.mixer && c.stats <= c'.stats <= c.stats + {id}
      && (forall b :: b in c.states && b != id ==> c'.states[b] == c.states[b])
      && c'.states[id].epoch == c.states[id].epoch
      && DecodeRuns.Sound(c'.states[id])
  {
    ReceiveKeepsEpoch(c.states[id], Heard(p, id in c.mixer), block);
    DecodeRuns.ReceiveSound(c.states[id], Heard(p, id in c.mixer), block);
  }

  // ------------------------------------------------------------------ map agreement

  /** The mixer and the statistics only know producers that have a decode state, and every decode
      state keeps the invariant of its stream. */
  ghost predicate Agreeing(c: CoreState) {
    && c.mixer <= c.states.Keys
    && c.stats <= c.states.Keys
    && forall id :: id in c.states ==> DecodeRuns.Sound(c.states[id])
  }

  /** The one way a producer loses its mixer stream and keeps a decode state: a newer generation
      arrives and its codec cannot be made. */
  predicate FailedSupersede(c: CoreState, step: CoreStep) {
    step.Hear? && !step.created && step.id in c.states && c.states[step.id].epoch < step.epoch
  }

  lemma {:induction false} HearKeeps(c: CoreState, id: Producer, epoch: nat, created: bool, p: Packet, block: Measure)
    requires Agreeing(c)
    ensures
      var c' := OnPacket(c, id, epoch, created, p, block);
      && Agreeing(c')
      && (c.mixer == c.states.Keys ==>
            (c'.mixer == c'.states.Keys <==> !FailedSupersede(c, Hear(id, epoch, created, p, block))))
      && (id in c.states ==> id in c'.states && c'.states[id].epoch >= c.states[id].epoch)
      && (id in c'.states ==> c'.states[id].epoch == epoch || (id in c.states && c'.states[id] == c.states[id]))
      && (forall b :: b != id ==> (b in c'.states <==> b in c.states) && (b in c.states ==> c'.states[b] == c.states[b]))
  {
    hide DecodeRuns.Sound, Deliver;
    if id in c.states && c.states[id].epoch == epoch {
      DeliverShape(c, id, p, block);
    } else if created && (id in c.states ==> c.states[id].epoch < epoch) {
      DecodeRuns.FreshSound(epoch);
      var c1 := if id in c.states then c.(mixer := c.mixer - {id}) else c;
      var c2 := c1.(states := c1.states[id := Fresh(epoch)], mixer := c1.mixer + {id});
      DeliverShape(c2, id, p, block);
    }
  }

  lemma {:induction false} MaskKeeps(c: CoreState, now: Time, looks: Producer -> Look, block: Measure)
    requires Agreeing(c)
    ensures
      var c' := ConcealDue(c, now, looks, block);
      && Agreeing(c') && c'.states.Keys == c.states.Keys && c'.mixer == c.mixer && c'.stats == c.stats
      && (forall id :: id in c.states ==> c'.states[id].epoch == c.states[id].epoch)
  {
    hide DecodeRuns.Sound, Examine;
    forall id | id in c.states
      ensures DecodeRuns.Sound(ConcealDue(c, now, looks, block).states[id])
      ensures ConcealDue(c, now, looks, block).states[id].epoch == c.states[id].epoch
    {
      DecodeRuns.ExamineSound(c.states[id], now, Seen(looks(id), id in c.mixer), block);
      ExamineKeepsEpoch(c.states[id], now, Seen(looks(id), id in c.mixer), block);
    }
  }

  /** Every step keeps the agreement; it keeps the mixer equal to the decode states unless a newer
      generation's codec could not be made; and no generation held ever goes back. */
  lemma {:induction false} StepKeeps(c: CoreState, step: CoreStep)
    requires Agreeing(c)
    ensures Agreeing(Apply(c, step))
    ensures c.mixer == c.states.Keys ==>
              (Apply(c, step).mixer == Apply(c, step).states.Keys <==> !FailedSupersede(c, step))
    ensures forall id :: id in c.states && id in Apply(c, step).states ==>
              Apply(c, step).states[id].epoch >= c.states[id].epoch
  {
    hide DecodeRuns.Sound, OnPacket, ConcealDue;
    match step {
      case Hear(id, epoch, created, packet, block) => HearKeeps(c, id, epoch, created, packet, block);
      case Leave(_, _) =>
      case Mask(now, looks, block) => MaskKeeps(c, now, looks, block);
    }
  }

  /** In every run, packets and removals in any order: the mixer's peers and the published statistics
      are among the decode states. */
  lemma {:induction false} MapsAgree(c: CoreState, steps: seq<CoreStep>)
    requires Agreeing(c)
    ensures Agreeing(Run(c, steps))
    decreases |steps|
  {
    hide DecodeRuns.Sound, Apply;
    if steps != [] {
      StepKeeps(c, steps[0]);
      MapsAgree(Apply(c, steps[0]), steps[1..]);
    }
  }

  /** Now and after each step of the run. */
  predicate MixerExactAllAlong(c: CoreState, steps: seq<CoreStep>)
    decreases |steps|
  {
    c.mixer == c.states.Keys && (steps != [] ==> MixerExactAllAlong(Apply(c, steps[0]), steps[1..]))
  }

  predicate NeverFailedSupersede(c: CoreState, steps: seq<CoreStep>)
    decreases |steps|
  {
    steps != [] ==> !FailedSupersede(c, steps[0]) && NeverFailedSupersede(Apply(c, steps[0]), steps[1..])
  }

  /** The mixer's peers are the decode states all along a run exactly when no newer generation comes
      whose codec cannot be made. */
  lemma {:induction false} MixerIsExact(c: CoreState, steps: seq<CoreStep>)
    requires Agreeing(c) && c.mixer == c.states.Keys
    ensures MixerExactAllAlong(c, steps) <==> NeverFailedSupersede(c, steps)
    decreases |steps|
  {
    hide Agreeing, Apply, FailedSupersede;
    if steps != [] {
      StepKeeps(c, steps[0]);
      if !FailedSupersede(c, steps[0]) {
        MixerIsExact(Apply(c, steps[0]), steps[1..]);
      }
    }
  }

  /** Once the core is dropped, at the end of any run, nothing of it remains anywhere. */
  lemma {:induction false} DropLeavesNothing(steps: seq<CoreStep>)
    ensures Dropped(Run(EMPTY, steps)) == EMPTY
  {
    assert Agreeing(EMPTY);
    MapsAgree(EMPTY, steps);
    var c := Run(EMPTY, steps);
    assert c.mixer - c.states.Keys == {} && c.stats - c.states.Keys == {};
  }

  /** A run where one comes: its former state goes on without a mixer stream. */
  lemma {:induction false} SupersedeLosesTheMixer(p: Packet, q: Packet, block: Measure)
    ensures
      var c := Run(EMPTY, [Hear("a", 1, true, p, block), Hear("a", 2, false, q, block)]);
      "a" in c.states && c.states["a"].epoch == 1 && "a" !in c.mixer
  {
    hide Deliver, DecodeRuns.Sound;
    var first, second := Hear("a", 1, true, p, block), Hear("a", 2, false, q, block);
    assert [first, second][1..] == [second] && [second][1..] == [];
    var c1 := Apply(EMPTY, first);
    DecodeRuns.FreshSound(1);
    DeliverShape(EMPTY.(states := EMPTY.states["a" := Fresh(1)], mixer := EMPTY.mixer + {"a"}), "a", p, block);
    assert "a" in c1.states && c1.states["a"].epoch == 1;
    assert Run(EMPTY, [first, second]) == Run(c1, [second]);
    assert Run(c1, [second]) == Run(Apply(c1, second), []);
  }

  // ------------------------------------------------------------------ generations, in any order

  predicate Present(c: CoreState, steps: seq<CoreStep>, id: Producer)
    decreases |steps|
  {
    id in c.states && (steps != [] ==> Present(Apply(c, steps[0]), steps[1..], id))
  }

  /** As long as a producer has a decode state, its generation never goes back, whatever the order
      of packets and removals. */
  lemma {:induction false} EpochsRise(c: CoreState, steps: seq<CoreStep>, id: Producer)
    requires Agreeing(c) && Present(c, steps, id)
    ensures id in Run(c, steps).states && Run(c, steps).states[id].epoch >= c.states[id].epoch
    decreases |steps|
  {
    hide DecodeRuns.Sound, Apply;
    if steps != [] {
      StepKeeps(c, steps[0]);
      EpochsRise(Apply(c, steps[0]), steps[1..], id);
    }
  }

  /** A packet or a removal of a generation older than the one held for its producer. */
  predicate Outdated(c: CoreState, step: CoreStep) {
    match step
    case Hear(id, epoch, _, _, _) => id in c.states && epoch < c.states[id].epoch
    case Leave(id, epoch) => id in c.states && epoch < c.states[id].epoch
    case Mask(_, _, _) => false
  }

  /** The run without its outdated steps. */
  function Purged(c: CoreState, steps: seq<CoreStep>): seq<CoreStep>
    decreases |steps|
  {
    if steps == [] then []
    else if Outdated(c, steps[0]) then Purged(c, steps[1..])
    else [steps[0]] + Purged(Apply(c, steps[0]), steps[1..])
  }

  lemma {:induction false} OutdatedIsInert(c: CoreState, step: CoreStep)
    requires Outdated(c, step)
    ensures Apply(c, step) == c
  {
  }

  /** Whatever the order of packets and removals, those of generations already replaced might as well
      never have come. */
  lemma {:induction false} OldGenerationsAreInert(c: CoreState, steps: seq<CoreStep>)
    ensures Run(c, Purged(c, steps)) == Run(c, steps)
    decreases |steps|
  {
    hide Apply, Outdated;
    if steps != [] {
      if Outdated(c, steps[0]) {
        OutdatedIsInert(c, steps[0]);
        OldGenerationsAreInert(c, steps[1..]);
      } else {
        var rest := Purged(Apply(c, steps[0]), steps[1..]);
        OldGenerationsAreInert(Apply(c, steps[0]), steps[1..]);
        assert ([steps[0]] + rest)[1..] == rest;
      }
    }
  }

  // ------------------------------------------------------------------ the next sleep

  /** The delay is exact: before it elapses no stream is due for an examination, at that instant
      one is, and with nothing armed none ever becomes due. */
  lemma {:induction false} WakeUpExact(c: CoreState, now: Time, ms: Option<real>)
    requires IsSoonest(c, now, ms)
    ensures ms.None? ==> forall id, t :: id in c.states ==> !ExaminedAt(c.states[id], t)
    ensures ms.Some? ==> forall id, t :: id in c.states && now <= t < now + ms.value ==> !ExaminedAt(c.states[id], t)
    ensures ms.Some? ==> exists id :: id in c.states && ExaminedAt(c.states[id], now + ms.value)
  {
    if ms.Some? {
      forall id, t | id in c.states && now <= t < now + ms.value
        ensures !ExaminedAt(c.states[id], t)
      {
        assert NotBefore(c.states[id], now, ms.value);
      }
      var id :| id in c.states && IsDelay(c.states[id], now, ms.value);
      assert ExaminedAt(c.states[id], now + ms.value);
    }
  }
}
