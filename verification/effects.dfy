/** What one packet and one examination do to a stream, in the terms of their caller
    (jamodio-agent/src/pipeline.rs, `decode_one_packet` and `conceal_due_streams`). */
module Effects {
  import opened Options
  import opened SeqTracking
  import opened Conceal
  import opened Decoding
  import opened DecodeRuns
  import opened Judgements
  import Concealments

  /** The history without the causes given to holes. */
  function Deeds(log: seq<Event>): seq<Event> {
    if log == [] then [] else
    var before := Deeds(log[..|log| - 1]);
    if log[|log| - 1].Classified? then before else before + [log[|log| - 1]]
  }

  lemma {:induction false} OneMoreDeed(log: seq<Event>, e: Event)
    ensures Deeds(log + [e]) == if e.Classified? then Deeds(log) else Deeds(log) + [e]
  {
    assert (log + [e])[..|log|] == log;
  }

  lemma {:induction false} SettleDoes(st: StreamState, arrived: Option<Arrived>, block: Measure)
    ensures Deeds(SettlePending(st, arrived, block).log) == Deeds(st.log)
  {
    if st.pendingHole.Some? {
      var p := st.pendingHole.value;
      OneMoreDeed(st.log, Classified(p.hole, p.base, CauseOf(st.lastDiscard, p.hole, p.base, arrived, block)));
    }
  }

  lemma {:induction false} PushDoes(st: StreamState, kind: PushKind, report: PushReport, now: Time,
                                    arrived: Option<Arrived>, block: Measure)
    ensures Deeds(NotePush(st, kind, report, now, arrived, block).log) ==
            Deeds(st.log) + [Pushed(kind, now, report, arrived, block)]
  {
    hide CauseOf;
    var e := Pushed(kind, now, report, arrived, block);
    var s0 := st.(log := st.log + [e]);
    OneMoreDeed(st.log, e);
    SettleDoes(s0, arrived, block);
    var s1 := if arrived.Some? then SettlePending(s0, arrived, block) else s0;
    if report.hole.Some? {
      var h := report.hole.value;
      OneMoreDeed(s1.log, Classified(h, s1.lastPush, CauseOf(s1.lastDiscard, h, s1.lastPush, arrived, block)));
      SettleDoes(s1, None, block);
    }
  }

  // ------------------------------------------------------------------ a packet

  /** The pushes of those of the first `n` frames revealed missing that could be invented. */
  function FramesOf(p: Packet, n: nat, block: Measure): seq<Event> {
    if n == 0 then [] else
    FramesOf(p, n - 1, block)
    + if n <= |p.attempts| && p.attempts[n - 1].report.Some?
      then [Pushed(OnArrival, p.attempts[n - 1].at, p.attempts[n - 1].report.value, Some(Arrived(p.recv, p.inSystem)), block)]
      else []
  }

  function OwnSound(p: Packet, block: Measure): seq<Event> {
    if Sounds(p)
    then [Pushed(Decoded, p.decoded.value.at, p.decoded.value.report.value, Some(Arrived(p.recv, p.inSystem)), block)]
    else []
  }

  lemma {:induction false} FillDoes(st: StreamState, p: Packet, n: nat, block: Measure)
    ensures
      var s := FillOnArrival(st, p, n, Arrived(p.recv, p.inSystem), block);
      && Deeds(s.log) == Deeds(st.log) + FramesOf(p, n, block)
      && s.concealedFrames == st.concealedFrames + |FramesOf(p, n, block)|
  {
    hide NotePush;
    if n > 0 {
      var arrived := Arrived(p.recv, p.inSystem);
      FillDoes(st, p, n - 1, block);
      var s := FillOnArrival(st, p, n - 1, arrived, block);
      var attempt := AttemptAt(p, n - 1);
      if Pushes(attempt) {
        PushDoes(s, OnArrival, attempt.value.report.value, attempt.value.at, Some(arrived), block);
        PushFrame(s, OnArrival, attempt.value.report.value, attempt.value.at, Some(arrived), block);
      }
    }
  }

  /** How many frames an arrival tries to invent: all the missing ones if there are ten at most and the
      three shared with the deadline suffice, otherwise what is left of the three; none in a longer gap. */
  ghost predicate Fills(arrival: Arrival, invented: nat, n: nat) {
    if arrival.Next? && 1 <= arrival.missing <= 10 then
      n <= arrival.missing && n + invented <= 3 && (n == arrival.missing || n + invented == 3)
    else n == 0
  }

  lemma {:induction false} AllOfThem(p: Packet, n: nat, block: Measure)
    ensures |FramesOf(p, n, block)| <= n
    ensures |FramesOf(p, n, block)| == n <==> n <= |p.attempts| && forall k :: 0 <= k < n ==> p.attempts[k].report.Some?
  {
    if n > 0 {
      AllOfThem(p, n - 1, block);
    }
  }

  /** An accepted packet invents the frames its arrival reveals, in order, as many as the shared budget
      still allows, then takes its place, then is heard: each push with the instants of this very packet.
      Those that succeed are the frames counted, and all of them are when none fails. */
  lemma {:induction false} PacketFillsItsGap(epoch: nat, steps: seq<Step>, p: Packet, block: Measure) returns (n: nat)
    requires Accepts(Run(Fresh(epoch), steps), Read(p, block))
    ensures
      var st := Run(Fresh(epoch), steps);
      var s := Receive(st, p, block);
      && Fills(OnPacket(st.track, p.number.value).1, st.consecutive, n)
      && Deeds(s.log) == Deeds(st.log) + FramesOf(p, n, block) + [GapClosed] + OwnSound(p, block)
      && s.concealedFrames == st.concealedFrames + |FramesOf(p, n, block)|
      && |FramesOf(p, n, block)| <= n
      && (|FramesOf(p, n, block)| == n <==> n <= |p.attempts| && forall k :: 0 <= k < n ==> p.attempts[k].report.Some?)
  {
    hide Sound, Run, Admit, OnPacket, Deeds, FramesOf, OwnSound;
    FreshSound(epoch);
    RunSound(Fresh(epoch), steps);
    var st := Run(Fresh(epoch), steps);
    AtMostThree(st);
    n := Revealed(st, p.number.value);
    AllOfThem(p, n, block);
    AdmitDoes(Tracked(st, p.number.value), OnPacket(st.track, p.number.value).1, p, n, block);
  }

  lemma {:induction false} AdmitDoes(st: StreamState, arrival: Arrival, p: Packet, n: nat, block: Measure)
    requires n == if arrival.Next? then ArrivalBudget(arrival.missing, st.consecutive) else 0
    ensures
      var s := Admit(st, arrival, p, block);
      && Deeds(s.log) == Deeds(st.log) + FramesOf(p, n, block) + [GapClosed] + OwnSound(p, block)
      && s.concealedFrames == st.concealedFrames + |FramesOf(p, n, block)|
  {
    hide NotePush, FillOnArrival, FramesOf, Deeds;
    var arrived := Arrived(p.recv, p.inSystem);
    FillDoes(Accept(st, p.recv), p, n, block);
    var s1 := FillOnArrival(Accept(st, p.recv), p, n, arrived, block);
    OneMoreDeed(s1.log, GapClosed);
    if Sounds(p) {
      PushDoes(CloseGap(s1), Decoded, p.decoded.value.report.value, p.decoded.value.at, Some(arrived), block);
      PushFrame(CloseGap(s1), Decoded, p.decoded.value.report.value, p.decoded.value.at, Some(arrived), block);
    }
  }

  lemma {:induction false} AtMostThree(st: StreamState)
    requires Sound(st)
    ensures st.consecutive <= 3
  {
  }

  /** A refused packet leaves its instant in the history, and a judgement exactly when it is late and comes
      for the frame that awaits it. */
  lemma {:induction false} RefusedPacketJudgesItsOwn(epoch: nat, steps: seq<Step>, p: Packet, block: Measure)
    requires p.number.Some? && !Accepts(Run(Fresh(epoch), steps), Read(p, block))
    ensures
      var st := Run(Fresh(epoch), steps);
      var s := Receive(st, p, block);
      var arrival := OnPacket(st.track, p.number.value).1;
      var awaited := Concealments.Awaiting(st.log);
      if arrival.Late? && awaited.Some? && awaited.value.slot == p.number.value then
        && |s.log| == |st.log| + 2 && s.log[..|st.log|] == st.log && s.log[|st.log|] == Discarded(p.recv)
        && s.log[|st.log| + 1].Judged? && s.log[|st.log| + 1].slot == p.number.value && s.log[|st.log| + 1].recv == p.recv
        && s.log[|st.log| + 1].read == (if p.playout.Some? then Some(p.playout.value.readIndex) else None)
        && s.lastConceal.None?
      else
        s.log == st.log + [Discarded(p.recv)] && s.lastConceal == st.lastConceal
  {
    hide Sound, OnPacket, DecodeRuns.Run, Concealments.Kept, MarginOf;
    Concealments.FreshRemembers(epoch);
    Concealments.RunRemembers(Fresh(epoch), steps);
  }

  // ------------------------------------------------------------------ an examination

  predicate Playing(look: Look) {
    look.playout.Some? ==> look.playout.value.playing
  }

  /** What the mixer has left to play, nothing when it does not know the stream. */
  function Filled(look: Look): real {
    if look.playout.Some? then look.playout.value.buffered else 0.0
  }

  /** The worst delay the link already made, between 1 and 10 ms. */
  function GraceOf(tail: real): real {
    if tail < 1.0 then 1.0 else if tail > 10.0 then 10.0 else tail
  }

  /** What must be left for the next pull: its block and half a millisecond, or a frame. */
  function Enough(block: Measure): real {
    if block.Some? && block.value > 0.0 then block.value + 0.5 else 2.5
  }

  function OnePull(block: Measure): real {
    if block.Some? && block.value > 0.0 then block.value else 2.5
  }

  /** The examination waited: the deadline did not move, nothing was pushed. */
  ghost predicate JustWaited(st: StreamState, s: StreamState, why: Wait, now: Time) {
    && s.nextDeadline == st.nextDeadline && s.consecutive == st.consecutive && s.lastConceal == st.lastConceal
    && s.deadlineDisarmed == st.deadlineDisarmed
    && s.log == st.log + [Waited(why, now)]
  }

  /** The stream is left alone until a packet is accepted. */
  ghost predicate LeftAlone(s: StreamState) {
    s.nextDeadline.None? && forall t :: !ExaminedAt(s, t)
  }

  /** Within its grace a packet is waited for, and the stream is next looked at when the grace ends. */
  lemma {:induction false} GraceIsWaitedOut(st: StreamState, now: Time, look: Look, block: Measure)
    requires ExaminedAt(st, now) && Playing(look) && look.tail.Some?
    requires now < st.nextDeadline.value + GraceOf(look.tail.value)
    ensures
      var s := Examine(st, now, look, block);
      && JustWaited(st, s, WithinGrace, now)
      && forall t :: ExaminedAt(s, t) <==> t >= st.nextDeadline.value + GraceOf(look.tail.value)
  {
  }

  /** Past it, as long as the buffer holds, the next look comes when a pull may have emptied it. */
  lemma {:induction false} FullBufferIsWaitedOut(st: StreamState, now: Time, look: Look, block: Measure)
    requires ExaminedAt(st, now) && Playing(look) && look.tail.Some?
    requires st.nextDeadline.value + GraceOf(look.tail.value) <= now <= st.nextDeadline.value + 200.0
    requires Filled(look) >= Enough(block)
    ensures
      var s := Examine(st, now, look, block);
      && JustWaited(st, s, BufferHolds, now)
      && forall t :: ExaminedAt(s, t) <==> t >= now && t >= now + Filled(look) - Enough(block) - OnePull(block)
  {
  }

  /** As long as the link is not known, nothing is invented and one frame is let pass. */
  lemma {:induction false} UnknownLinkIsWaitedOut(st: StreamState, now: Time, look: Look, block: Measure)
    requires ExaminedAt(st, now) && Playing(look) && look.tail.None?
    requires now <= st.nextDeadline.value + 200.0
    ensures
      var s := Examine(st, now, look, block);
      && JustWaited(st, s, LinkUnknown, now)
      && forall t :: ExaminedAt(s, t) <==> t >= now + 2.5
  {
  }

  /** More than 200 ms late, a stream that would wait is left alone. */
  lemma {:induction false} StaleStreamIsLeftAlone(st: StreamState, now: Time, look: Look, block: Measure)
    requires ExaminedAt(st, now) && Playing(look)
    requires now > st.nextDeadline.value + 200.0
    requires look.tail.None? || Filled(look) >= Enough(block)
    ensures
      var s := Examine(st, now, look, block);
      && LeftAlone(s) && s.deadlineDisarmed == st.deadlineDisarmed + 1 && s.consecutive == st.consecutive
      && s.log == st.log + [Waited(if look.tail.None? then LinkUnknown else BufferHolds, now)]
  {
  }

  /** So is one whose buffer fills up again, at once. */
  lemma {:induction false} RefillingStreamIsLeftAlone(st: StreamState, now: Time, look: Look, block: Measure)
    requires ExaminedAt(st, now) && !Playing(look)
    ensures
      var s := Examine(st, now, look, block);
      && LeftAlone(s) && s.deadlineDisarmed == st.deadlineDisarmed && s.consecutive == st.consecutive
      && s.log == st.log + [Waited(Repriming, now)]
  {
  }

  /** And one for which three frames were invented already. */
  lemma {:induction false} SpentStreamIsLeftAlone(st: StreamState, now: Time, look: Look, block: Measure)
    requires ExaminedAt(st, now) && Playing(look) && look.tail.Some?
    requires now >= st.nextDeadline.value + GraceOf(look.tail.value)
    requires Filled(look) < Enough(block) && st.consecutive >= 3
    ensures
      var s := Examine(st, now, look, block);
      && LeftAlone(s) && s.deadlineDisarmed == st.deadlineDisarmed + 1 && s.consecutive == st.consecutive
      && s.log == st.log
  {
  }

  /** Otherwise a frame is invented: one push that no packet comes with, in the place of the next number,
      remembered with what was left before it; and the next frame is due one frame later, but not before
      now. A codec that fails only costs the attempt. */
  lemma {:induction false} MissingFrameIsInvented(st: StreamState, now: Time, look: Look, block: Measure)
    requires ExaminedAt(st, now) && Playing(look) && look.tail.Some? && st.track.highest.Some?
    requires now >= st.nextDeadline.value + GraceOf(look.tail.value)
    requires Filled(look) < Enough(block) && st.consecutive < 3
    ensures
      var s := Examine(st, now, look, block);
      var next := st.nextDeadline.value + 2.5;
      && s.nextDeadline == Some(if next > now then next else now + 2.5) && s.nextCheck.None?
      && s.consecutive == st.consecutive + 1 && s.deadlineDisarmed == st.deadlineDisarmed
      && (look.lost.None? ==> s.log == st.log && s.lastConceal == st.lastConceal && s.underrunFrames == st.underrunFrames)
      && (look.lost.Some? ==>
            var slot := (st.track.highest.value + 1) % 65536;
            && Deeds(s.log) == Deeds(st.log) + [Pushed(AtDeadline, now, look.lost.value, None, block), Concealed(slot)]
            && s.lastConceal == Some(LastConceal(now, look.lost.value.fillBefore, look.lost.value.readIndex, slot))
            && s.underrunFrames == st.underrunFrames + 1)
  {
    hide NotePush;
    if look.lost.Some? {
      PushDoes(st, AtDeadline, look.lost.value, now, None, block);
      PushFrame(st, AtDeadline, look.lost.value, now, None, block);
      var s := NotePush(st, AtDeadline, look.lost.value, now, None, block);
      OneMoreDeed(s.log, Concealed(OnConcealed(s.track).highest.value));
    }
  }

  /** Between a look that waited and the one it asked for, nothing is missed: if the stream were looked at
      again at any instant in between, on the same link and with a buffer that the output drained no
      faster than time and one pull, it would only wait again. */
  lemma {:induction false} NextLookMissesNothing(st: StreamState, now: Time, look: Look, then_: Time, later: Look, block: Measure)
    requires ExaminedAt(st, now) && Examine(st, now, look, block).nextDeadline == st.nextDeadline
    requires now <= then_ && !ExaminedAt(Examine(st, now, look, block), then_)
    requires Playing(later) && later.tail == look.tail
    requires Filled(later) >= Filled(look) - (then_ - now) - OnePull(block)
    ensures
      var s := Examine(st, now, look, block);
      var again := Examine(s.(nextCheck := None), then_, later, block);
      && again.consecutive == s.consecutive
      && |again.log| == |s.log| + 1 && s.log == again.log[..|s.log|] && again.log[|s.log|].Waited?
  {
    hide InventAtDeadline, NextCheck;
    LookWaited(st, now, look, block);
    var s := Examine(st, now, look, block);
    hide Examine;
    WouldWait(st.nextDeadline.value, now, st.consecutive, look, then_, later, block);
    WaitsAgain(s.(nextCheck := None), then_, later, block);
  }

  lemma {:induction false} LookWaited(st: StreamState, now: Time, look: Look, block: Measure)
    requires ExaminedAt(st, now) && Examine(st, now, look, block).nextDeadline == st.nextDeadline
    ensures
      var late := now - st.nextDeadline.value;
      var decision := DecisionFor(late, st.consecutive, look, block);
      var s := Examine(st, now, look, block);
      && decision.Hold? && decision.why != Repriming && s.consecutive == st.consecutive
      && s.nextCheck == NextCheck(decision.why, late, now, look, block)
  {
    hide DecisionFor, NextCheck;
  }

  lemma {:induction false} WaitsAgain(s: StreamState, now: Time, look: Look, block: Measure)
    requires s.nextDeadline.Some? && now >= s.nextDeadline.value && s.nextCheck.None?
    requires DecisionFor(now - s.nextDeadline.value, s.consecutive, look, block).Hold?
    ensures
      var again := Examine(s, now, look, block);
      && again.consecutive == s.consecutive
      && |again.log| == |s.log| + 1 && s.log == again.log[..|s.log|] && again.log[|s.log|].Waited?
  {
    hide DecisionFor, NextCheck;
  }

  lemma {:induction false} WouldWait(deadline: Time, now: Time, consecutive: nat, look: Look, then_: Time, later: Look,
                                     block: Measure)
    requires deadline <= now <= then_
    requires Playing(later) && later.tail == look.tail
    requires Filled(later) >= Filled(look) - (then_ - now) - OnePull(block)
    requires
      var decision := DecisionFor(now - deadline, consecutive, look, block);
      && decision.Hold? && decision.why != Repriming
      && NextCheck(decision.why, now - deadline, now, look, block).Some?
      && then_ < NextCheck(decision.why, now - deadline, now, look, block).value
    ensures DecisionFor(then_ - deadline, consecutive, later, block).Hold?
  {
    RecheckIsNeverLate(now - deadline, Filled(look), block, look.tail, consecutive, then_ - now, Filled(later));
    assert now - deadline + (then_ - now) == then_ - deadline;
  }

  // ------------------------------------------------------------------ the numbering

  /** What a run asks of the tracker: the number of every packet that can be read, and an invention for
      every frame pushed at its deadline, in order. */
  function InputsOf(epoch: nat, steps: seq<Step>): seq<Input> {
    if steps == [] then [] else
    var before := steps[..|steps| - 1];
    InputsOf(epoch, before) +
    match steps[|steps| - 1]
    case Read(packet, _) => if packet.number.Some? then [Input.Packet(packet.number.value)] else []
    case Tick(_, _, _) =>
      if Run(Fresh(epoch), before).underrunFrames < Run(Fresh(epoch), steps).underrunFrames then [Input.Conceal] else []
  }

  lemma {:induction false} FillKeepsTrack(st: StreamState, p: Packet, n: nat, arrived: Arrived, block: Measure)
    ensures FillOnArrival(st, p, n, arrived, block).track == st.track
  {
    if n > 0 {
      FillKeepsTrack(st, p, n - 1, arrived, block);
    }
  }

  lemma {:induction false} AdmitKeepsTrack(st: StreamState, arrival: Arrival, p: Packet, block: Measure)
    ensures Admit(st, arrival, p, block).track == st.track
  {
    var n := if arrival.Next? then ArrivalBudget(arrival.missing, st.consecutive) else 0;
    FillKeepsTrack(Accept(st, p.recv), p, n, Arrived(p.recv, p.inSystem), block);
  }

  lemma {:induction false} StepTracks(st: StreamState, step: Step)
    ensures
      var s := Apply(st, step);
      s.track == match step
                 case Read(packet, _) => if packet.number.Some? then OnPacket(st.track, packet.number.value).0 else st.track
                 case Tick(_, _, _) => if s.underrunFrames > st.underrunFrames then OnConcealed(st.track) else st.track
  {
    hide OnPacket, OnConcealed, NotePush;
    match step {
      case Read(packet, block) =>
        if packet.number.Some? {
          var s := Tracked(st, packet.number.value);
          AdmitKeepsTrack(s, OnPacket(st.track, packet.number.value).1, packet, block);
        }
      case Tick(now, look, block) =>
        if look.lost.Some? {
          PushFrame(st, AtDeadline, look.lost.value, now, None, block);
        }
    }
  }

  /** Over every run the tracker of a stream is fed every number read and every frame invented at its
      deadline: so what each packet is taken for is what the unbounded reference of the numbering says. */
  lemma {:induction false} StreamFollowsTheReference(epoch: nat, steps: seq<Step>, p: Packet)
    requires p.number.Some?
    ensures
      var inputs := InputsOf(epoch, steps);
      var st := Run(Fresh(epoch), steps);
      && st.track == Feed(inputs).0 && Consistent(st.track, ReferenceFeed(inputs))
      && var answers := ReferenceFeed(inputs + [Input.Packet(p.number.value)]).answers;
         answers == ReferenceFeed(inputs).answers + [OnPacket(st.track, p.number.value).1]
  {
    hide Run, OnPacket, Consistent, InputsOf, ReferenceStep;
    var inputs := InputsOf(epoch, steps);
    var number := p.number.value;
    RunTracks(epoch, steps);
    RunRefines(inputs);
    assert (inputs + [Input.Packet(number)])[..|inputs|] == inputs;
    PacketStep(Feed(inputs).0, ReferenceFeed(inputs), number);
  }

  lemma {:induction false} RunTracks(epoch: nat, steps: seq<Step>)
    ensures Run(Fresh(epoch), steps).track == Feed(InputsOf(epoch, steps)).0
    decreases |steps|
  {
    hide Apply, OnPacket, OnConcealed;
    if steps != [] {
      var before, last := steps[..|steps| - 1], steps[|steps| - 1];
      RunTracks(epoch, before);
      OneMoreStep(Fresh(epoch), before, last);
      assert before + [last] == steps;
      StepTracks(Run(Fresh(epoch), before), last);
      var inputs, longer := InputsOf(epoch, before), InputsOf(epoch, steps);
      assert longer[..|inputs|] == inputs && inputs + [] == inputs;
    }
  }
}
