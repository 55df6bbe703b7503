/** What the receive thread keeps for one peer, and the two things that change it: an examination
    of the masking deadline and a packet (jamodio-agent/src/pipeline.rs, `DecodeState`).

    `StreamState` and the functions on it are the specification; the class `DecodeState` updates
    its fields as the program does and is proved to follow it. What the model cannot see (the
    codec, the jitter estimate, the buffer of the mixer, the clock) comes in as arguments. */
module Decoding {
  import opened Options
  import opened SeqTracking
  import opened Conceal
  import Holes

  /** An instant, in milliseconds. */
  type Time = real

  const STALE_MS: real := 200.0
  const PREMATURE_JUDGE_MAX_MS: real := 400.0
  const PLC_MAX_GAP: nat := 10
  const READ_INDEX_PERIOD: nat := 57_600
  const SAMPLES_PER_MS: real := 96.0
  const STATS_EVERY: nat := 40

  /** A gap the output found in the buffer. */
  datatype Hole = Hole(at: Time, readIndex: nat)

  /** What the mixer answers to a push into a stream it knows. */
  datatype PushReport = PushReport(fillBefore: real, fillAfter: real, readIndex: nat, hole: Option<Hole>)

  datatype Playout = Playout(buffered: real, playing: bool, readIndex: nat)

  /** The real packet behind a push: when it was read, and when the system had it. */
  datatype Arrived = Arrived(readAt: Time, inSystemAt: Option<Time>)

  datatype PushMark = PushMark(at: Time, fillAfter: real, readIndex: nat, lastReceived: Option<Time>)

  datatype LastConceal = LastConceal(at: Time, fill: real, readIndex: nat, slot: Seq16)

  datatype PendingHole = PendingHole(hole: Hole, base: Option<PushMark>)

  datatype HoleCounts = HoleCounts(
    arrival: nat, reception: nat, decode: nat, consumption: nat, sequence: nat, unclassified: nat,
    afterBufferHolds: nat)
  {
    function Total(): nat {
      arrival + reception + decode + consumption + sequence + unclassified
    }
  }

  /** Frames invented although the packet was coming in time, and by how much. */
  datatype Premature = Premature(frames: nat, margin: real, worst: real)

  datatype WaitCounts = WaitCounts(notDue: nat, linkUnknown: nat, withinGrace: nat, bufferHolds: nat, repriming: nat)

  datatype WaitMark = WaitMark(why: Wait, at: Time)

  datatype PushKind = AtDeadline | OnArrival | Decoded

  /** The history of a stream, kept for the proofs only. `GapClosed` stands where an accepted
      packet takes its place, after what its arrival made invent; `Concealed` after the push of a frame
      invented at its deadline, with the slot it takes; `Discarded` where a packet is refused; `Waited`
      where an examination waits. */
  datatype Event =
    | GapClosed
    | Pushed(kind: PushKind, at: Time, report: PushReport, arrived: Option<Arrived>, block: Measure)
    | Concealed(slot: Seq16)
    | Classified(hole: Hole, base: Option<PushMark>, cause: Holes.Cause)
    | Discarded(at: Time)
    | Waited(why: Wait, at: Time)
    | Judged(slot: Seq16, replaced: bool, recv: Time, read: Option<nat>, margin: Option<real>)

  datatype StreamState = StreamState(
    epoch: nat,
    track: Track,
    concealedFrames: nat,
    underrunFrames: nat,
    premature: Premature,
    lastConceal: Option<LastConceal>,
    waits: WaitCounts,
    lastWait: Option<WaitMark>,
    lastPush: Option<PushMark>,
    holes: HoleCounts,
    pendingHole: Option<PendingHole>,
    holesReported: nat,
    lastDiscard: Option<Time>,
    deadlineDisarmed: nat,
    nextDeadline: Option<Time>,
    nextCheck: Option<Time>,
    consecutive: nat,
    packets: nat,
    log: seq<Event>)

  function Fresh(epoch: nat): StreamState {
    StreamState(epoch, FRESH, 0, 0, Premature(0, 0.0, 0.0), None, WaitCounts(0, 0, 0, 0, 0), None, None,
                HoleCounts(0, 0, 0, 0, 0, 0, 0), None, 0, None, 0, None, None, 0, 0, [])
  }

  /** What an examination finds around it. `lost` is the report of the push of one invented frame,
      `None` when the codec fails or the mixer does not know the stream. */
  datatype Look = Look(playout: Option<Playout>, tail: Measure, lost: Option<PushReport>)

  /** The outcome of inventing one frame on arrival. */
  datatype Attempt = Attempt(at: Time, report: Option<PushReport>)

  /** A packet read and decrypted, with the outcomes of everything its processing calls: `attempts`
      beyond the listed ones fail, `decoded` is the push of its own sound. */
  datatype Packet = Packet(
    number: Option<Seq16>,
    recv: Time,
    inSystem: Option<Time>,
    attempts: seq<Attempt>,
    playout: Option<Playout>,
    decoded: Option<Attempt>)

  function SaturatingSince(now: Time, then_: Time): real {
    Max(now - then_, 0.0)
  }

  /** Sound really taken out of the buffer between two read positions. */
  function ConsumedBetween(from: nat, to: nat): real {
    ((to % READ_INDEX_PERIOD + READ_INDEX_PERIOD - from % READ_INDEX_PERIOD) % READ_INDEX_PERIOD) as real / SAMPLES_PER_MS
  }

  function Min(a: nat, b: nat): nat {
    if a < b then a else b
  }

  // ------------------------------------------------------------------ holes

  function CountHole(c: HoleCounts, cause: Holes.Cause, bufferHeld: bool): HoleCounts {
    var c := if bufferHeld then c.(afterBufferHolds := c.afterBufferHolds + 1) else c;
    match cause
    case Arrival => c.(arrival := c.arrival + 1)
    case Reception => c.(reception := c.reception + 1)
    case Decode => c.(decode := c.decode + 1)
    case Consumption => c.(consumption := c.consumption + 1)
    case Sequence => c.(sequence := c.sequence + 1)
    case Unclassified => c.(unclassified := c.unclassified + 1)
  }

  function CauseOf(lastDiscard: Option<Time>, h: Hole, base: Option<PushMark>, arrived: Option<Arrived>,
                   block: Measure): Holes.Cause {
    if base.None? then Holes.Unclassified else
    var p := base.value;
    Holes.Classify(Holes.Facts(
      if h.at >= p.at then h.at - p.at else -1.0,
      ConsumedBetween(p.readIndex, h.readIndex),
      block,
      if arrived.Some? then Some(arrived.value.readAt <= h.at) else None,
      if arrived.Some? && arrived.value.inSystemAt.Some? then Some(arrived.value.inSystemAt.value <= h.at) else None,
      lastDiscard.Some? && p.at <= lastDiscard.value <= h.at))
  }

  function BufferHeld(lastWait: Option<WaitMark>, base: Option<PushMark>): bool {
    base.Some? && lastWait.Some? && lastWait.value.at >= base.value.at && lastWait.value.why == BufferHolds
  }

  function ReportHole(st: StreamState, h: Hole, base: Option<PushMark>, arrived: Option<Arrived>,
                      block: Measure): StreamState {
    var cause := CauseOf(st.lastDiscard, h, base, arrived, block);
    st.(holes := CountHole(st.holes, cause, BufferHeld(st.lastWait, base)),
        holesReported := st.holesReported + 1,
        log := st.log + [Classified(h, base, cause)])
  }

  function SettlePending(st: StreamState, arrived: Option<Arrived>, block: Measure): StreamState {
    if st.pendingHole.None? then st
    else ReportHole(st.(pendingHole := None), st.pendingHole.value.hole, st.pendingHole.value.base, arrived, block)
  }

  function NoteHole(st: StreamState, h: Hole, arrived: Option<Arrived>, block: Measure): StreamState {
    if arrived.Some? then ReportHole(st, h, st.lastPush, arrived, block)
    else SettlePending(st, None, block).(pendingHole := Some(PendingHole(h, st.lastPush)))
  }

  function MarkOf(previous: Option<PushMark>, at: Time, report: PushReport, arrived: Option<Arrived>): PushMark {
    PushMark(at, report.fillAfter, report.readIndex,
             if arrived.Some? then Some(arrived.value.readAt)
             else if previous.Some? then previous.value.lastReceived else None)
  }

  function NotePush(st: StreamState, kind: PushKind, report: PushReport, now: Time, arrived: Option<Arrived>,
                    block: Measure): StreamState {
    var s0 := st.(log := st.log + [Pushed(kind, now, report, arrived, block)]);
    var s1 := if arrived.Some? then SettlePending(s0, arrived, block) else s0;
    var s2 := if report.hole.Some? then NoteHole(s1, report.hole.value, arrived, block) else s1;
    s2.(lastPush := Some(MarkOf(s2.lastPush, now, report, arrived)))
  }

  // ------------------------------------------------------------------ examination of the deadline

  predicate ExaminedAt(st: StreamState, now: Time) {
    && st.nextDeadline.Some? && now >= st.nextDeadline.value
    && (st.nextCheck.Some? ==> now >= st.nextCheck.value)
  }

  function CountWait(w: WaitCounts, why: Wait): WaitCounts {
    match why
    case NotDue => w.(notDue := w.notDue + 1)
    case LinkUnknown => w.(linkUnknown := w.linkUnknown + 1)
    case WithinGrace => w.(withinGrace := w.withinGrace + 1)
    case BufferHolds => w.(bufferHolds := w.bufferHolds + 1)
    case Repriming => w.(repriming := w.repriming + 1)
  }

  function Disarm(st: StreamState): StreamState {
    st.(nextDeadline := None, nextCheck := None)
  }

  function DecisionFor(late: real, consecutive: nat, look: Look, block: Measure): Decision {
    if look.playout.Some? && !look.playout.value.playing then Hold(Repriming)
    else Decide(Some(late), Some(if look.playout.Some? then look.playout.value.buffered else 0.0),
                block, look.tail, consecutive)
  }

  /** When the reason for waiting may have changed. */
  function NextCheck(why: Wait, late: real, now: Time, look: Look, block: Measure): Option<Time> {
    var fill := if look.playout.Some? then look.playout.value.buffered else 0.0;
    var r := RecheckIn(why, Some(late), Some(fill), block, look.tail);
    if r.Some? then Some(now + r.value) else None
  }

  function NoteWaiting(st: StreamState, why: Wait, now: Time): StreamState {
    st.(lastWait := Some(WaitMark(why, now)), waits := CountWait(st.waits, why), log := st.log + [Waited(why, now)])
  }

  function HoldOn(st: StreamState, why: Wait, late: real, now: Time, look: Look, block: Measure): StreamState {
    var s := NoteWaiting(st, why, now);
    if why == Repriming then Disarm(s)
    else if late > STALE_MS then Disarm(s).(deadlineDisarmed := s.deadlineDisarmed + 1)
    else s.(nextCheck := NextCheck(why, late, now, look, block))
  }

  function InventAtDeadline(st: StreamState, now: Time, look: Look, block: Measure): StreamState {
    if look.lost.None? then st else
    var r := look.lost.value;
    var s := NotePush(st, AtDeadline, r, now, None, block);
    var track := OnConcealed(s.track);
    s.(track := track,
       lastConceal := if track.highest.Some? then Some(LastConceal(now, r.fillBefore, r.readIndex, track.highest.value)) else None,
       underrunFrames := s.underrunFrames + 1,
       log := if track.highest.Some? then s.log + [Concealed(track.highest.value)] else s.log)
  }

  function NextDeadline(deadline: Time, now: Time): Time {
    if deadline + FRAME_MS > now then deadline + FRAME_MS else now + FRAME_MS
  }

  function Examine(st: StreamState, now: Time, look: Look, block: Measure): StreamState {
    if !ExaminedAt(st, now) then st else
    var deadline := st.nextDeadline.value;
    var late := SaturatingSince(now, deadline);
    match DecisionFor(late, st.consecutive, look, block)
    case Hold(why) => HoldOn(st, why, late, now, look, block)
    case FadeToSilence => Disarm(st).(deadlineDisarmed := st.deadlineDisarmed + 1)
    case Frame =>
      InventAtDeadline(st, now, look, block)
      .(consecutive := st.consecutive + 1, nextDeadline := Some(NextDeadline(deadline, now)), nextCheck := None)
  }

  // ------------------------------------------------------------------ a packet

  function AttemptAt(p: Packet, k: nat): Option<Attempt> {
    if k < |p.attempts| then Some(p.attempts[k]) else None
  }

  function OneOnArrival(st: StreamState, attempt: Option<Attempt>, arrived: Arrived, block: Measure): StreamState {
    if attempt.None? || attempt.value.report.None? then st else
    var s := NotePush(st, OnArrival, attempt.value.report.value, attempt.value.at, Some(arrived), block);
    s.(concealedFrames := s.concealedFrames + 1)
  }

  function FillOnArrival(st: StreamState, p: Packet, n: nat, arrived: Arrived, block: Measure): StreamState {
    if n == 0 then st
    else OneOnArrival(FillOnArrival(st, p, n - 1, arrived, block), AttemptAt(p, n - 1), arrived, block)
  }

  /** How many frames the arrival may still invent out of the shared budget. */
  function ArrivalBudget(missing: nat, invented: nat): nat {
    if 1 <= missing <= PLC_MAX_GAP then Min(missing, if invented < MAX_CONSECUTIVE then MAX_CONSECUTIVE - invented else 0)
    else 0
  }

  function Accept(st: StreamState, recv: Time): StreamState {
    st.(lastConceal := None, nextDeadline := Some(recv + FRAME_MS), nextCheck := None, consecutive := 0)
  }

  /** By how much the frame invented at `lc` was premature, judged on what the output consumed
      since; too long after it, the read positions say nothing. */
  function MarginOf(lc: LastConceal, p: Packet): Option<real> {
    if p.playout.Some? && SaturatingSince(p.recv, lc.at) < PREMATURE_JUDGE_MAX_MS
    then PrematureMargin(lc.fill, ConsumedBetween(lc.readIndex, p.playout.value.readIndex))
    else None
  }

  function CountPremature(c: Premature, margin: Option<real>): Premature {
    if margin.None? then c
    else Premature(c.frames + 1, c.margin + margin.value, Max(c.worst, margin.value))
  }

  function Judgement(number: Seq16, replaced: bool, p: Packet, margin: Option<real>): Event {
    Judged(number, replaced, p.recv, if p.playout.Some? then Some(p.playout.value.readIndex) else None, margin)
  }

  function Judge(st: StreamState, number: Seq16, replaced: bool, p: Packet): StreamState {
    if st.lastConceal.None? || st.lastConceal.value.slot != number then st else
    var margin := MarginOf(st.lastConceal.value, p);
    st.(lastConceal := None,
        premature := CountPremature(st.premature, margin),
        log := st.log + [Judgement(number, replaced, p, margin)])
  }

  function Play(st: StreamState, p: Packet, arrived: Arrived, block: Measure): StreamState {
    if p.decoded.None? || p.decoded.value.report.None? then st
    else NotePush(st, Decoded, p.decoded.value.report.value, p.decoded.value.at, Some(arrived), block)
  }

  function CloseGap(st: StreamState): StreamState {
    st.(log := st.log + [GapClosed])
  }

  /** A packet that is played: `Start`, or `Next` with the frames its arrival makes invent. */
  function Admit(st: StreamState, arrival: Arrival, p: Packet, block: Measure): StreamState {
    var arrived := Arrived(p.recv, p.inSystem);
    var n := if arrival.Next? then ArrivalBudget(arrival.missing, st.consecutive) else 0;
    Play(CloseGap(FillOnArrival(Accept(st, p.recv), p, n, arrived, block)), p, arrived, block)
  }

  function Discard(st: StreamState, recv: Time): StreamState {
    st.(lastDiscard := Some(recv), log := st.log + [Discarded(recv)])
  }

  /** A packet that is not played: `Late`, `Duplicate` or `Jump`. */
  function Refuse(st: StreamState, number: Seq16, arrival: Arrival, p: Packet): StreamState {
    var s := Discard(st, p.recv);
    if arrival.Late? then Judge(s, number, arrival.replaced, p) else s
  }

  function Receive(st: StreamState, p: Packet, block: Measure): StreamState {
    var s := st.(packets := st.packets + 1);
    if p.number.None? then s else
    var (track, arrival) := OnPacket(s.track, p.number.value);
    if arrival.Accepted() then Admit(s.(track := track), arrival, p, block)
    else Refuse(s.(track := track), p.number.value, arrival, p)
  }

  // ------------------------------------------------------------------ the state, updated in place

  class DecodeState {
    const epoch: nat
    const tracker: SeqTracker
    var concealedFrames: nat
    var underrunFrames: nat
    var premature: Premature
    var lastConceal: Option<LastConceal>
    var waits: WaitCounts
    var lastWait: Option<WaitMark>
    var lastPush: Option<PushMark>
    var holes: HoleCounts
    var pendingHole: Option<PendingHole>
    var holesReported: nat
    var lastDiscard: Option<Time>
    var deadlineDisarmed: nat
    var nextDeadline: Option<Time>
    var nextCheck: Option<Time>
    var consecutive: nat
    var packets: nat
    ghost var log: seq<Event>

    ghost function View(): StreamState
      reads this, tracker
    {
      StreamState(epoch, tracker.View(), concealedFrames, underrunFrames, premature, lastConceal, waits, lastWait, lastPush, holes, pendingHole, holesReported,
                  lastDiscard, deadlineDisarmed, nextDeadline, nextCheck, consecutive, packets, log)
    }

    constructor (epoch: nat)
      ensures View() == Fresh(epoch)
      ensures fresh(tracker)
    {
      this.epoch := epoch;
      tracker := new SeqTracker();
      concealedFrames, underrunFrames, premature := 0, 0, Premature(0, 0.0, 0.0);
      lastConceal, lastWait, lastPush, pendingHole, lastDiscard := None, None, None, None, None;
      waits := WaitCounts(0, 0, 0, 0, 0);
      holes := HoleCounts(0, 0, 0, 0, 0, 0, 0);
      holesReported, deadlineDisarmed, consecutive, packets := 0, 0, 0, 0;
      nextDeadline, nextCheck := None, None;
      log := [];
    }

    method Report(h: Hole, base: Option<PushMark>, arrived: Option<Arrived>, block: Measure)
      modifies this
      ensures View() == ReportHole(old(View()), h, base, arrived, block)
    {
      var cause := CauseOf(lastDiscard, h, base, arrived, block);
      holes := CountHole(holes, cause, BufferHeld(lastWait, base));
      holesReported := holesReported + 1;
      log := log + [Classified(h, base, cause)];
    }

    method SettlePendingHole(arrived: Option<Arrived>, block: Measure)
      modifies this
      ensures View() == SettlePending(old(View()), arrived, block)
    {
      if pendingHole.Some? {
        var pending := pendingHole.value;
        pendingHole := None;
        Report(pending.hole, pending.base, arrived, block);
      }
    }

    method NoteHoleFound(h: Hole, arrived: Option<Arrived>, block: Measure)
      modifies this
      ensures View() == NoteHole(old(View()), h, arrived, block)
    {
      if arrived.None? {
        var base := lastPush;
        SettlePendingHole(None, block);
        pendingHole := Some(PendingHole(h, base));
      } else {
        Report(h, lastPush, arrived, block);
      }
    }

    method NoteOnePush(kind: PushKind, report: PushReport, now: Time, arrived: Option<Arrived>, block: Measure)
      modifies this
      ensures View() == NotePush(old(View()), kind, report, now, arrived, block)
      ensures consecutive == old(consecutive)
    {
      log := log + [Pushed(kind, now, report, arrived, block)];
      if arrived.Some? {
        SettlePendingHole(arrived, block);
      }
      if report.hole.Some? {
        NoteHoleFound(report.hole.value, arrived, block);
      }
      lastPush := Some(MarkOf(lastPush, now, report, arrived));
    }

    predicate IsExaminedAt(now: Time)
      reads this
    {
      && nextDeadline.Some? && now >= nextDeadline.value
      && (nextCheck.Some? ==> now >= nextCheck.value)
    }

    method NoteWait(why: Wait, now: Time)
      modifies this
      ensures View() == NoteWaiting(old(View()), why, now)
    {
      log := log + [Waited(why, now)];
      lastWait := Some(WaitMark(why, now));
      waits := CountWait(waits, why);
    }

    method DisarmDeadline(counted: bool)
      modifies this
      ensures View() == Disarm(old(View())).(deadlineDisarmed := old(View()).deadlineDisarmed + if counted then 1 else 0)
    {
      nextDeadline, nextCheck := None, None;
      if counted {
        deadlineDisarmed := deadlineDisarmed + 1;
      }
    }

    method HoldBack(why: Wait, late: real, now: Time, look: Look, block: Measure)
      modifies this
      ensures View() == HoldOn(old(View()), why, late, now, look, block)
    {
      NoteWait(why, now);
      if why == Repriming {
        DisarmDeadline(false);
      } else if late > STALE_MS {
        DisarmDeadline(true);
      } else {
        nextCheck := NextCheck(why, late, now, look, block);
      }
    }

    method InventOne(now: Time, look: Look, block: Measure)
      modifies this, tracker
      ensures View() == InventAtDeadline(old(View()), now, look, block)
      ensures consecutive == old(consecutive)
    {
      hide NotePush, OnConcealed;
      if look.lost.Some? {
        var r := look.lost.value;
        NoteOnePush(AtDeadline, r, now, None, block);
        tracker.Conceal();
        lastConceal := if tracker.highest.Some?
                       then Some(LastConceal(now, r.fillBefore, r.readIndex, tracker.highest.value)) else None;
        if tracker.highest.Some? {
          log := log + [Concealed(tracker.highest.value)];
        }
        underrunFrames := underrunFrames + 1;
      }
    }

    /** One turn of `conceal_due_streams` for this stream. */
    method ExamineDeadline(now: Time, look: Look, block: Measure)
      modifies this, tracker
      ensures View() == Examine(old(View()), now, look, block)
    {
      hide HoldOn, DecisionFor, NextDeadline, InventAtDeadline, SaturatingSince, NoteWaiting;
      if !IsExaminedAt(now) {
        return;
      }
      var deadline := nextDeadline.value;
      var late := SaturatingSince(now, deadline);
      var decision := DecisionFor(late, consecutive, look, block);
      if decision.Hold? {
        HoldBack(decision.why, late, now, look, block);
        return;
      }
      if decision.FadeToSilence? {
        DisarmDeadline(true);
        return;
      }
      InventOne(now, look, block);
      consecutive := consecutive + 1;
      nextDeadline := Some(NextDeadline(deadline, now));
      nextCheck := None;
    }

    method JudgeLate(number: Seq16, replaced: bool, p: Packet)
      modifies this
      ensures View() == Judge(old(View()), number, replaced, p)
    {
      if lastConceal.None? || lastConceal.value.slot != number {
        return;
      }
      var margin := MarginOf(lastConceal.value, p);
      lastConceal := None;
      premature := CountPremature(premature, margin);
      log := log + [Judgement(number, replaced, p, margin)];
    }

    method AcceptPacket(recv: Time)
      modifies this
      ensures View() == Accept(old(View()), recv)
    {
      lastConceal := None;
      nextDeadline := Some(recv + FRAME_MS);
      nextCheck := None;
      consecutive := 0;
    }

    method InventOnArrival(p: Packet, budget: nat, arrived: Arrived, block: Measure)
      modifies this
      ensures View() == FillOnArrival(old(View()), p, budget, arrived, block)
    {
      for k := 0 to budget
        invariant View() == FillOnArrival(old(View()), p, k, arrived, block)
      {
        var attempt := AttemptAt(p, k);
        if attempt.Some? && attempt.value.report.Some? {
          NoteOnePush(OnArrival, attempt.value.report.value, attempt.value.at, Some(arrived), block);
          concealedFrames := concealedFrames + 1;
        }
      }
    }

    method PlayPacket(p: Packet, arrived: Arrived, block: Measure)
      modifies this
      ensures View() == Play(CloseGap(old(View())), p, arrived, block)
    {
      log := log + [GapClosed];
      if p.decoded.Some? && p.decoded.value.report.Some? {
        NoteOnePush(Decoded, p.decoded.value.report.value, p.decoded.value.at, Some(arrived), block);
      }
    }

    method AdmitPacket(arrival: Arrival, p: Packet, block: Measure)
      modifies this
      ensures View() == Admit(old(View()), arrival, p, block)
    {
      var arrived := Arrived(p.recv, p.inSystem);
      var inventedAtDeadline := consecutive;
      AcceptPacket(p.recv);
      if arrival.Next? {
        InventOnArrival(p, ArrivalBudget(arrival.missing, inventedAtDeadline), arrived, block);
      }
      PlayPacket(p, arrived, block);
    }

    method RefusePacket(number: Seq16, arrival: Arrival, p: Packet)
      modifies this
      ensures View() == Refuse(old(View()), number, arrival, p)
    {
      lastDiscard := Some(p.recv);
      log := log + [Discarded(p.recv)];
      if arrival.Late? {
        JudgeLate(number, arrival.replaced, p);
      }
    }

    /** `decode_one_packet`. */
    method DecodeOnePacket(p: Packet, block: Measure)
      modifies this, tracker
      ensures View() == Receive(old(View()), p, block)
    {
      hide Admit, Refuse, OnPacket;
      packets := packets + 1;
      if p.number.None? {
        return;
      }
      var arrival := tracker.Packet(p.number.value);
      if arrival.Accepted() {
        AdmitPacket(arrival, p, block);
      } else {
        RefusePacket(p.number.value, arrival, p);
      }
    }
  }
}
