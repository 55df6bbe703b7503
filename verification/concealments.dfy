/** Which packet judges which invented frame, over the whole history of a stream
    (jamodio-agent/src/pipeline.rs, `last_conceal`). */
module Concealments {
  import opened Options
  import opened SeqTracking
  import opened Conceal
  import opened Decoding
  import DecodeRuns
  import Histories

  /** A frame invented at its deadline: the slot it takes and its push. */
  datatype Awaited = Awaited(slot: Seq16, push: Event)

  /** The frame that awaits its packet: the last one invented at its deadline, unless it was judged or a
      packet was accepted since. */
  function Awaiting(log: seq<Event>): Option<Awaited> {
    if log == [] then None else
    var before := log[..|log| - 1];
    match log[|log| - 1]
    case Concealed(slot) =>
      if Histories.LastPush(before).Some? then Some(Awaited(slot, before[Histories.LastPush(before).value])) else None
    case GapClosed => None
    case Judged(_, _, _, _, _) => None
    case _ => Awaiting(before)
  }

  /** The margin of a judgement: what was left of the real sound when the frame was invented, less what
      the output took until the packet came; none when it took more, when the stream is unknown to the
      mixer or when the packet comes 400 ms later or more. */
  ghost predicate JudgedOn(push: Event, j: Event)
    requires push.Pushed? && j.Judged?
  {
    if j.read.None? || j.recv - push.at >= 400.0 then j.margin.None? else
    var taken := ConsumedBetween(push.report.readIndex, j.read.value);
    j.margin == if taken <= push.report.fillBefore then Some(push.report.fillBefore - taken) else None
  }

  /** A slot is taken right after a push at the deadline; a judgement is of the frame that awaits it, by
      the packet of its slot. */
  ghost predicate InOrder(before: seq<Event>, e: Event) {
    && (e.Concealed? ==> Histories.LastPush(before).Some? && before[Histories.LastPush(before).value].kind == AtDeadline)
    && (e.Judged? ==>
          && Awaiting(before).Some? && Awaiting(before).value.slot == e.slot
          && Awaiting(before).value.push.Pushed? && JudgedOn(Awaiting(before).value.push, e))
  }

  ghost predicate Orderly(log: seq<Event>) {
    forall k :: 0 <= k < |log| ==> InOrder(log[..k], log[k])
  }

  function IsPremature(): Event -> bool {
    (e: Event) => e.Judged? && e.margin.Some?
  }

  function SumOfMargins(log: seq<Event>): real {
    if log == [] then 0.0 else
    var e := log[|log| - 1];
    SumOfMargins(log[..|log| - 1]) + if e.Judged? && e.margin.Some? then e.margin.value else 0.0
  }

  /** The largest of the margins, or nothing. */
  ghost predicate IsWorst(log: seq<Event>, worst: real) {
    && (forall k :: 0 <= k < |log| && log[k].Judged? && log[k].margin.Some? ==> log[k].margin.value <= worst)
    && (worst == 0.0 || exists k :: 0 <= k < |log| && log[k].Judged? && log[k].margin == Some(worst))
  }

  ghost predicate PrematureTold(log: seq<Event>, c: Premature) {
    c.frames == DecodeRuns.Count(log, IsPremature()) && c.margin == SumOfMargins(log) && IsWorst(log, c.worst)
  }

  ghost predicate Kept(log: seq<Event>, c: Premature) {
    Orderly(log) && PrematureTold(log, c)
  }

  lemma {:induction false} OneMore(log: seq<Event>, e: Event, c: Premature)
    requires Kept(log, c) && InOrder(log, e)
    ensures Kept(log + [e], if e.Judged? then CountPremature(c, e.margin) else c)
    ensures Awaiting(log + [e]) ==
            match e
            case Concealed(slot) => Some(Awaited(slot, log[Histories.LastPush(log).value]))
            case GapClosed => None
            case Judged(_, _, _, _, _) => None
            case _ => Awaiting(log)
  {
    hide InOrder, PrematureTold;
    OneMorePremature(log, e, c);
    var longer := log + [e];
    assert longer[..|log|] == log;
    assert e.Concealed? ==> Histories.LastPush(log).Some? by { Ordered(log, e); }
    forall k | 0 <= k < |longer|
      ensures InOrder(longer[..k], longer[k])
    {
      assert longer[..k] == log[..k];
      assert log[..|log|] == log;
    }
  }

  lemma {:induction false} Ordered(before: seq<Event>, e: Event)
    requires InOrder(before, e)
    ensures e.Concealed? ==> Histories.LastPush(before).Some?
  {
  }

  lemma {:induction false} OneMorePremature(log: seq<Event>, e: Event, c: Premature)
    requires PrematureTold(log, c)
    ensures PrematureTold(log + [e], if e.Judged? then CountPremature(c, e.margin) else c)
  {
    DecodeRuns.OneMoreCount(log, e, IsPremature());
    var longer := log + [e];
    assert longer[..|log|] == log;
    var c' := if e.Judged? then CountPremature(c, e.margin) else c;
    if c'.worst == c.worst && c.worst != 0.0 {
      var k :| 0 <= k < |log| && log[k].Judged? && log[k].margin == Some(c.worst);
      assert longer[k] == log[k];
    } else if c'.worst != 0.0 {
      assert longer[|log|] == e;
    }
  }

  /** The history of a stream and the frame it remembers agree. */
  ghost predicate Remembers(st: StreamState) {
    && Kept(st.log, st.premature)
    && (st.lastConceal.None? <==> Awaiting(st.log).None?)
    && (st.lastConceal.Some? ==> Recalls(st.lastConceal.value, Awaiting(st.log).value))
  }

  ghost predicate Recalls(lc: LastConceal, a: Awaited) {
    && a.push.Pushed? && lc.slot == a.slot
    && lc.at == a.push.at && lc.fill == a.push.report.fillBefore && lc.readIndex == a.push.report.readIndex
  }

  /** A part of the history during which nothing is judged. */
  ghost predicate SameAwaiting(s: StreamState, st: StreamState) {
    Kept(s.log, s.premature) && s.premature == st.premature && Awaiting(s.log) == Awaiting(st.log)
  }

  lemma {:induction false} ReportKeeps(st: StreamState, h: Hole, base: Option<PushMark>, arrived: Option<Arrived>, block: Measure)
    requires Kept(st.log, st.premature)
    ensures SameAwaiting(ReportHole(st, h, base, arrived, block), st)
  {
    hide Awaiting, Kept;
    var e := Classified(h, base, CauseOf(st.lastDiscard, h, base, arrived, block));
    OneMore(st.log, e, st.premature);
  }

  lemma {:induction false} SettleKeeps(st: StreamState, arrived: Option<Arrived>, block: Measure)
    requires Kept(st.log, st.premature)
    ensures SameAwaiting(SettlePending(st, arrived, block), st)
  {
    hide Awaiting, Kept, ReportHole;
    if st.pendingHole.Some? {
      ReportKeeps(st.(pendingHole := None), st.pendingHole.value.hole, st.pendingHole.value.base, arrived, block);
    }
  }

  lemma {:induction false} NoteHoleKeeps(st: StreamState, h: Hole, arrived: Option<Arrived>, block: Measure)
    requires Kept(st.log, st.premature)
    ensures SameAwaiting(NoteHole(st, h, arrived, block), st)
  {
    hide Awaiting, Kept, ReportHole, SettlePending;
    ReportKeeps(st, h, st.lastPush, arrived, block);
    SettleKeeps(st, None, block);
  }

  lemma {:induction false} PushKeeps(st: StreamState, kind: PushKind, report: PushReport, now: Time, arrived: Option<Arrived>, block: Measure)
    requires Kept(st.log, st.premature)
    ensures SameAwaiting(NotePush(st, kind, report, now, arrived, block), st)
  {
    hide Awaiting, Kept, NoteHole, SettlePending;
    OneMore(st.log, Pushed(kind, now, report, arrived, block), st.premature);
    var s0 := st.(log := st.log + [Pushed(kind, now, report, arrived, block)]);
    SettleKeeps(s0, arrived, block);
    var s1 := if arrived.Some? then SettlePending(s0, arrived, block) else s0;
    if report.hole.Some? {
      NoteHoleKeeps(s1, report.hole.value, arrived, block);
    }
  }

  lemma {:induction false} FillKeeps(st: StreamState, p: Packet, n: nat, arrived: Arrived, block: Measure)
    requires Kept(st.log, st.premature)
    ensures SameAwaiting(FillOnArrival(st, p, n, arrived, block), st)
  {
    hide Awaiting, Kept, NotePush;
    if n > 0 {
      FillKeeps(st, p, n - 1, arrived, block);
      var s := FillOnArrival(st, p, n - 1, arrived, block);
      var attempt := AttemptAt(p, n - 1);
      if attempt.Some? && attempt.value.report.Some? {
        PushKeeps(s, OnArrival, attempt.value.report.value, attempt.value.at, Some(arrived), block);
      }
    }
  }

  lemma {:induction false} FillForgets(st: StreamState, p: Packet, n: nat, arrived: Arrived, block: Measure)
    requires st.lastConceal.None?
    ensures FillOnArrival(st, p, n, arrived, block).lastConceal.None?
  {
    hide NotePush;
    if n > 0 {
      FillForgets(st, p, n - 1, arrived, block);
      var attempt := AttemptAt(p, n - 1);
      if attempt.Some? && attempt.value.report.Some? {
        DecodeRuns.PushFrame(FillOnArrival(st, p, n - 1, arrived, block), OnArrival, attempt.value.report.value,
                             attempt.value.at, Some(arrived), block);
      }
    }
  }

  lemma {:induction false} InventRemembers(st: StreamState, now: Time, look: Look, block: Measure)
    requires Remembers(st)
    ensures Remembers(InventAtDeadline(st, now, look, block)) || st.track.highest.None?
  {
    hide Awaiting, Kept, NotePush;
    if look.lost.Some? {
      PushKeeps(st, AtDeadline, look.lost.value, now, None, block);
      DecodeRuns.PushFrame(st, AtDeadline, look.lost.value, now, None, block);
      var s := NotePush(st, AtDeadline, look.lost.value, now, None, block);
      var track := OnConcealed(s.track);
      Histories.PushStands(st, AtDeadline, look.lost.value, now, None, block);
      if track.highest.Some? {
        OneMore(s.log, Concealed(track.highest.value), s.premature);
      }
    }
  }

  lemma {:induction false} ExamineRemembers(st: StreamState, now: Time, look: Look, block: Measure)
    requires DecodeRuns.Sound(st) && Remembers(st)
    ensures Remembers(Examine(st, now, look, block))
  {
    hide Awaiting, Kept, InventAtDeadline, DecodeRuns.HolesAccounted, DecodeRuns.FramesAccounted,
      DecodeRuns.BudgetKept;
    InventRemembers(st, now, look, block);
    if ExaminedAt(st, now) {
      var decision := DecisionFor(SaturatingSince(now, st.nextDeadline.value), st.consecutive, look, block);
      if decision.Hold? {
        OneMore(st.log, Waited(decision.why, now), st.premature);
      }
    }
  }

  lemma {:induction false} PlayRemembers(st: StreamState, p: Packet, arrived: Arrived, block: Measure)
    requires Kept(st.log, st.premature) && st.lastConceal.None?
    ensures Remembers(Play(CloseGap(st), p, arrived, block))
  {
    hide Awaiting, Kept, NotePush;
    OneMore(st.log, GapClosed, st.premature);
    if p.decoded.Some? && p.decoded.value.report.Some? {
      PushKeeps(CloseGap(st), Decoded, p.decoded.value.report.value, p.decoded.value.at, Some(arrived), block);
      DecodeRuns.PushFrame(CloseGap(st), Decoded, p.decoded.value.report.value, p.decoded.value.at, Some(arrived), block);
    }
  }

  lemma {:induction false} AdmitRemembers(st: StreamState, arrival: Arrival, p: Packet, block: Measure)
    requires Remembers(st)
    ensures Remembers(Admit(st, arrival, p, block))
  {
    hide Awaiting, Kept, FillOnArrival, Play;
    var arrived := Arrived(p.recv, p.inSystem);
    var n := if arrival.Next? then ArrivalBudget(arrival.missing, st.consecutive) else 0;
    FillKeeps(Accept(st, p.recv), p, n, arrived, block);
    FillForgets(Accept(st, p.recv), p, n, arrived, block);
    PlayRemembers(FillOnArrival(Accept(st, p.recv), p, n, arrived, block), p, arrived, block);
  }

  lemma {:induction false} RefuseRemembers(st: StreamState, number: Seq16, arrival: Arrival, p: Packet)
    requires Remembers(st)
    ensures Remembers(Refuse(st, number, arrival, p))
  {
    hide Awaiting, Kept;
    var s := Discard(st, p.recv);
    OneMore(st.log, Discarded(p.recv), st.premature);
    if arrival.Late? && st.lastConceal.Some? && st.lastConceal.value.slot == number {
      var e := Judgement(number, arrival.replaced, p, MarginOf(st.lastConceal.value, p));
      MarginIsJudged(st.lastConceal.value, Awaiting(s.log).value.push, number, arrival.replaced, p);
      OneMore(s.log, e, st.premature);
    }
  }

  lemma {:induction false} MarginIsJudged(lc: LastConceal, push: Event, number: Seq16, replaced: bool, p: Packet)
    requires Recalls(lc, Awaited(lc.slot, push))
    ensures JudgedOn(push, Judgement(number, replaced, p, MarginOf(lc, p)))
  {
  }

  lemma {:induction false} ReceiveRemembers(st: StreamState, p: Packet, block: Measure)
    requires Remembers(st)
    ensures Remembers(Receive(st, p, block))
  {
    hide Awaiting, Kept, Admit, Refuse, SeqTracking.OnPacket;
    if p.number.Some? {
      var s := DecodeRuns.Tracked(st, p.number.value);
      var arrival := SeqTracking.OnPacket(st.track, p.number.value).1;
      AdmitRemembers(s, arrival, p, block);
      RefuseRemembers(s, p.number.value, arrival, p);
    }
  }

  lemma {:induction false} RunRemembers(st: StreamState, steps: seq<DecodeRuns.Step>)
    requires DecodeRuns.Sound(st) && Remembers(st)
    ensures Remembers(DecodeRuns.Run(st, steps))
    decreases |steps|
  {
    hide DecodeRuns.Sound, Remembers, Examine, Receive;
    if steps != [] {
      match steps[0] {
        case Tick(now, look, block) =>
          ExamineRemembers(st, now, look, block);
          DecodeRuns.ExamineSound(st, now, look, block);
        case Read(packet, block) =>
          ReceiveRemembers(st, packet, block);
          DecodeRuns.ReceiveSound(st, packet, block);
      }
      RunRemembers(DecodeRuns.Apply(st, steps[0]), steps[1..]);
    }
  }

  /** Nothing judges, replaces or outdates the frame between two moments of the history. */
  ghost predicate Untouched(log: seq<Event>, from: nat, to: nat) {
    forall m :: from < m < to && m < |log| ==> !log[m].Concealed? && !log[m].Judged? && !log[m].GapClosed?
  }

  lemma {:induction false} AwaitedWasConcealed(log: seq<Event>) returns (i: nat, q: nat)
    requires Awaiting(log).Some? && Orderly(log)
    ensures i < |log| && log[i] == Concealed(Awaiting(log).value.slot) && Untouched(log, i, |log|)
    ensures q < i && log[q].Pushed? && log[q].kind == AtDeadline && log[q] == Awaiting(log).value.push
    ensures forall m :: q < m < i ==> !log[m].Pushed?
  {
    var n := |log| - 1;
    if log[n].Concealed? {
      i := n;
      assert InOrder(log[..n], log[n]);
      q := Histories.LastPush(log[..n]).value;
      Histories.NoneAfterTheLast(log[..n]);
      assert forall m :: 0 <= m < n ==> log[..n][m] == log[m];
    } else {
      OrderlyBefore(log, n);
      i, q := AwaitedWasConcealed(log[..n]);
      assert forall m :: 0 <= m < n ==> log[..n][m] == log[m];
    }
  }

  lemma {:induction false} OrderlyBefore(log: seq<Event>, n: nat)
    requires Orderly(log) && n <= |log|
    ensures Orderly(log[..n])
  {
    forall k | 0 <= k < n
      ensures InOrder(log[..n][..k], log[..n][k])
    {
      assert log[..n][..k] == log[..k];
      assert InOrder(log[..k], log[k]);
    }
  }

  /** Over every run, each judgement is of the frame invented last at its deadline, and is made by the
      packet of the very slot it took, on the buffer that frame was pushed into; no packet was accepted
      and nothing judged it in between, so it is judged once at most. */
  lemma {:induction false} FrameIsJudgedByItsPacket(epoch: nat, steps: seq<DecodeRuns.Step>, k: nat) returns (i: nat, q: nat)
    requires k < |DecodeRuns.Run(Fresh(epoch), steps).log| && DecodeRuns.Run(Fresh(epoch), steps).log[k].Judged?
    ensures
      var log := DecodeRuns.Run(Fresh(epoch), steps).log;
      && q < i < k && log[i] == Concealed(log[k].slot) && Untouched(log, i, k)
      && log[q].Pushed? && log[q].kind == AtDeadline && (forall m :: q < m < i ==> !log[m].Pushed?)
      && JudgedOn(log[q], log[k])
  {
    hide DecodeRuns.Run, DecodeRuns.Sound, JudgedOn;
    FreshRemembers(epoch);
    RunRemembers(Fresh(epoch), steps);
    var log := DecodeRuns.Run(Fresh(epoch), steps).log;
    assert InOrder(log[..k], log[k]);
    OrderlyBefore(log, k);
    i, q := AwaitedWasConcealed(log[..k]);
    assert forall m :: 0 <= m < k ==> log[..k][m] == log[m];
  }

  lemma {:induction false} FreshRemembers(epoch: nat)
    ensures DecodeRuns.Sound(Fresh(epoch)) && Remembers(Fresh(epoch))
  {
    DecodeRuns.FreshSound(epoch);
  }

  /** Over every run the premature frames published are the judgements with a margin: as many, of that
      sum and of that largest one. */
  lemma {:induction false} MarginsAddUp(epoch: nat, steps: seq<DecodeRuns.Step>)
    ensures PrematureTold(DecodeRuns.Run(Fresh(epoch), steps).log, DecodeRuns.Run(Fresh(epoch), steps).premature)
  {
    hide DecodeRuns.Run, DecodeRuns.Sound, PrematureTold;
    FreshRemembers(epoch);
    RunRemembers(Fresh(epoch), steps);
  }
}
