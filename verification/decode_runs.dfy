/** What every run of one stream keeps: the shared invention budget, the discipline of the
    deadline, and the accounts of holes and concealments. */
module DecodeRuns {
  import opened Options
  import opened SeqTracking
  import opened Conceal
  import opened Decoding
  import Holes

  datatype Step =
    | Tick(now: Time, look: Decoding.Look, block: Measure)
    | Read(packet: Packet, block: Measure)

  function Apply(st: StreamState, step: Step): StreamState {
    match step
    case Tick(now, look, block) => Examine(st, now, look, block)
    case Read(packet, block) => Receive(st, packet, block)
  }

  function Run(st: StreamState, steps: seq<Step>): StreamState
    decreases |steps|
  {
    if steps == [] then st else Run(Apply(st, steps[0]), steps[1..])
  }

  lemma {:induction false} OneMoreStep(st: StreamState, steps: seq<Step>, step: Step)
    ensures Run(st, steps + [step]) == Apply(Run(st, steps), step)
    decreases |steps|
  {
    hide Apply;
    if steps == [] {
      assert ([] + [step])[1..] == [];
    } else {
      assert (steps + [step])[1..] == steps[1..] + [step];
      OneMoreStep(Apply(st, steps[0]), steps[1..], step);
    }
  }

  // ------------------------------------------------------------------ reading the history

  /** The mark of the last push. */
  function MarkAfter(log: seq<Event>): Option<PushMark> {
    if log == [] then None else
    var before := MarkAfter(log[..|log| - 1]);
    match log[|log| - 1]
    case Pushed(_, at, report, arrived, _) => Some(MarkOf(before, at, report, arrived))
    case _ => before
  }

  /** The holes the pushes reported, in order, each with the mark of the push before it. */
  function HolesPushed(log: seq<Event>): seq<PendingHole> {
    if log == [] then [] else
    var before := HolesPushed(log[..|log| - 1]);
    match log[|log| - 1]
    case Pushed(_, _, report, _, _) =>
      if report.hole.Some? then before + [PendingHole(report.hole.value, MarkAfter(log[..|log| - 1]))] else before
    case _ => before
  }

  /** The holes that were given a cause, in order. */
  function HolesClassified(log: seq<Event>): seq<PendingHole> {
    if log == [] then [] else
    var before := HolesClassified(log[..|log| - 1]);
    match log[|log| - 1]
    case Classified(hole, base, _) => before + [PendingHole(hole, base)]
    case _ => before
  }

  function Count(log: seq<Event>, p: Event -> bool): nat {
    if log == [] then 0 else Count(log[..|log| - 1], p) + if p(log[|log| - 1]) then 1 else 0
  }

  function HasCause(cause: Holes.Cause): Event -> bool {
    (e: Event) => e.Classified? && e.cause == cause
  }

  function PushedAs(kind: PushKind): Event -> bool {
    (e: Event) => e.Pushed? && e.kind == kind
  }

  function IsJudged(): Event -> bool {
    (e: Event) => e.Judged?
  }

  predicate Invented(e: Event) {
    e.Pushed? && e.kind != Decoded
  }

  /** Frames invented since the last accepted packet took its place. */
  function InventedSinceGap(log: seq<Event>): nat {
    if log == [] then 0 else
    var last := log[|log| - 1];
    if last.GapClosed? then 0
    else InventedSinceGap(log[..|log| - 1]) + if Invented(last) then 1 else 0
  }

  ghost predicate WithinBudget(log: seq<Event>) {
    forall k :: 0 <= k <= |log| ==> InventedSinceGap(log[..k]) <= MAX_CONSECUTIVE
  }

  /** What the budget and the frame counters read in the history. */
  datatype Tally = Tally(sinceGap: nat, atDeadline: nat, onArrival: nat, judged: nat)

  function TallyOf(log: seq<Event>): Tally {
    Tally(InventedSinceGap(log), Count(log, PushedAs(AtDeadline)), Count(log, PushedAs(OnArrival)), Count(log, IsJudged()))
  }

  function CountsOf(log: seq<Event>, held: nat): HoleCounts {
    HoleCounts(Count(log, HasCause(Holes.Arrival)), Count(log, HasCause(Holes.Reception)),
               Count(log, HasCause(Holes.Decode)), Count(log, HasCause(Holes.Consumption)),
               Count(log, HasCause(Holes.Sequence)), Count(log, HasCause(Holes.Unclassified)), held)
  }

  function Pending(st: StreamState): seq<PendingHole> {
    if st.pendingHole.Some? then [st.pendingHole.value] else []
  }

  // ------------------------------------------------------------------ the invariant

  /** Every hole a push reported is classified, or is the one still pending, in the order in
      which they occurred and each against the push that preceded it. */
  ghost predicate HolesAccounted(st: StreamState) {
    && st.lastPush == MarkAfter(st.log)
    && HolesClassified(st.log) + Pending(st) == HolesPushed(st.log)
    && st.holes == CountsOf(st.log, st.holes.afterBufferHolds)
    && st.holes.Total() == st.holesReported == |HolesClassified(st.log)|
    && st.holes.afterBufferHolds <= st.holesReported
  }

  ghost predicate FramesAccounted(st: StreamState) {
    && st.underrunFrames == Count(st.log, PushedAs(AtDeadline))
    && st.concealedFrames == Count(st.log, PushedAs(OnArrival))
    && st.premature.frames <= Count(st.log, IsJudged())
    && Count(st.log, IsJudged()) + (if st.lastConceal.Some? then 1 else 0) <= st.underrunFrames
    && JudgedReplaced(st.log)
  }

  /** Only a packet whose place was filled at its deadline is ever judged. */
  ghost predicate JudgedReplaced(log: seq<Event>) {
    forall k :: 0 <= k < |log| && log[k].Judged? ==> log[k].replaced
  }

  ghost predicate BudgetKept(st: StreamState) {
    && InventedSinceGap(st.log) <= st.consecutive <= MAX_CONSECUTIVE
    && WithinBudget(st.log)
  }

  ghost predicate DeadlineSound(st: StreamState) {
    && (st.nextCheck.Some? ==> st.nextDeadline.Some? && st.nextDeadline.value <= st.nextCheck.value)
    && (st.nextDeadline.Some? ==> st.track.highest.Some?)
    && (st.lastConceal.Some? ==> st.track.highest == Some(st.lastConceal.value.slot) && 0 in st.track.concealed)
  }

  ghost predicate Sound(st: StreamState) {
    HolesAccounted(st) && FramesAccounted(st) && BudgetKept(st) && DeadlineSound(st)
  }

  // ------------------------------------------------------------------ one more event

  lemma {:induction false} OneMore(log: seq<Event>, e: Event)
    ensures
      var log' := log + [e];
      && MarkAfter(log') == (if e.Pushed? then Some(MarkOf(MarkAfter(log), e.at, e.report, e.arrived)) else MarkAfter(log))
      && HolesPushed(log') == (if e.Pushed? && e.report.hole.Some?
                               then HolesPushed(log) + [PendingHole(e.report.hole.value, MarkAfter(log))]
                               else HolesPushed(log))
      && HolesClassified(log') == (if e.Classified? then HolesClassified(log) + [PendingHole(e.hole, e.base)]
                                   else HolesClassified(log))
      && InventedSinceGap(log') == (if e.GapClosed? then 0 else InventedSinceGap(log) + if Invented(e) then 1 else 0)
  {
    assert (log + [e])[..|log|] == log;
  }

  lemma {:induction false} OneMoreCount(log: seq<Event>, e: Event, p: Event -> bool)
    ensures Count(log + [e], p) == Count(log, p) + if p(e) then 1 else 0
  {
    assert (log + [e])[..|log|] == log;
  }

  lemma {:induction false} OneMoreCounts(log: seq<Event>, e: Event, held: nat)
    ensures
      CountsOf(log + [e], held) ==
      if e.Classified? then CountHole(CountsOf(log, held), e.cause, false) else CountsOf(log, held)
    ensures Count(log + [e], PushedAs(AtDeadline)) == Count(log, PushedAs(AtDeadline)) + if e.Pushed? && e.kind == AtDeadline then 1 else 0
    ensures Count(log + [e], PushedAs(OnArrival)) == Count(log, PushedAs(OnArrival)) + if e.Pushed? && e.kind == OnArrival then 1 else 0
    ensures Count(log + [e], IsJudged()) == Count(log, IsJudged()) + if e.Judged? then 1 else 0
  {
    OneMoreCount(log, e, HasCause(Holes.Arrival));
    OneMoreCount(log, e, HasCause(Holes.Reception));
    OneMoreCount(log, e, HasCause(Holes.Decode));
    OneMoreCount(log, e, HasCause(Holes.Consumption));
    OneMoreCount(log, e, HasCause(Holes.Sequence));
    OneMoreCount(log, e, HasCause(Holes.Unclassified));
    OneMoreCount(log, e, PushedAs(AtDeadline));
    OneMoreCount(log, e, PushedAs(OnArrival));
    OneMoreCount(log, e, IsJudged());
  }

  lemma {:induction false} OneMoreBudget(log: seq<Event>, e: Event)
    requires WithinBudget(log) && InventedSinceGap(log + [e]) <= MAX_CONSECUTIVE
    ensures WithinBudget(log + [e])
  {
    var log' := log + [e];
    forall k | 0 <= k <= |log'|
      ensures InventedSinceGap(log'[..k]) <= MAX_CONSECUTIVE
    {
      if k <= |log| {
        assert log'[..k] == log[..k];
      } else {
        assert log'[..k] == log';
      }
    }
  }

  // ------------------------------------------------------------------ holes

  /** The accounts in the middle of a push: the push is in the history, its mark is not kept yet
      and `due` are the holes it owes a cause. */
  ghost predicate HolesOwing(st: StreamState, due: seq<PendingHole>) {
    && HolesClassified(st.log) + Pending(st) + due == HolesPushed(st.log)
    && st.holes == CountsOf(st.log, st.holes.afterBufferHolds)
    && st.holes.Total() == st.holesReported == |HolesClassified(st.log)|
    && st.holes.afterBufferHolds <= st.holesReported
  }

  lemma {:induction false} ReportAccounts(st: StreamState, h: Hole, base: Option<PushMark>, arrived: Option<Arrived>,
                                          block: Measure, due: seq<PendingHole>)
    requires st.pendingHole.None? && HolesOwing(st, [PendingHole(h, base)] + due)
    ensures HolesOwing(ReportHole(st, h, base, arrived, block), due)
  {
    var cause := CauseOf(st.lastDiscard, h, base, arrived, block);
    var e := Classified(h, base, cause);
    OneMore(st.log, e);
    OneMoreCounts(st.log, e, st.holes.afterBufferHolds);
    var s := ReportHole(st, h, base, arrived, block);
    assert s.holes == CountsOf(s.log, s.holes.afterBufferHolds);
    assert HolesClassified(s.log) + [] + due == HolesClassified(st.log) + [] + ([PendingHole(h, base)] + due);
  }

  lemma {:induction false} SettleAccounts(st: StreamState, arrived: Option<Arrived>, block: Measure, due: seq<PendingHole>)
    requires HolesOwing(st, due)
    ensures HolesOwing(SettlePending(st, arrived, block), due)
    ensures SettlePending(st, arrived, block).pendingHole.None?
  {
    if st.pendingHole.Some? {
      var p := st.pendingHole.value;
      assert HolesClassified(st.log) + [p] + due == HolesClassified(st.log) + [] + ([p] + due);
      assert PendingHole(p.hole, p.base) == p;
      ReportAccounts(st.(pendingHole := None), p.hole, p.base, arrived, block, due);
    }
  }

  /** A push keeps the accounts, and no hole is left pending after the push of a real packet. */
  lemma {:induction false} PushAccounts(st: StreamState, kind: PushKind, report: PushReport, now: Time,
                                        arrived: Option<Arrived>, block: Measure)
    requires HolesAccounted(st)
    ensures HolesAccounted(NotePush(st, kind, report, now, arrived, block))
    ensures arrived.Some? ==> NotePush(st, kind, report, now, arrived, block).pendingHole.None?
  {
    var e := Pushed(kind, now, report, arrived, block);
    OneMore(st.log, e);
    OneMoreCounts(st.log, e, st.holes.afterBufferHolds);
    var s0 := st.(log := st.log + [e]);
    var due := if report.hole.Some? then [PendingHole(report.hole.value, st.lastPush)] else [];
    assert HolesOwing(s0, due) by {
      assert HolesClassified(st.log) + Pending(st) + due == HolesPushed(s0.log);
    }
    PushSettles(st, s0, kind, report, now, arrived, block, due);
  }

  lemma {:induction false} PushSettles(st: StreamState, s0: StreamState, kind: PushKind, report: PushReport, now: Time,
                                       arrived: Option<Arrived>, block: Measure, due: seq<PendingHole>)
    requires s0 == st.(log := st.log + [Pushed(kind, now, report, arrived, block)])
    requires due == if report.hole.Some? then [PendingHole(report.hole.value, st.lastPush)] else []
    requires HolesOwing(s0, due)
    requires MarkAfter(s0.log) == Some(MarkOf(st.lastPush, now, report, arrived))
    ensures HolesAccounted(NotePush(st, kind, report, now, arrived, block))
    ensures arrived.Some? ==> NotePush(st, kind, report, now, arrived, block).pendingHole.None?
  {
    hide HolesClassified, HolesPushed, MarkAfter, Count, CauseOf, CountsOf;
    var s1 := if arrived.Some? then SettlePending(s0, arrived, block) else s0;
    SettleAccounts(s0, arrived, block, due);
    SettleMarks(s0, arrived, block);
    var s2 := if report.hole.Some? then NoteHole(s1, report.hole.value, arrived, block) else s1;
    if report.hole.Some? {
      var h := report.hole.value;
      if arrived.Some? {
        assert due == [PendingHole(h, st.lastPush)] + [];
        ReportAccounts(s1, h, st.lastPush, arrived, block, []);
        OneMore(s1.log, Classified(h, st.lastPush, CauseOf(s1.lastDiscard, h, st.lastPush, arrived, block)));
      } else {
        SettleAccounts(s1, None, block, due);
        SettleMarks(s1, None, block);
      }
    }
    assert HolesClassified(s2.log) + Pending(s2) + [] == HolesClassified(s2.log) + Pending(s2);
  }

  lemma {:induction false} SettleMarks(st: StreamState, arrived: Option<Arrived>, block: Measure)
    ensures MarkAfter(SettlePending(st, arrived, block).log) == MarkAfter(st.log)
    ensures SettlePending(st, arrived, block).lastPush == st.lastPush
  {
    if st.pendingHole.Some? {
      var p := st.pendingHole.value;
      OneMore(st.log, Classified(p.hole, p.base, CauseOf(st.lastDiscard, p.hole, p.base, arrived, block)));
    }
  }

  // ------------------------------------------------------------------ frames

  lemma {:induction false} OneMoreTally(log: seq<Event>, e: Event)
    requires WithinBudget(log) && JudgedReplaced(log)
    requires e.Judged? ==> e.replaced
    requires Invented(e) ==> InventedSinceGap(log) < MAX_CONSECUTIVE
    ensures
      var t := TallyOf(log);
      TallyOf(log + [e]) == Tally(
        if e.GapClosed? then 0 else t.sinceGap + if Invented(e) then 1 else 0,
        t.atDeadline + if e.Pushed? && e.kind == AtDeadline then 1 else 0,
        t.onArrival + if e.Pushed? && e.kind == OnArrival then 1 else 0,
        t.judged + if e.Judged? then 1 else 0)
    ensures WithinBudget(log + [e]) && JudgedReplaced(log + [e])
  {
    OneMore(log, e);
    OneMoreCounts(log, e, 0);
    assert log[..|log|] == log;
    assert InventedSinceGap(log[..|log|]) <= MAX_CONSECUTIVE;
    OneMoreBudget(log, e);
  }

  lemma {:induction false} SettleTally(st: StreamState, arrived: Option<Arrived>, block: Measure)
    requires WithinBudget(st.log) && JudgedReplaced(st.log)
    ensures
      var s := SettlePending(st, arrived, block);
      TallyOf(s.log) == TallyOf(st.log) && WithinBudget(s.log) && JudgedReplaced(s.log)
  {
    if st.pendingHole.Some? {
      var p := st.pendingHole.value;
      OneMoreTally(st.log, Classified(p.hole, p.base, CauseOf(st.lastDiscard, p.hole, p.base, arrived, block)));
    }
  }

  lemma {:induction false} NoteHoleTally(st: StreamState, h: Hole, arrived: Option<Arrived>, block: Measure)
    requires WithinBudget(st.log) && JudgedReplaced(st.log)
    ensures
      var s := NoteHole(st, h, arrived, block);
      TallyOf(s.log) == TallyOf(st.log) && WithinBudget(s.log) && JudgedReplaced(s.log)
  {
    if arrived.Some? {
      OneMoreTally(st.log, Classified(h, st.lastPush, CauseOf(st.lastDiscard, h, st.lastPush, arrived, block)));
    } else {
      SettleTally(st, None, block);
    }
  }

  /** Besides its own frame, a push changes nothing the budget and the frame counters read. */
  lemma {:induction false} PushTally(st: StreamState, kind: PushKind, report: PushReport, now: Time,
                                     arrived: Option<Arrived>, block: Measure)
    requires WithinBudget(st.log) && JudgedReplaced(st.log)
    requires kind != Decoded ==> InventedSinceGap(st.log) < MAX_CONSECUTIVE
    ensures
      var s := NotePush(st, kind, report, now, arrived, block);
      var t := TallyOf(st.log);
      && TallyOf(s.log) == Tally(
           t.sinceGap + (if kind == Decoded then 0 else 1),
           t.atDeadline + (if kind == AtDeadline then 1 else 0),
           t.onArrival + (if kind == OnArrival then 1 else 0),
           t.judged)
      && WithinBudget(s.log) && JudgedReplaced(s.log)
  {
    hide WithinBudget, JudgedReplaced, SettlePending, NoteHole, InventedSinceGap, Count;
    OneMoreTally(st.log, Pushed(kind, now, report, arrived, block));
    var s0 := st.(log := st.log + [Pushed(kind, now, report, arrived, block)]);
    SettleTally(s0, arrived, block);
    var s1 := if arrived.Some? then SettlePending(s0, arrived, block) else s0;
    if report.hole.Some? {
      NoteHoleTally(s1, report.hole.value, arrived, block);
    }
  }

  lemma {:induction false} PushFrame(st: StreamState, kind: PushKind, report: PushReport, now: Time,
                                     arrived: Option<Arrived>, block: Measure)
    ensures
      var s := NotePush(st, kind, report, now, arrived, block);
      s == st.(log := s.log, holes := s.holes, pendingHole := s.pendingHole, holesReported := s.holesReported,
               lastPush := s.lastPush)
  {
  }

  // ------------------------------------------------------------------ every step keeps the invariant

  lemma {:induction false} FreshSound(epoch: nat)
    ensures Sound(Fresh(epoch))
  {
    var st := Fresh(epoch);
    assert HolesAccounted(st) by {
      assert HolesClassified([]) + [] == HolesPushed([]);
    }
    assert FramesAccounted(st);
    assert WithinBudget(st.log);
  }

  /** States that differ in nothing the accounts read. */
  ghost predicate SameAccounts(s: StreamState, st: StreamState) {
    && s.log == st.log && s.lastPush == st.lastPush && s.pendingHole == st.pendingHole
    && s.holes == st.holes && s.holesReported == st.holesReported
    && s.underrunFrames == st.underrunFrames && s.concealedFrames == st.concealedFrames
    && s.premature == st.premature
  }

  lemma {:induction false} AccountsCarry(s: StreamState, st: StreamState)
    requires SameAccounts(s, st) && HolesAccounted(st) && FramesAccounted(st)
    requires s.lastConceal.Some? ==> st.lastConceal.Some?
    ensures HolesAccounted(s) && FramesAccounted(s)
  {
  }

  /** Events no account reads. */
  predicate Neutral(e: Event) {
    e.Concealed? || e.Discarded? || e.Waited?
  }

  lemma {:induction false} NeutralKeeps(st: StreamState, e: Event, s: StreamState)
    requires Neutral(e) && HolesAccounted(st) && WithinBudget(st.log) && JudgedReplaced(st.log)
    requires s.log == st.log + [e]
    requires s.lastPush == st.lastPush && s.pendingHole == st.pendingHole
    requires s.holes == st.holes && s.holesReported == st.holesReported
    ensures HolesAccounted(s) && TallyOf(s.log) == TallyOf(st.log) && WithinBudget(s.log) && JudgedReplaced(s.log)
  {
    OneMore(st.log, e);
    OneMoreCounts(st.log, e, st.holes.afterBufferHolds);
    OneMoreTally(st.log, e);
  }

  lemma {:induction false} CheckIsLater(why: Wait, late: real, now: Time, look: Decoding.Look, block: Measure)
    ensures
      var check := NextCheck(why, late, now, look, block);
      check.Some? ==> check.value >= now
  {
  }

  lemma {:induction false} HoldSound(st: StreamState, why: Wait, now: Time, look: Decoding.Look, block: Measure)
    requires Sound(st) && ExaminedAt(st, now)
    ensures Sound(HoldOn(st, why, SaturatingSince(now, st.nextDeadline.value), now, look, block))
  {
    hide HolesAccounted, WithinBudget, JudgedReplaced, InventedSinceGap, Count, NextCheck, CountWait;
    CheckIsLater(why, SaturatingSince(now, st.nextDeadline.value), now, look, block);
    NeutralKeeps(st, Waited(why, now), HoldOn(st, why, SaturatingSince(now, st.nextDeadline.value), now, look, block));
  }

  lemma {:induction false} InventSound(st: StreamState, now: Time, look: Decoding.Look, block: Measure, deadline: Time)
    requires Sound(st) && st.consecutive < MAX_CONSECUTIVE && st.track.highest.Some?
    ensures Sound(InventAtDeadline(st, now, look, block)
                  .(consecutive := st.consecutive + 1, nextDeadline := Some(deadline), nextCheck := None))
  {
    hide NotePush, WithinBudget, JudgedReplaced, InventedSinceGap, Count, HolesClassified, HolesPushed, MarkAfter;
    var s := InventAtDeadline(st, now, look, block);
    var s' := s.(consecutive := st.consecutive + 1, nextDeadline := Some(deadline), nextCheck := None);
    if look.lost.Some? {
      PushAccounts(st, AtDeadline, look.lost.value, now, None, block);
      PushTally(st, AtDeadline, look.lost.value, now, None, block);
      PushFrame(st, AtDeadline, look.lost.value, now, None, block);
      NeutralKeeps(NotePush(st, AtDeadline, look.lost.value, now, None, block), Concealed(s.track.highest.value), s');
    } else {
      AccountsCarry(s', st);
    }
  }

  lemma {:induction false} ExamineSound(st: StreamState, now: Time, look: Decoding.Look, block: Measure)
    requires Sound(st)
    ensures Sound(Examine(st, now, look, block))
  {
    if ExaminedAt(st, now) {
      var late := SaturatingSince(now, st.nextDeadline.value);
      var decision := DecisionFor(late, st.consecutive, look, block);
      match decision {
        case Hold(why) => HoldSound(st, why, now, look, block);
        case FadeToSilence => AccountsCarry(Examine(st, now, look, block), st);
        case Frame => InventSound(st, now, look, block, NextDeadline(st.nextDeadline.value, now));
      }
    }
  }

  /** The state while the frames revealed by an arrival are being invented: `left` remain of the
      budget the deadline shares with the arrival. */
  ghost predicate Filling(st: StreamState, left: nat) {
    && HolesAccounted(st)
    && InventedSinceGap(st.log) + left <= MAX_CONSECUTIVE
    && WithinBudget(st.log)
    && FramesAccounted(st)
    && st.consecutive == 0 && st.lastConceal.None? && st.nextCheck.None? && st.track.highest.Some?
  }

  lemma {:induction false} FillSound(st: StreamState, p: Packet, n: nat, left: nat, arrived: Arrived, block: Measure)
    requires Filling(st, n + left)
    ensures Filling(FillOnArrival(st, p, n, arrived, block), left)
    ensures FillOnArrival(st, p, n, arrived, block).pendingHole.Some? ==>
              FillOnArrival(st, p, n, arrived, block).pendingHole == st.pendingHole
    decreases n
  {
    if n > 0 {
      FillSound(st, p, n - 1, left + 1, arrived, block);
      OneSound(FillOnArrival(st, p, n - 1, arrived, block), AttemptAt(p, n - 1), left, arrived, block);
    }
  }

  lemma {:induction false} OneSound(st: StreamState, attempt: Option<Attempt>, left: nat, arrived: Arrived, block: Measure)
    requires Filling(st, left + 1)
    ensures Filling(OneOnArrival(st, attempt, arrived, block), left)
    ensures OneOnArrival(st, attempt, arrived, block).pendingHole.Some? ==>
              OneOnArrival(st, attempt, arrived, block).pendingHole == st.pendingHole
  {
    hide NotePush, WithinBudget, JudgedReplaced, InventedSinceGap, Count, HolesClassified, HolesPushed, MarkAfter;
    if attempt.Some? && attempt.value.report.Some? {
      PushAccounts(st, OnArrival, attempt.value.report.value, attempt.value.at, Some(arrived), block);
      PushTally(st, OnArrival, attempt.value.report.value, attempt.value.at, Some(arrived), block);
      PushFrame(st, OnArrival, attempt.value.report.value, attempt.value.at, Some(arrived), block);
    }
  }

  lemma {:induction false} PlaySound(st: StreamState, p: Packet, arrived: Arrived, block: Measure)
    requires Filling(st, 0)
    ensures Sound(Play(CloseGap(st), p, arrived, block))
  {
    hide NotePush, WithinBudget, JudgedReplaced, InventedSinceGap, Count, HolesClassified, HolesPushed, MarkAfter;
    var s := CloseGap(st);
    OneMoreTally(st.log, GapClosed);
    OneMore(st.log, GapClosed);
    OneMoreCounts(st.log, GapClosed, st.holes.afterBufferHolds);
    if p.decoded.Some? && p.decoded.value.report.Some? {
      PushAccounts(s, Decoded, p.decoded.value.report.value, p.decoded.value.at, Some(arrived), block);
      PushTally(s, Decoded, p.decoded.value.report.value, p.decoded.value.at, Some(arrived), block);
      PushFrame(s, Decoded, p.decoded.value.report.value, p.decoded.value.at, Some(arrived), block);
    }
  }

  function Tracked(st: StreamState, number: Seq16): StreamState {
    st.(packets := st.packets + 1, track := OnPacket(st.track, number).0)
  }

  lemma {:induction false} LateAtTheHead(t: Track, number: Seq16)
    requires t.highest.Some? && OnPacket(t, number).1.Late?
    ensures
      var (t', arrival) := OnPacket(t, number);
      && t'.highest == t.highest
      && (number == t.highest.value ==> arrival.replaced)
      && (number != t.highest.value && 0 in t.concealed ==> 0 in t'.concealed)
  {
  }

  /** A judged packet stands at the head of the numbering, so the tracker found its place taken
      by an invented frame. */
  lemma {:induction false} JudgeSound(st: StreamState, number: Seq16, p: Packet)
    requires Sound(st)
    requires st.track.highest.Some? && OnPacket(st.track, number).1.Late?
    ensures
      var arrival := OnPacket(st.track, number).1;
      Sound(Judge(Discard(Tracked(st, number), p.recv), number, arrival.replaced, p))
  {
    LateAtTheHead(st.track, number);
    var s := Discard(Tracked(st, number), p.recv);
    DiscardSound(st, s, p.recv);
    if st.lastConceal.Some? && st.lastConceal.value.slot == number {
      JudgedSound(s, number, p);
    }
  }

  /** Refusing a packet touches the tracker and notes the instant. */
  lemma {:induction false} DiscardSound(st: StreamState, s: StreamState, recv: Time)
    requires Sound(st)
    requires s == Discard(st.(track := s.track, packets := s.packets), recv)
    ensures HolesAccounted(s) && FramesAccounted(s) && BudgetKept(s)
  {
    hide HolesAccounted, WithinBudget, JudgedReplaced, InventedSinceGap, Count;
    NeutralKeeps(st, Discarded(recv), s);
  }

  lemma {:induction false} JudgedSound(s: StreamState, number: Seq16, p: Packet)
    requires HolesAccounted(s) && FramesAccounted(s) && BudgetKept(s)
    requires s.nextCheck.Some? ==> s.nextDeadline.Some? && s.nextDeadline.value <= s.nextCheck.value
    requires s.track.highest.Some?
    requires s.lastConceal.Some? && s.lastConceal.value.slot == number
    ensures Sound(Judge(s, number, true, p))
  {
    var e := Judgement(number, true, p, MarginOf(s.lastConceal.value, p));
    OneMoreTally(s.log, e);
    OneMore(s.log, e);
    OneMoreCounts(s.log, e, s.holes.afterBufferHolds);
    assert HolesAccounted(Judge(s, number, true, p));
  }

  lemma {:induction false} AcceptSound(st: StreamState, number: Seq16, recv: Time)
    requires Sound(st) && OnPacket(st.track, number).1.Accepted()
    ensures
      var arrival := OnPacket(st.track, number).1;
      Filling(Accept(Tracked(st, number), recv),
              if arrival.Next? then ArrivalBudget(arrival.missing, st.consecutive) else 0)
  {
    AccountsCarry(Accept(Tracked(st, number), recv), st);
  }

  lemma {:induction false} AdmitSound(s: StreamState, arrival: Arrival, p: Packet, block: Measure)
    requires Filling(Accept(s, p.recv), if arrival.Next? then ArrivalBudget(arrival.missing, s.consecutive) else 0)
    ensures Sound(Admit(s, arrival, p, block))
  {
    var arrived := Arrived(p.recv, p.inSystem);
    var n := if arrival.Next? then ArrivalBudget(arrival.missing, s.consecutive) else 0;
    FillSound(Accept(s, p.recv), p, n, 0, arrived, block);
    PlaySound(FillOnArrival(Accept(s, p.recv), p, n, arrived, block), p, arrived, block);
  }

  lemma {:induction false} RefuseSound(st: StreamState, number: Seq16, p: Packet)
    requires Sound(st) && !OnPacket(st.track, number).1.Accepted()
    ensures Sound(Refuse(Tracked(st, number), number, OnPacket(st.track, number).1, p))
  {
    if OnPacket(st.track, number).1.Late? {
      JudgeSound(st, number, p);
    } else {
      DiscardSound(st, Refuse(Tracked(st, number), number, OnPacket(st.track, number).1, p), p.recv);
    }
  }

  lemma {:induction false} ReceiveSound(st: StreamState, p: Packet, block: Measure)
    requires Sound(st)
    ensures Sound(Receive(st, p, block))
  {
    if p.number.None? {
      AccountsCarry(Receive(st, p, block), st);
    } else {
      var number := p.number.value;
      var arrival := OnPacket(st.track, number).1;
      if arrival.Accepted() {
        AcceptSound(st, number, p.recv);
        AdmitSound(Tracked(st, number), arrival, p, block);
      } else {
        RefuseSound(st, number, p);
      }
    }
  }

  /** Every run of a stream, whatever the packets, the examinations and the failures of the codec. */
  lemma {:induction false} RunSound(st: StreamState, steps: seq<Step>)
    requires Sound(st)
    ensures Sound(Run(st, steps))
    decreases |steps|
  {
    if steps != [] {
      match steps[0] {
        case Tick(now, look, block) => ExamineSound(st, now, look, block);
        case Read(packet, block) => ReceiveSound(st, packet, block);
      }
      RunSound(Apply(st, steps[0]), steps[1..]);
    }
  }

  // ------------------------------------------------------------------ the shared budget

  function IsInvented(): Event -> bool {
    (e: Event) => Invented(e)
  }

  ghost predicate WithoutGap(log: seq<Event>) {
    forall k :: 0 <= k < |log| ==> !log[k].GapClosed?
  }

  lemma {:induction false} SegmentBudget(log: seq<Event>, i: nat, j: nat)
    requires i <= j <= |log|
    requires WithoutGap(log[i..j])
    ensures Count(log[i..j], IsInvented()) <= InventedSinceGap(log[..j])
    decreases j - i
  {
    if i < j {
      assert log[i..j][..j - i - 1] == log[i..j - 1];
      assert forall k :: 0 <= k < j - i - 1 ==> log[i..j - 1][k] == log[i..j][k];
      assert log[..j][..j - 1] == log[..j - 1];
      assert !log[i..j][j - 1 - i].GapClosed?;
      SegmentBudget(log, i, j - 1);
    }
  }

  /** Over every run, between two accepted packets, the frames invented at the deadline and those
      the arrival makes invent are together at most `MAX_CONSECUTIVE`. */
  lemma {:induction false} SharedBudget(epoch: nat, steps: seq<Step>, i: nat, j: nat)
    requires i <= j <= |Run(Fresh(epoch), steps).log|
    requires WithoutGap(Run(Fresh(epoch), steps).log[i..j])
    ensures Count(Run(Fresh(epoch), steps).log[i..j], IsInvented()) <= MAX_CONSECUTIVE
  {
    hide Sound, Run, Count, WithoutGap;
    FreshSound(epoch);
    RunSound(Fresh(epoch), steps);
    SoundBudget(Run(Fresh(epoch), steps), i, j);
  }

  lemma {:induction false} SoundBudget(st: StreamState, i: nat, j: nat)
    requires Sound(st) && i <= j <= |st.log|
    requires WithoutGap(st.log[i..j])
    ensures Count(st.log[i..j], IsInvented()) <= MAX_CONSECUTIVE
  {
    SegmentBudget(st.log, i, j);
    assert WithinBudget(st.log);
  }

  // ------------------------------------------------------------------ the accounts

  /** Over every run: the holes the pushes reported are those that were given a cause, in the same
      order and each against the push before it, with at most one more that waits; and the six
      counters count them. */
  lemma {:induction false} HoleAccount(epoch: nat, steps: seq<Step>)
    ensures
      var st := Run(Fresh(epoch), steps);
      && HolesPushed(st.log) == HolesClassified(st.log) + Pending(st)
      && |HolesPushed(st.log)| == st.holes.Total() + |Pending(st)|
      && st.holes == CountsOf(st.log, st.holes.afterBufferHolds)
      && st.holes.afterBufferHolds <= st.holes.Total()
  {
    FreshSound(epoch);
    RunSound(Fresh(epoch), steps);
  }

  predicate Sounds(p: Packet) {
    p.decoded.Some? && p.decoded.value.report.Some?
  }

  lemma {:induction false} PlaySettles(st: StreamState, p: Packet, arrived: Arrived, block: Measure)
    requires Filling(st, 0) && Sounds(p)
    ensures Play(CloseGap(st), p, arrived, block).pendingHole.None?
  {
    hide NotePush, WithinBudget, JudgedReplaced, InventedSinceGap, HolesClassified, HolesPushed, MarkAfter;
    OneMore(st.log, GapClosed);
    OneMoreCounts(st.log, GapClosed, st.holes.afterBufferHolds);
    PushAccounts(CloseGap(st), Decoded, p.decoded.value.report.value, p.decoded.value.at, Some(arrived), block);
  }

  predicate Pushes(attempt: Option<Attempt>) {
    attempt.Some? && attempt.value.report.Some?
  }

  /** One of the first `n` frames the arrival reveals is pushed. */
  predicate PushesRevealed(p: Packet, n: nat) {
    n > 0 && (PushesRevealed(p, n - 1) || Pushes(AttemptAt(p, n - 1)))
  }

  lemma {:induction false} OneSettles(st: StreamState, attempt: Option<Attempt>, arrived: Arrived, block: Measure)
    requires HolesAccounted(st)
    ensures OneOnArrival(st, attempt, arrived, block).pendingHole == if Pushes(attempt) then None else st.pendingHole
  {
    hide NotePush, HolesAccounted;
    if Pushes(attempt) {
      PushAccounts(st, OnArrival, attempt.value.report.value, attempt.value.at, Some(arrived), block);
    }
  }

  lemma {:induction false} FillSettles(st: StreamState, p: Packet, n: nat, left: nat, arrived: Arrived, block: Measure)
    requires Filling(st, n + left)
    ensures FillOnArrival(st, p, n, arrived, block).pendingHole == if PushesRevealed(p, n) then None else st.pendingHole
    decreases n
  {
    hide HolesAccounted, FramesAccounted, WithinBudget, OneOnArrival;
    if n > 0 {
      FillSettles(st, p, n - 1, left + 1, arrived, block);
      FillSound(st, p, n - 1, left + 1, arrived, block);
      OneSettles(FillOnArrival(st, p, n - 1, arrived, block), AttemptAt(p, n - 1), arrived, block);
    }
  }

  /** How many frames the arrival of the packet may still make invent. */
  function Revealed(st: StreamState, number: Seq16): nat {
    var arrival := OnPacket(st.track, number).1;
    if arrival.Next? then ArrivalBudget(arrival.missing, st.consecutive) else 0
  }

  /** After an accepted packet a hole waits for its cause exactly when one waited before and nothing of
      the packet could be pushed, neither a frame its arrival reveals nor its own sound; and it is then
      the same hole. */
  lemma {:induction false} NoHoleWaitsAfterItsPacket(epoch: nat, steps: seq<Step>, p: Packet, block: Measure)
    requires Accepts(Run(Fresh(epoch), steps), Read(p, block))
    ensures
      var st := Run(Fresh(epoch), steps);
      Receive(st, p, block).pendingHole ==
      if Sounds(p) || PushesRevealed(p, Revealed(st, p.number.value)) then None else st.pendingHole
  {
    hide Sound, Filling, FillOnArrival, PushesRevealed;
    FreshSound(epoch);
    RunSound(Fresh(epoch), steps);
    var st := Run(Fresh(epoch), steps);
    var number := p.number.value;
    var n := Revealed(st, number);
    var s := Accept(Tracked(st, number), p.recv);
    var arrived := Arrived(p.recv, p.inSystem);
    AcceptSound(st, number, p.recv);
    FillSound(s, p, n, 0, arrived, block);
    FillSettles(s, p, n, 0, arrived, block);
    if Sounds(p) {
      PlaySettles(FillOnArrival(s, p, n, arrived, block), p, arrived, block);
    }
  }

  /** Over every run: each premature frame was judged, each judgement is of a frame invented at its
      deadline, and the one that still awaits its packet is not judged yet. */
  lemma {:induction false} PrematureAccount(epoch: nat, steps: seq<Step>)
    ensures
      var st := Run(Fresh(epoch), steps);
      && st.premature.frames <= Count(st.log, IsJudged())
      && Count(st.log, IsJudged()) + (if st.lastConceal.Some? then 1 else 0) <= Count(st.log, PushedAs(AtDeadline))
      && st.underrunFrames == Count(st.log, PushedAs(AtDeadline))
      && st.concealedFrames == Count(st.log, PushedAs(OnArrival))
      && JudgedReplaced(st.log)
  {
    FreshSound(epoch);
    RunSound(Fresh(epoch), steps);
  }

  // ------------------------------------------------------------------ the deadline

  predicate Accepts(st: StreamState, step: Step) {
    step.Read? && step.packet.number.Some? && OnPacket(st.track, step.packet.number.value).1.Accepted()
  }

  /** No step of the run accepts a packet. */
  predicate Quiet(st: StreamState, steps: seq<Step>)
    decreases |steps|
  {
    steps == [] || (!Accepts(st, steps[0]) && Quiet(Apply(st, steps[0]), steps[1..]))
  }

  function IsPushed(): Event -> bool {
    (e: Event) => e.Pushed?
  }

  lemma {:induction false} FillKeepsDeadline(st: StreamState, p: Packet, n: nat, arrived: Arrived, block: Measure)
    ensures
      var s := FillOnArrival(st, p, n, arrived, block);
      s.nextDeadline == st.nextDeadline && s.nextCheck == st.nextCheck && s.consecutive == st.consecutive
  {
    if n > 0 {
      FillKeepsDeadline(st, p, n - 1, arrived, block);
      var s := FillOnArrival(st, p, n - 1, arrived, block);
      var attempt := AttemptAt(p, n - 1);
      if attempt.Some? && attempt.value.report.Some? {
        PushFrame(s, OnArrival, attempt.value.report.value, attempt.value.at, Some(arrived), block);
      }
    }
  }

  /** An accepted packet re-arms the deadline one frame after it was read. */
  lemma {:induction false} AcceptRearms(st: StreamState, p: Packet, block: Measure)
    requires Accepts(st, Read(p, block))
    ensures
      var s := Receive(st, p, block);
      s.nextDeadline == Some(p.recv + 2.5) && s.nextCheck.None? && s.consecutive == 0
  {
    var number := p.number.value;
    AdmitRearms(Tracked(st, number), OnPacket(st.track, number).1, p, block);
  }

  lemma {:induction false} AdmitRearms(st: StreamState, arrival: Arrival, p: Packet, block: Measure)
    ensures
      var s := Admit(st, arrival, p, block);
      s.nextDeadline == Some(p.recv + FRAME_MS) && s.nextCheck.None? && s.consecutive == 0
  {
    var arrived := Arrived(p.recv, p.inSystem);
    var n := if arrival.Next? then ArrivalBudget(arrival.missing, st.consecutive) else 0;
    FillKeepsDeadline(Accept(st, p.recv), p, n, arrived, block);
    var s := CloseGap(FillOnArrival(Accept(st, p.recv), p, n, arrived, block));
    if p.decoded.Some? && p.decoded.value.report.Some? {
      PushFrame(s, Decoded, p.decoded.value.report.value, p.decoded.value.at, Some(arrived), block);
    }
  }

  lemma {:induction false} RefusalWaits(st: StreamState, p: Packet, block: Measure)
    requires !Accepts(st, Read(p, block))
    ensures
      var s := Receive(st, p, block);
      && s.nextDeadline == st.nextDeadline && s.nextCheck == st.nextCheck && s.consecutive == st.consecutive
      && Count(s.log, IsPushed()) == Count(st.log, IsPushed())
  {
    if p.number.Some? {
      var s := Discard(Tracked(st, p.number.value), p.recv);
      OneMoreCount(st.log, Discarded(p.recv), IsPushed());
      if st.lastConceal.Some? {
        var e := Judgement(p.number.value, OnPacket(st.track, p.number.value).1 == Late(true), p, MarginOf(st.lastConceal.value, p));
        OneMoreCount(s.log, e, IsPushed());
      }
    }
  }

  /** Looking at the deadline leaves it alone, disarms it, or moves it past now with one more
      masking attempt. */
  lemma {:induction false} LookMoves(st: StreamState, now: Time, look: Decoding.Look, block: Measure)
    ensures
      var s := Examine(st, now, look, block);
      || (s.consecutive == st.consecutive && s.nextDeadline == st.nextDeadline)
      || (s.consecutive == st.consecutive && s.nextDeadline.None? && s.nextCheck.None?)
      || (s.consecutive == st.consecutive + 1 <= MAX_CONSECUTIVE && s.nextDeadline.Some? && s.nextDeadline.value > now
          && s.nextCheck.None?)
  {
    if ExaminedAt(st, now) && look.lost.Some? {
      PushFrame(st, AtDeadline, look.lost.value, now, None, block);
    }
  }

  /** Whatever the step, a time to look again never outlives the deadline it was set for. */
  lemma {:induction false} CheckDiesWithItsDeadline(st: StreamState, step: Step)
    ensures Apply(st, step).nextDeadline != st.nextDeadline ==> Apply(st, step).nextCheck.None?
  {
    hide Examine, Receive;
    match step {
      case Tick(now, look, block) => LookMoves(st, now, look, block);
      case Read(packet, block) =>
        if Accepts(st, step) {
          AcceptRearms(st, packet, block);
        } else {
          RefusalWaits(st, packet, block);
        }
    }
  }

  /** The armed deadline over a whole run without an accepted packet: attempts only add up, and
      until one more is made the deadline is where it was or disarmed. */
  lemma {:induction false} DeadlineDiscipline(st: StreamState, steps: seq<Step>)
    requires Quiet(st, steps)
    ensures
      var s := Run(st, steps);
      && s.consecutive >= st.consecutive
      && (s.consecutive == st.consecutive ==> s.nextDeadline.None? || s.nextDeadline == st.nextDeadline)
    decreases |steps|
  {
    if steps != [] {
      match steps[0] {
        case Tick(now, look, block) => LookMoves(st, now, look, block);
        case Read(packet, block) => RefusalWaits(st, packet, block);
      }
      var s1 := Apply(st, steps[0]);
      DeadlineDiscipline(s1, steps[1..]);
      if s1.nextDeadline.None? {
        DisarmedStays(s1, steps[1..]);
      }
    }
  }

  /** Without an accepted packet, a disarmed stream stays disarmed and pushes nothing. */
  lemma {:induction false} DisarmedStays(st: StreamState, steps: seq<Step>)
    requires Quiet(st, steps) && st.nextDeadline.None?
    ensures Run(st, steps).nextDeadline.None?
    ensures Count(Run(st, steps).log, IsPushed()) == Count(st.log, IsPushed())
    decreases |steps|
  {
    if steps != [] {
      if steps[0].Read? {
        RefusalWaits(st, steps[0].packet, steps[0].block);
      }
      DisarmedStays(Apply(st, steps[0]), steps[1..]);
    }
  }

  predicate StaleLook(st: StreamState, step: Step) {
    step.Tick? && ExaminedAt(st, step.now) && step.now - st.nextDeadline.value > STALE_MS
  }

  /** Examinations made more than `STALE_MS` past the deadline of their moment. */
  function StaleLooks(st: StreamState, steps: seq<Step>): nat
    decreases |steps|
  {
    if steps == [] then 0
    else StaleLooks(Apply(st, steps[0]), steps[1..]) + if StaleLook(st, steps[0]) then 1 else 0
  }

  lemma {:induction false} StaleLookActs(st: StreamState, now: Time, look: Decoding.Look, block: Measure)
    requires StaleLook(st, Tick(now, look, block))
    ensures
      var s := Examine(st, now, look, block);
      s.nextDeadline.None? || s.consecutive == st.consecutive + 1 <= MAX_CONSECUTIVE
  {
    if look.lost.Some? {
      PushFrame(st, AtDeadline, look.lost.value, now, None, block);
    }
  }

  /** A stream whose packets stop is left alone after at most `MAX_CONSECUTIVE + 1` stale
      examinations, whatever else is read or examined meanwhile. */
  lemma {:induction false} Quiescence(st: StreamState, steps: seq<Step>)
    requires Quiet(st, steps) && st.consecutive <= MAX_CONSECUTIVE
    requires StaleLooks(st, steps) >= MAX_CONSECUTIVE + 1 - st.consecutive
    ensures Run(st, steps).nextDeadline.None?
    decreases |steps|
  {
    var s1 := Apply(st, steps[0]);
    match steps[0] {
      case Tick(now, look, block) =>
        LookMoves(st, now, look, block);
        if StaleLook(st, steps[0]) {
          StaleLookActs(st, now, look, block);
        }
      case Read(packet, block) => RefusalWaits(st, packet, block);
    }
    if s1.nextDeadline.None? {
      DisarmedStays(s1, steps[1..]);
    } else {
      Quiescence(s1, steps[1..]);
    }
  }
}
