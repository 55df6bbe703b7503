/** What the history of a stream tells: which push settles which hole and on what grounds, what was
    refused and waited for meanwhile (jamodio-agent/src/pipeline.rs, `note_push`, `report_hole`,
    `last_discard`, `last_wait`). */
module Histories {
  import opened Options
  import opened SeqTracking
  import opened Conceal
  import opened Decoding
  import opened Judgements
  import DecodeRuns
  import Holes

  // ------------------------------------------------------------------ reading the history

  /** Where the last push stands. */
  function LastPush(log: seq<Event>): (q: Option<nat>)
    ensures q.Some? ==> q.value < |log| && log[q.value].Pushed?
  {
    if log == [] then None
    else if log[|log| - 1].Pushed? then Some(|log| - 1)
    else LastPush(log[..|log| - 1])
  }

  /** When a packet was refused last. */
  function LastDiscard(log: seq<Event>): Option<Time> {
    if log == [] then None
    else if log[|log| - 1].Discarded? then Some(log[|log| - 1].at)
    else LastDiscard(log[..|log| - 1])
  }

  /** The last time an examination waited, and why. */
  function LastWait(log: seq<Event>): Option<WaitMark> {
    if log == [] then None
    else if log[|log| - 1].Waited? then Some(WaitMark(log[|log| - 1].why, log[|log| - 1].at))
    else LastWait(log[..|log| - 1])
  }

  function WaitedFor(why: Wait): Event -> bool {
    (e: Event) => e.Waited? && e.why == why
  }

  function WaitsOf(log: seq<Event>): WaitCounts {
    WaitCounts(DecodeRuns.Count(log, WaitedFor(NotDue)), DecodeRuns.Count(log, WaitedFor(LinkUnknown)),
               DecodeRuns.Count(log, WaitedFor(WithinGrace)), DecodeRuns.Count(log, WaitedFor(BufferHolds)),
               DecodeRuns.Count(log, WaitedFor(Repriming)))
  }

  /** The hole follows a wait for a buffer that held, later than the push before it. */
  predicate Held(before: seq<Event>, base: Option<PushMark>) {
    && base.Some? && LastWait(before).Some?
    && LastWait(before).value.why == BufferHolds && LastWait(before).value.at >= base.value.at
  }

  /** How many of the holes given a cause do. */
  function HeldHoles(log: seq<Event>): nat {
    if log == [] then 0 else
    var before := log[..|log| - 1];
    var e := log[|log| - 1];
    HeldHoles(before) + if e.Classified? && Held(before, e.base) then 1 else 0
  }

  predicate ReportsHole(log: seq<Event>, o: nat) {
    o < |log| && log[o].Pushed? && log[o].report.hole.Some?
  }

  /** The hole a push reported, with the mark of the push before. */
  function HoleAt(log: seq<Event>, o: nat): PendingHole
    requires ReportsHole(log, o)
  {
    PendingHole(log[o].report.hole.value, DecodeRuns.MarkAfter(log[..o]))
  }

  /** The push of an invented frame whose hole no packet has followed yet. */
  function Waiting(log: seq<Event>): (o: Option<nat>)
    ensures o.Some? ==> ReportsHole(log, o.value)
  {
    if log == [] then None else
    var n := |log| - 1;
    if !log[n].Pushed? then Waiting(log[..n])
    else if log[n].arrived.Some? then None
    else if log[n].report.hole.Some? then Some(n)
    else Waiting(log[..n])
  }

  /** The pushes whose hole the push at `q` must give a cause: one that waited, as soon as a packet
      or another hole comes; its own, if a packet is behind it. */
  function DueAt(log: seq<Event>, q: nat): (due: seq<nat>)
    requires q < |log| && log[q].Pushed?
    ensures forall k :: 0 <= k < |due| ==> ReportsHole(log, due[k])
  {
    var waiting := Waiting(log[..q]);
    (if waiting.Some? && (log[q].arrived.Some? || log[q].report.hole.Some?) then [waiting.value] else [])
    + (if log[q].arrived.Some? && log[q].report.hole.Some? then [q] else [])
  }

  /** Those that remain to be given one. */
  function Due(log: seq<Event>): (due: seq<nat>)
    ensures forall k :: 0 <= k < |due| ==> ReportsHole(log, due[k])
  {
    if log == [] then [] else
    var n := |log| - 1;
    if log[n].Pushed? then DueAt(log, n)
    else
      var before := Due(log[..n]);
      assert forall k :: 0 <= k < |before| ==> ReportsHole(log[..n], before[k]) && log[..n][before[k]] == log[before[k]];
      if log[n].Classified? && before != [] then before[1..] else before
  }

  /** `e` gives its cause to the first hole due, on the facts of the last push and the last refusal. */
  ghost predicate Explains(before: seq<Event>, e: Event)
    requires e.Classified?
  {
    && Due(before) != [] && LastPush(before).Some?
    && PendingHole(e.hole, e.base) == HoleAt(before, Due(before)[0])
    && var push := before[LastPush(before).value];
       Blamed(e.cause, LastDiscard(before), e.hole, e.base, push.arrived, push.block)
  }

  ghost predicate Explained(log: seq<Event>) {
    forall k :: 0 <= k < |log| && log[k].Classified? ==> Explains(log[..k], log[k])
  }

  // ------------------------------------------------------------------ the invariant

  /** What holds even in the middle of a push. */
  ghost predicate Telling(st: StreamState) {
    && Explained(st.log)
    && st.lastDiscard == LastDiscard(st.log)
    && st.lastWait == LastWait(st.log)
    && st.waits == WaitsOf(st.log)
    && st.holes.afterBufferHolds == HeldHoles(st.log)
  }

  ghost predicate Told(st: StreamState) {
    && Telling(st)
    && Due(st.log) == []
    && st.lastPush == DecodeRuns.MarkAfter(st.log)
    && st.pendingHole == WaitingHole(st.log)
  }

  function WaitingHole(log: seq<Event>): Option<PendingHole> {
    if Waiting(log).Some? then Some(HoleAt(log, Waiting(log).value)) else None
  }

  lemma {:induction false} OneMore(log: seq<Event>, e: Event)
    ensures
      var log' := log + [e];
      && LastPush(log') == (if e.Pushed? then Some(|log|) else LastPush(log))
      && LastDiscard(log') == (if e.Discarded? then Some(e.at) else LastDiscard(log))
      && LastWait(log') == (if e.Waited? then Some(WaitMark(e.why, e.at)) else LastWait(log))
      && HeldHoles(log') == HeldHoles(log) + (if e.Classified? && Held(log, e.base) then 1 else 0)
      && Waiting(log') == (if !e.Pushed? || (e.arrived.None? && e.report.hole.None?) then Waiting(log)
                           else if e.arrived.Some? then None else Some(|log|))
      && Due(log') == (if e.Pushed? then DueAt(log', |log|)
                       else if e.Classified? && Due(log) != [] then Due(log)[1..] else Due(log))
  {
    assert (log + [e])[..|log|] == log;
  }

  lemma {:induction false} OneMoreWait(log: seq<Event>, e: Event)
    ensures WaitsOf(log + [e]) == if e.Waited? then CountWait(WaitsOf(log), e.why) else WaitsOf(log)
  {
    DecodeRuns.OneMoreCount(log, e, WaitedFor(NotDue));
    DecodeRuns.OneMoreCount(log, e, WaitedFor(LinkUnknown));
    DecodeRuns.OneMoreCount(log, e, WaitedFor(WithinGrace));
    DecodeRuns.OneMoreCount(log, e, WaitedFor(BufferHolds));
    DecodeRuns.OneMoreCount(log, e, WaitedFor(Repriming));
  }

  lemma {:induction false} OneMoreExplained(log: seq<Event>, e: Event)
    requires Explained(log) && (e.Classified? ==> Explains(log, e))
    ensures Explained(log + [e])
  {
    hide Explains;
    var longer := log + [e];
    forall k | 0 <= k < |longer| && longer[k].Classified?
      ensures Explains(longer[..k], longer[k])
    {
      assert longer[..k] == log[..k];
      assert log[..|log|] == log;
    }
  }

  lemma {:induction false} HoleStays(log: seq<Event>, longer: seq<Event>, o: nat)
    requires |log| <= |longer| && longer[..|log|] == log && ReportsHole(log, o)
    ensures longer[o] == log[o] && HoleAt(longer, o) == HoleAt(log, o)
  {
    assert longer[..|log|][o] == longer[o];
    assert longer[..|log|][..o] == longer[..o];
  }

  // ------------------------------------------------------------------ one push

  /** The hole to report is the first one due, and the push at hand brings the facts. */
  ghost predicate Facing(log: seq<Event>, h: Hole, base: Option<PushMark>, arrived: Option<Arrived>, block: Measure) {
    && Due(log) != [] && PendingHole(h, base) == HoleAt(log, Due(log)[0])
    && LastPush(log).Some? && log[LastPush(log).value].arrived == arrived && log[LastPush(log).value].block == block
  }

  /** What giving a cause changes. */
  ghost predicate OneSettled(log: seq<Event>, s: StreamState) {
    && Telling(s) && |s.log| == |log| + 1 && log == s.log[..|log|]
    && LastPush(s.log) == LastPush(log) && Waiting(s.log) == Waiting(log)
    && DecodeRuns.MarkAfter(s.log) == DecodeRuns.MarkAfter(log)
    && Due(log) != [] && Due(s.log) == Due(log)[1..]
  }

  lemma {:induction false} ReportTells(st: StreamState, h: Hole, base: Option<PushMark>, arrived: Option<Arrived>, block: Measure)
    requires Telling(st) && Facing(st.log, h, base, arrived, block)
    ensures OneSettled(st.log, ReportHole(st, h, base, arrived, block))
  {
    hide Due, Waiting, DecodeRuns.MarkAfter, CauseOf, Blamed, WaitsOf, HeldHoles, LastWait, LastDiscard, LastPush, HoleAt;
    CauseMeans(st.lastDiscard, h, base, arrived, block);
    var e := Classified(h, base, CauseOf(st.lastDiscard, h, base, arrived, block));
    OneMore(st.log, e);
    OneMoreWait(st.log, e);
    OneMoreExplained(st.log, e);
    DecodeRuns.OneMore(st.log, e);
  }

  /** The push is in the history and its holes are not settled. */
  lemma {:induction false} PushedTells(st: StreamState, e: Event)
    requires Told(st) && e.Pushed?
    ensures
      var s := st.(log := st.log + [e]);
      && Telling(s) && LastPush(s.log) == Some(|st.log|)
      && Due(s.log) == DueAt(s.log, |st.log|)
      && (st.pendingHole.Some? ==> ReportsHole(s.log, Waiting(st.log).value) && st.pendingHole.value == HoleAt(s.log, Waiting(st.log).value))
      && (e.report.hole.Some? ==> HoleAt(s.log, |st.log|) == PendingHole(e.report.hole.value, st.lastPush))
  {
    hide Due, Waiting, WaitsOf, HeldHoles, LastWait, LastDiscard, LastPush, DecodeRuns.MarkAfter;
    var s0 := st.(log := st.log + [e]);
    assert s0.log[..|st.log|] == st.log;
    OneMore(st.log, e);
    OneMoreWait(st.log, e);
    OneMoreExplained(st.log, e);
    if st.pendingHole.Some? {
      HoleStays(st.log, s0.log, Waiting(st.log).value);
    }
  }

  /** The hole that waited is settled. */
  lemma {:induction false} SettleTells(st: StreamState, h: Option<PendingHole>, arrived: Option<Arrived>, block: Measure)
    requires Telling(st) && st.pendingHole == h
    requires h.Some? ==> Facing(st.log, h.value.hole, h.value.base, arrived, block)
    ensures
      var s := SettlePending(st, arrived, block);
      s.pendingHole.None? && if h.Some? then OneSettled(st.log, s) else s == st
  {
    hide Explained, OneSettled, Facing, CauseOf, WaitsOf, HeldHoles, LastWait, LastDiscard;
    if h.Some? {
      ReportTells(st.(pendingHole := None), h.value.hole, h.value.base, arrived, block);
    }
  }

  /** Where a push stands in the history it leaves. */
  ghost predicate StandsAt(log: seq<Event>, q: nat, e: Event) {
    LastPush(log) == Some(q) && log[q] == e
  }

  lemma {:induction false} SettleStands(st: StreamState, arrived: Option<Arrived>, block: Measure, q: nat, e: Event)
    requires StandsAt(st.log, q, e)
    ensures StandsAt(SettlePending(st, arrived, block).log, q, e)
  {
    if st.pendingHole.Some? {
      var p := st.pendingHole.value;
      OneMore(st.log, Classified(p.hole, p.base, CauseOf(st.lastDiscard, p.hole, p.base, arrived, block)));
    }
  }

  lemma {:induction false} PushStands(st: StreamState, kind: PushKind, report: PushReport, now: Time,
                                      arrived: Option<Arrived>, block: Measure)
    ensures StandsAt(NotePush(st, kind, report, now, arrived, block).log, |st.log|, Pushed(kind, now, report, arrived, block))
  {
    hide CauseOf;
    var e := Pushed(kind, now, report, arrived, block);
    var s0 := st.(log := st.log + [e]);
    OneMore(st.log, e);
    SettleStands(s0, arrived, block, |st.log|, e);
    var s1 := if arrived.Some? then SettlePending(s0, arrived, block) else s0;
    if report.hole.Some? {
      var h := report.hole.value;
      OneMore(s1.log, Classified(h, s1.lastPush, CauseOf(s1.lastDiscard, h, s1.lastPush, arrived, block)));
      SettleStands(s1, None, block, |st.log|, e);
    }
  }

  lemma {:induction false} NoneAfterTheLast(log: seq<Event>)
    ensures forall m :: (if LastPush(log).Some? then LastPush(log).value + 1 else 0) <= m < |log| ==> !log[m].Pushed?
  {
    if log != [] && !log[|log| - 1].Pushed? {
      var before := log[..|log| - 1];
      NoneAfterTheLast(before);
      assert forall m :: 0 <= m < |before| ==> before[m] == log[m];
    }
  }

  /** A push keeps it. */
  lemma {:induction false} PushTells(st: StreamState, kind: PushKind, report: PushReport, now: Time,
                                     arrived: Option<Arrived>, block: Measure)
    requires Told(st)
    ensures Told(NotePush(st, kind, report, now, arrived, block))
  {
    hide Due, Waiting, WaitsOf, HeldHoles, LastWait, LastDiscard, LastPush, DecodeRuns.MarkAfter, CauseOf, Explained, HoleAt;
    var e := Pushed(kind, now, report, arrived, block);
    var s0 := st.(log := st.log + [e]);
    PushedTells(st, e);
    OneMore(st.log, e);
    DecodeRuns.OneMore(st.log, e);
    var s1 := if arrived.Some? then SettlePending(s0, arrived, block) else s0;
    if arrived.Some? {
      SettleTells(s0, st.pendingHole, arrived, block);
      if report.hole.Some? {
        HoleStays(s0.log, s1.log, |st.log|);
        ReportTells(s1, report.hole.value, st.lastPush, arrived, block);
      }
    } else if report.hole.Some? {
      SettleTells(s0, st.pendingHole, None, block);
      HoleStays(s0.log, SettlePending(s0, None, block).log, |st.log|);
    }
  }

  // ------------------------------------------------------------------ every step keeps it

  /** The fields the history tells. */
  ghost predicate SameFacts(s: StreamState, st: StreamState) {
    && s.lastPush == st.lastPush && s.pendingHole == st.pendingHole && s.holes == st.holes
    && s.lastDiscard == st.lastDiscard && s.lastWait == st.lastWait && s.waits == st.waits
  }

  /** Any other event, with what it changes. */
  lemma {:induction false} NoteTells(st: StreamState, e: Event, s: StreamState)
    requires Told(st) && !e.Pushed? && !e.Classified?
    requires s.log == st.log + [e]
    requires SameFacts(s, st.(
      lastDiscard := if e.Discarded? then Some(e.at) else st.lastDiscard,
      lastWait := if e.Waited? then Some(WaitMark(e.why, e.at)) else st.lastWait,
      waits := if e.Waited? then CountWait(st.waits, e.why) else st.waits))
    ensures Told(s)
  {
    hide Explained, Due, Waiting, WaitsOf, HeldHoles, LastWait, LastDiscard, LastPush, DecodeRuns.MarkAfter, HoleAt;
    OneMore(st.log, e);
    OneMoreWait(st.log, e);
    OneMoreExplained(st.log, e);
    DecodeRuns.OneMore(st.log, e);
    if Waiting(st.log).Some? {
      assert s.log[..|st.log|] == st.log;
      HoleStays(st.log, s.log, Waiting(st.log).value);
    }
  }

  lemma {:induction false} FillTells(st: StreamState, p: Packet, n: nat, arrived: Arrived, block: Measure)
    requires Told(st)
    ensures Told(FillOnArrival(st, p, n, arrived, block))
  {
    hide Telling, Due, Waiting, DecodeRuns.MarkAfter, HoleAt, NotePush;
    if n > 0 {
      FillTells(st, p, n - 1, arrived, block);
      var s := FillOnArrival(st, p, n - 1, arrived, block);
      var attempt := AttemptAt(p, n - 1);
      if DecodeRuns.Pushes(attempt) {
        PushTells(s, OnArrival, attempt.value.report.value, attempt.value.at, Some(arrived), block);
        TellsSame(NotePush(s, OnArrival, attempt.value.report.value, attempt.value.at, Some(arrived), block),
                  FillOnArrival(st, p, n, arrived, block));
      }
    }
  }

  lemma {:induction false} TellsSame(st: StreamState, s: StreamState)
    requires Told(st) && s.log == st.log && SameFacts(s, st)
    ensures Told(s)
  {
  }

  lemma {:induction false} InventTells(st: StreamState, now: Time, look: Look, block: Measure)
    requires Told(st)
    ensures Told(InventAtDeadline(st, now, look, block))
  {
    hide Told, NotePush;
    if look.lost.Some? {
      var s := NotePush(st, AtDeadline, look.lost.value, now, None, block);
      PushTells(st, AtDeadline, look.lost.value, now, None, block);
      var track := OnConcealed(s.track);
      if track.highest.Some? {
        NoteTells(s, Concealed(track.highest.value), InventAtDeadline(st, now, look, block));
      } else {
        TellsSame(s, InventAtDeadline(st, now, look, block));
      }
    }
  }

  lemma {:induction false} ExamineTells(st: StreamState, now: Time, look: Look, block: Measure)
    requires Told(st)
    ensures Told(Examine(st, now, look, block))
  {
    hide Told, InventAtDeadline;
    if ExaminedAt(st, now) {
      var late := SaturatingSince(now, st.nextDeadline.value);
      var s := Examine(st, now, look, block);
      match DecisionFor(late, st.consecutive, look, block) {
        case Hold(why) => NoteTells(st, Waited(why, now), s);
        case FadeToSilence => TellsSame(st, s);
        case Frame =>
          InventTells(st, now, look, block);
          TellsSame(InventAtDeadline(st, now, look, block), s);
      }
    }
  }

  lemma {:induction false} AdmitTells(st: StreamState, arrival: Arrival, p: Packet, block: Measure)
    requires Told(st)
    ensures Told(Admit(st, arrival, p, block))
  {
    hide Told, FillOnArrival, NotePush;
    var arrived := Arrived(p.recv, p.inSystem);
    var n := if arrival.Next? then ArrivalBudget(arrival.missing, st.consecutive) else 0;
    TellsSame(st, Accept(st, p.recv));
    FillTells(Accept(st, p.recv), p, n, arrived, block);
    var s := FillOnArrival(Accept(st, p.recv), p, n, arrived, block);
    NoteTells(s, GapClosed, CloseGap(s));
    if DecodeRuns.Sounds(p) {
      PushTells(CloseGap(s), Decoded, p.decoded.value.report.value, p.decoded.value.at, Some(arrived), block);
    }
  }

  lemma {:induction false} RefuseTells(st: StreamState, number: Seq16, arrival: Arrival, p: Packet)
    requires Told(st)
    ensures Told(Refuse(st, number, arrival, p))
  {
    hide Told;
    var s := Discard(st, p.recv);
    NoteTells(st, Discarded(p.recv), s);
    if arrival.Late? && s.lastConceal.Some? && s.lastConceal.value.slot == number {
      NoteTells(s, Judgement(number, arrival.replaced, p, MarginOf(s.lastConceal.value, p)), Refuse(st, number, arrival, p));
    }
  }

  lemma {:induction false} ReceiveTells(st: StreamState, p: Packet, block: Measure)
    requires Told(st)
    ensures Told(Receive(st, p, block))
  {
    hide Told, Admit, Refuse, SeqTracking.OnPacket;
    if p.number.None? {
      TellsSame(st, Receive(st, p, block));
    } else {
      var s := DecodeRuns.Tracked(st, p.number.value);
      var arrival := SeqTracking.OnPacket(st.track, p.number.value).1;
      TellsSame(st, s);
      AdmitTells(s, arrival, p, block);
      RefuseTells(s, p.number.value, arrival, p);
    }
  }

  lemma {:induction false} RunTells(st: StreamState, steps: seq<DecodeRuns.Step>)
    requires Told(st)
    ensures Told(DecodeRuns.Run(st, steps))
    decreases |steps|
  {
    hide Told, Examine, Receive;
    if steps != [] {
      match steps[0] {
        case Tick(now, look, block) => ExamineTells(st, now, look, block);
        case Read(packet, block) => ReceiveTells(st, packet, block);
      }
      RunTells(DecodeRuns.Apply(st, steps[0]), steps[1..]);
    }
  }

  // ------------------------------------------------------------------ what it means

  /** The mark is that of the last push, with the read time of the last packet behind a push. */
  ghost predicate MarksLastPush(log: seq<Event>, mark: Option<PushMark>) {
    && (mark.None? <==> LastPush(log).None?) && (mark.None? ==> LastHeard(log).None?)
    && (mark.Some? ==>
          var push := log[LastPush(log).value];
          mark.value.at == push.at && mark.value.readIndex == push.report.readIndex
          && mark.value.fillAfter == push.report.fillAfter && mark.value.lastReceived == LastHeard(log))
  }

  function LastHeard(log: seq<Event>): Option<Time> {
    if log == [] then None
    else if log[|log| - 1].Pushed? && log[|log| - 1].arrived.Some? then Some(log[|log| - 1].arrived.value.readAt)
    else LastHeard(log[..|log| - 1])
  }

  lemma {:induction false} MarkMeans(log: seq<Event>)
    ensures MarksLastPush(log, DecodeRuns.MarkAfter(log))
  {
    if log != [] {
      var before := log[..|log| - 1];
      MarkMeans(before);
      assert before + [log[|log| - 1]] == log;
      assert forall m :: 0 <= m < |before| ==> before[m] == log[m];
    }
  }

  /** Between two places no push is of a packet, nor reports a hole. */
  predicate NothingHeard(log: seq<Event>, from: nat, to: nat) {
    forall m :: from < m < to && m < |log| && log[m].Pushed? ==> log[m].arrived.None? && log[m].report.hole.None?
  }

  lemma {:induction false} WaitingMeans(log: seq<Event>)
    requires Waiting(log).Some?
    ensures log[Waiting(log).value].arrived.None? && NothingHeard(log, Waiting(log).value, |log|)
  {
    var n := |log| - 1;
    if !log[n].Pushed? || (log[n].arrived.None? && log[n].report.hole.None?) {
      WaitingMeans(log[..n]);
      assert forall m :: 0 <= m < n ==> log[..n][m] == log[m];
    }
  }

  lemma {:induction false} DueMeans(log: seq<Event>, k: nat)
    requires k < |Due(log)|
    ensures LastPush(log).Some?
    ensures
      var q := LastPush(log).value;
      && (forall m :: q < m < |log| ==> !log[m].Pushed?)
      && Due(log)[k] in DueAt(log, q)
  {
    var n := |log| - 1;
    if !log[n].Pushed? {
      var before := Due(log[..n]);
      var j := if log[n].Classified? then k + 1 else k;
      assert Due(log)[k] == before[j];
      DueMeans(log[..n], j);
      var q := LastPush(log).value;
      assert forall m :: 0 <= m < n ==> log[..n][m] == log[m];
      assert log[..n][..q] == log[..q];
    }
  }

  /** Over every run, each cause given is that of the hole of an earlier push, against the mark of the
      push before that one, on the facts of the last push: the push that reported the hole, if it is of a
      packet; otherwise the first one after it that is of a packet or reports another hole. It is the
      cause those facts mean, with the last refusal before it. */
  lemma {:induction false} HoleGetsItsCause(epoch: nat, steps: seq<DecodeRuns.Step>, k: nat) returns (o: nat, q: nat)
    requires k < |DecodeRuns.Run(Fresh(epoch), steps).log| && DecodeRuns.Run(Fresh(epoch), steps).log[k].Classified?
    ensures
      var log := DecodeRuns.Run(Fresh(epoch), steps).log;
      var e := log[k];
      && o <= q < k && log[o].Pushed? && log[q].Pushed?
      && (forall m :: q < m < k ==> !log[m].Pushed?)
      && log[o].report.hole == Some(e.hole) && MarksLastPush(log[..o], e.base)
      && (o == q ==> log[q].arrived.Some?)
      && (o < q ==> log[o].arrived.None? && NothingHeard(log, o, q)
                    && (log[q].arrived.Some? || log[q].report.hole.Some?))
      && Blamed(e.cause, LastDiscard(log[..k]), e.hole, e.base, log[q].arrived, log[q].block)
  {
    hide DecodeRuns.Run, Blamed, MarksLastPush, Due, Waiting, LastPush, DecodeRuns.MarkAfter, WaitsOf, HeldHoles, LastWait, LastDiscard;
    FreshTells(epoch);
    var st := DecodeRuns.Run(Fresh(epoch), steps);
    RunTells(Fresh(epoch), steps);
    var log := st.log;
    var before := log[..k];
    assert Explains(before, log[k]);
    DueMeans(before, 0);
    MarkMeans(log[..Due(before)[0]]);
    q := LastPush(before).value;
    o := Due(before)[0];
    assert before[..q] == log[..q] && before[..o] == log[..o];
    assert forall m :: 0 <= m < k ==> before[m] == log[m];
    if o != q {
      WaitingMeans(log[..q]);
      assert forall m :: 0 <= m < q ==> log[..q][m] == log[m];
    }
  }

  /** Over every run: the hole that waits is that of the last push that is of a packet or reports a hole,
      and that push is of an invented frame. */
  lemma {:induction false} HoleWaitsForAPacket(epoch: nat, steps: seq<DecodeRuns.Step>) returns (o: nat)
    requires DecodeRuns.Run(Fresh(epoch), steps).pendingHole.Some?
    ensures
      var st := DecodeRuns.Run(Fresh(epoch), steps);
      && o < |st.log| && st.log[o].Pushed? && st.log[o].arrived.None?
      && st.log[o].report.hole == Some(st.pendingHole.value.hole)
      && MarksLastPush(st.log[..o], st.pendingHole.value.base)
      && NothingHeard(st.log, o, |st.log|)
  {
    hide DecodeRuns.Run;
    var st := DecodeRuns.Run(Fresh(epoch), steps);
    RunTells(Fresh(epoch), steps);
    WaitingMeans(st.log);
    o := Waiting(st.log).value;
    MarkMeans(st.log[..o]);
  }

  /** Over every run the waits published are those the examinations made, each under its reason; and a
      hole counts as following a buffer that held when such a wait was the last one, made no earlier than
      the push before the hole. */
  lemma {:induction false} WaitsAreCounted(epoch: nat, steps: seq<DecodeRuns.Step>)
    ensures
      var st := DecodeRuns.Run(Fresh(epoch), steps);
      && st.waits == WaitsOf(st.log)
      && st.holes.afterBufferHolds == HeldHoles(st.log)
      && st.lastDiscard == LastDiscard(st.log)
  {
    hide DecodeRuns.Run, WaitsOf, HeldHoles, Explained, Due, Waiting, LastDiscard;
    FreshTells(epoch);
    RunTells(Fresh(epoch), steps);
  }

  lemma {:induction false} FreshTells(epoch: nat)
    ensures Told(Fresh(epoch))
  {
  }
}
