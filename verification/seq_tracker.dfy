/** Classification of received packets by their 16-bit sequence number
    (jamodio-audio-core/src/net/seq.rs; appendix A.1 of RFC 3550).

    The tracker keeps the highest number and two 128-bit windows. They are modelled by the sets
    of the positions of their one bits, so a shift that loses its upper bits is `Shift`. */
module SeqTracking {
  import opened Options

  type Seq16 = x: int | 0 <= x < 0x1_0000 witness 0

  const MAX_DROPOUT: nat := 3000
  const MAX_MISORDER: nat := 100
  const HISTORY_BITS: nat := 128

  datatype Arrival =
    | Start
    | Next(missing: nat)
    | Late(replaced: bool)
    | Duplicate
    | Jump
  {
    predicate Accepted() {
      Start? || Next?
    }
  }

  datatype Counters = Counters(expected: nat, received: nat, late: nat, duplicate: nat, jump: nat)
  {
    function Lost(): nat {
      if expected < received then 0 else expected - received
    }
  }

  datatype Track = Track(
    highest: Option<Seq16>,
    history: set<nat>,
    concealed: set<nat>,
    resync: Option<Seq16>,
    counters: Counters)

  const FRESH := Track(None, {}, {}, None, Counters(0, 0, 0, 0, 0))

  function WrapSub(a: Seq16, b: Seq16): Seq16 {
    (a - b) % 0x1_0000
  }

  function WrapAdd(a: Seq16, n: nat): Seq16 {
    (a + n) % 0x1_0000
  }

  /** A left shift of a 128-bit window. */
  function Shift(bits: set<nat>, n: nat): set<nat> {
    set i: nat | i in bits && i + n < HISTORY_BITS :: i + n
  }

  // ------------------------------------------------------------------ specification

  function StartAt(t: Track, number: Seq16): Track {
    Track(Some(number), {0}, {}, None,
          t.counters.(expected := t.counters.expected + 1, received := t.counters.received + 1))
  }

  function Replay(t: Track, number: Seq16): (Track, Arrival) {
    (t.(counters := t.counters.(duplicate := t.counters.duplicate + 1)), Duplicate)
  }

  /** A packet found `behind` places back whose bit is not in the history. */
  function LateAt(t: Track, behind: nat): Track {
    t.(concealed := t.concealed - {behind}, history := t.history + {behind},
       counters := t.counters.(received := t.counters.received + 1, late := t.counters.late + 1))
  }

  function OnPacket(t: Track, number: Seq16): (Track, Arrival) {
    if t.highest.None? then (StartAt(t, number), Start) else
    var ahead := WrapSub(number, t.highest.value);
    var behind := WrapSub(t.highest.value, number);
    if ahead == 0 then
      if 0 in t.concealed then (LateAt(t, 0), Late(true)) else Replay(t, number)
    else if ahead < MAX_DROPOUT then
      (Track(Some(number),
             if ahead >= HISTORY_BITS then {0} else Shift(t.history, ahead) + {0},
             if ahead >= HISTORY_BITS then {} else Shift(t.concealed, ahead),
             None,
             t.counters.(expected := t.counters.expected + ahead, received := t.counters.received + 1)),
       Next(ahead - 1))
    else if behind < MAX_MISORDER then
      if behind in t.history then Replay(t, number) else (LateAt(t, behind), Late(behind in t.concealed))
    else if t.resync == Some(number) then (StartAt(t, number), Start)
    else
      (t.(resync := Some(WrapAdd(number, 1)), counters := t.counters.(jump := t.counters.jump + 1)), Jump)
  }

  function OnConcealed(t: Track): Track {
    if t.highest.None? then t else
    t.(highest := Some(WrapAdd(t.highest.value, 1)),
       history := Shift(t.history, 1),
       concealed := Shift(t.concealed, 1) + {0},
       counters := t.counters.(expected := t.counters.expected + 1))
  }

  // ------------------------------------------------------------------ the tracker itself

  class SeqTracker {
    var highest: Option<Seq16>
    var history: set<nat>
    var concealed: set<nat>
    var resync: Option<Seq16>
    var counters: Counters

    ghost function View(): Track
      reads this
    {
      Track(highest, history, concealed, resync, counters)
    }

    constructor ()
      ensures View() == FRESH
    {
      highest, history, concealed, resync, counters := None, {}, {}, None, Counters(0, 0, 0, 0, 0);
    }

    method Begin(number: Seq16) returns (arrival: Arrival)
      modifies this
      ensures View() == StartAt(old(View()), number) && arrival == Start
    {
      highest, history, concealed, resync := Some(number), {0}, {}, None;
      counters := counters.(expected := counters.expected + 1, received := counters.received + 1);
      return Start;
    }

    method Packet(number: Seq16) returns (arrival: Arrival)
      modifies this
      ensures (View(), arrival) == OnPacket(old(View()), number)
    {
      if highest == None {
        arrival := Begin(number);
        return;
      }
      var top := highest.value;
      var ahead := WrapSub(number, top);
      if ahead == 0 {
        if 0 in concealed {
          concealed, history := concealed - {0}, history + {0};
          counters := counters.(received := counters.received + 1, late := counters.late + 1);
          return Late(true);
        }
        counters := counters.(duplicate := counters.duplicate + 1);
        return Duplicate;
      }
      if ahead < MAX_DROPOUT {
        history := if ahead >= HISTORY_BITS then {0} else Shift(history, ahead) + {0};
        concealed := if ahead >= HISTORY_BITS then {} else Shift(concealed, ahead);
        highest, resync := Some(number), None;
        counters := counters.(expected := counters.expected + ahead, received := counters.received + 1);
        return Next(ahead - 1);
      }
      var behind := WrapSub(top, number);
      if behind < MAX_MISORDER {
        if behind in history {
          counters := counters.(duplicate := counters.duplicate + 1);
          return Duplicate;
        }
        var replaced := behind in concealed;
        concealed, history := concealed - {behind}, history + {behind};
        counters := counters.(received := counters.received + 1, late := counters.late + 1);
        return Late(replaced);
      }
      if resync == Some(number) {
        arrival := Begin(number);
        return;
      }
      resync := Some(WrapAdd(number, 1));
      counters := counters.(jump := counters.jump + 1);
      return Jump;
    }

    method Conceal()
      modifies this
      ensures View() == OnConcealed(old(View()))
    {
      if highest == None {
        return;
      }
      highest := Some(WrapAdd(highest.value, 1));
      history := Shift(history, 1);
      concealed := Shift(concealed, 1) + {0};
      counters := counters.(expected := counters.expected + 1);
    }
  }

  // ------------------------------------------------------------------ unbounded reference

  /** The reference: places are unbounded integers and nothing is ever forgotten. `arrived` and
      `invented` are the places of the current numbering; `before` sums up the numberings that a
      restart closed. */
  datatype Ledger = Ledger(
    start: int,
    top: int,
    arrived: set<int>,
    invented: set<int>,
    before: Closed)

  datatype Closed = Closed(expected: nat, received: nat, missing: nat, early: nat)

  const NOTHING_CLOSED := Closed(0, 0, 0, 0)

  function Interval(lo: int, hi: int): (places: set<int>)
    ensures forall p :: p in places <==> lo <= p <= hi
    ensures |places| == if lo <= hi then hi - lo + 1 else 0
    decreases hi - lo
  {
    if lo > hi then {} else Interval(lo, hi - 1) + {hi}
  }

  /** Places of the stream that no packet ever reached. */
  function Missing(l: Ledger): set<int> {
    Interval(l.start, l.top) - l.arrived
  }

  /** Packets numbered before the packet the stream started with. */
  function Early(l: Ledger): set<int> {
    set p | p in l.arrived && p < l.start
  }

  function Reopen(l: Option<Ledger>, number: Seq16): Ledger {
    Ledger(number, number, {number}, {},
           if l.None? then NOTHING_CLOSED
           else Closed(l.value.before.expected + Span(l.value), l.value.before.received + |l.value.arrived|,
                       l.value.before.missing + |Missing(l.value)|, l.value.before.early + |Early(l.value)|))
  }

  function Span(l: Ledger): nat {
    if l.top < l.start then 0 else l.top - l.start + 1
  }

  /** What a packet standing at place `p` is, read from the reference alone. */
  function Meaning(l: Ledger, p: int): Arrival {
    if p > l.top then Next(p - l.top - 1)
    else if p in l.arrived then Duplicate
    else Late(p in l.invented)
  }

  function Deliver(l: Ledger, p: int): Ledger {
    l.(arrived := l.arrived + {p}, top := if p > l.top then p else l.top)
  }

  function Invent(l: Ledger): Ledger {
    l.(invented := l.invented + {l.top + 1}, top := l.top + 1)
  }

  ghost predicate WellFormed(l: Ledger) {
    && l.start <= l.top
    && l.start in l.arrived
    && (l.top in l.arrived || l.top in l.invented)
    && (forall p :: p in l.arrived ==> p <= l.top)
    && (forall p :: p in l.invented ==> l.start < p <= l.top)
  }

  /** The bounded tracker says the same thing as the reference. */
  ghost predicate Agrees(t: Track, l: Ledger) {
    && WellFormed(l)
    && t.highest == Some(l.top % 0x1_0000)
    && (forall i: nat :: i in t.history <==> i < HISTORY_BITS && l.top - i in l.arrived)
    && (forall i: nat :: i in t.concealed <==> i < HISTORY_BITS && l.top - i in l.invented && l.top - i !in l.arrived)
    && t.counters.expected == l.before.expected + Span(l)
    && t.counters.received == l.before.received + |l.arrived|
    && l.before.expected + l.before.early == l.before.received + l.before.missing
  }

  lemma {:induction false} WindowDecodes(top: int, place: int)
    requires top - MAX_MISORDER < place < top + MAX_DROPOUT
    ensures place >= top ==> WrapSub(place % 0x1_0000, top % 0x1_0000) == place - top
    ensures place <= top ==> WrapSub(top % 0x1_0000, place % 0x1_0000) == top - place
    ensures place < top ==> WrapSub(place % 0x1_0000, top % 0x1_0000) >= MAX_DROPOUT
  {
  }

  /** Bit `i` of a window is the membership of the place `top - i`. */
  ghost predicate IsWindow(bits: set<nat>, top: int, places: set<int>) {
    forall i: nat :: i in bits <==> i < HISTORY_BITS && top - i in places
  }

  /** Shifting a window moves its top. */
  lemma {:induction false} ShiftMovesTop(bits: set<nat>, top: int, places: set<int>, n: nat)
    requires n > 0 && IsWindow(bits, top, places)
    requires forall p :: p in places ==> p <= top
    ensures IsWindow(if n >= HISTORY_BITS then {} else Shift(bits, n), top + n, places)
  {
    var shifted := if n >= HISTORY_BITS then {} else Shift(bits, n);
    forall i: nat
      ensures i in shifted <==> i < HISTORY_BITS && top + n - i in places
    {
      if i >= n {
        assert top - (i - n) == top + n - i;
        assert i - n in bits <==> i - n < HISTORY_BITS && top + n - i in places;
        assert n < HISTORY_BITS ==> (i in Shift(bits, n) <==> i - n in bits && i < HISTORY_BITS);
      } else {
        assert top + n - i > top;
      }
    }
  }

  /** A packet at the top enters its window. */
  lemma {:induction false} TopEnters(bits: set<nat>, top: int, places: set<int>)
    requires IsWindow(bits, top, places)
    ensures IsWindow(bits + {0}, top, places + {top})
  {
  }

  lemma {:induction false} AheadRefines(t: Track, l: Ledger, place: int)
    requires Agrees(t, l)
    requires l.top < place < l.top + MAX_DROPOUT
    ensures
      var (t', arrival) := OnPacket(t, place % 0x1_0000);
      arrival == Next(place - l.top - 1) && Agrees(t', Deliver(l, place))
  {
    hide IsWindow, Shift;
    var n := place - l.top;
    WindowDecodes(l.top, place);
    AgreesByWindows(t, l);
    ShiftMovesTop(t.history, l.top, l.arrived, n);
    ShiftMovesTop(t.concealed, l.top, l.invented - l.arrived, n);
    var t' := OnPacket(t, place % 0x1_0000).0;
    TopEnters(if n >= HISTORY_BITS then {} else Shift(t.history, n), place, l.arrived);
    assert t'.history == (if n >= HISTORY_BITS then {} else Shift(t.history, n)) + {0};
    assert l.invented - l.arrived == l.invented - Deliver(l, place).arrived;
    WindowsAgree(t', Deliver(l, place));
  }

  lemma {:induction false} AgreesByWindows(t: Track, l: Ledger)
    requires Agrees(t, l)
    ensures IsWindow(t.history, l.top, l.arrived) && IsWindow(t.concealed, l.top, l.invented - l.arrived)
  {
  }

  lemma {:induction false} WindowsAgree(t: Track, l: Ledger)
    requires IsWindow(t.history, l.top, l.arrived) && IsWindow(t.concealed, l.top, l.invented - l.arrived)
    requires WellFormed(l) && t.highest == Some(l.top % 0x1_0000)
    requires t.counters.expected == l.before.expected + Span(l)
    requires t.counters.received == l.before.received + |l.arrived|
    requires l.before.expected + l.before.early == l.before.received + l.before.missing
    ensures Agrees(t, l)
  {
  }

  lemma {:induction false} BehindRefines(t: Track, l: Ledger, place: int)
    requires Agrees(t, l)
    requires l.top - MAX_MISORDER < place <= l.top
    ensures
      var (t', arrival) := OnPacket(t, place % 0x1_0000);
      && arrival == (if place in l.arrived then Duplicate else Late(place in l.invented))
      && Agrees(t', if arrival.Duplicate? then l else Deliver(l, place))
  {
    WindowDecodes(l.top, place);
    var b := l.top - place;
    assert l.top - b == place;
  }

  /** Sixteen bits and a 128-bit memory lose nothing: for every place within the windows, the
      answer, the counters and the memory are those of the unbounded reference. */
  lemma {:induction false} PacketRefines(t: Track, l: Ledger, place: int)
    requires Agrees(t, l)
    requires l.top - MAX_MISORDER < place < l.top + MAX_DROPOUT
    ensures
      var (t', arrival) := OnPacket(t, place % 0x1_0000);
      arrival == Meaning(l, place) && Agrees(t', if arrival.Duplicate? then l else Deliver(l, place))
  {
    if place > l.top {
      AheadRefines(t, l, place);
    } else {
      BehindRefines(t, l, place);
    }
  }

  lemma {:induction false} ConcealRefines(t: Track, l: Ledger)
    requires Agrees(t, l)
    ensures Agrees(OnConcealed(t), Invent(l))
  {
    var t' := OnConcealed(t);
    forall i: nat
      ensures i in t'.history <==> i < HISTORY_BITS && l.top + 1 - i in l.arrived
      ensures i in t'.concealed <==>
              i < HISTORY_BITS && l.top + 1 - i in Invent(l).invented && l.top + 1 - i !in l.arrived
    {
      if i > 0 {
        assert l.top - (i - 1) == l.top + 1 - i;
        assert i - 1 in t.history <==> i - 1 < HISTORY_BITS && l.top + 1 - i in l.arrived;
        assert i - 1 in t.concealed <==>
               i - 1 < HISTORY_BITS && l.top + 1 - i in l.invented && l.top + 1 - i !in l.arrived;
        assert i in Shift(t.concealed, 1) <==> i - 1 in t.concealed && i < HISTORY_BITS;
      }
    }
  }

  // ------------------------------------------------------------------ whole runs

  datatype Input = Packet(number: Seq16) | Conceal

  /** The tracker fed with `inputs`, and every answer it gave. */
  function Feed(inputs: seq<Input>): (Track, seq<Arrival>) {
    if inputs == [] then (FRESH, []) else
    var n := |inputs| - 1;
    var (t, answers) := Feed(inputs[..n]);
    match inputs[n]
    case Packet(number) => var (t', a) := OnPacket(t, number); (t', answers + [a])
    case Conceal => (OnConcealed(t), answers)
  }

  /** The reference run. `line` is what the output was given for the current numbering, place by
      place: packets played and frames invented, in the order in which they were pushed. */
  datatype Reference = Reference(ledger: Option<Ledger>, resync: Option<Seq16>, line: seq<int>, answers: seq<Arrival>)

  /** The only place within the windows that a number can stand for. */
  function Locate(l: Ledger, number: Seq16): Option<int> {
    var ahead := WrapSub(number, l.top % 0x1_0000);
    var behind := WrapSub(l.top % 0x1_0000, number);
    if ahead < MAX_DROPOUT then Some(l.top + ahead)
    else if behind < MAX_MISORDER then Some(l.top - behind)
    else None
  }

  function ReferenceStep(r: Reference, input: Input): Reference {
    match input
    case Conceal =>
      if r.ledger.None? then r else
      r.(ledger := Some(Invent(r.ledger.value)), line := r.line + [r.ledger.value.top + 1])
    case Packet(number) =>
      var place := if r.ledger.None? then None else Locate(r.ledger.value, number);
      if place.Some? then
        var l := r.ledger.value;
        var a := Meaning(l, place.value);
        r.(ledger := Some(if a.Duplicate? then l else Deliver(l, place.value)),
           resync := if a.Next? then None else r.resync,
           line := if a.Next? then r.line + [place.value] else r.line,
           answers := r.answers + [a])
      else if r.ledger.None? || r.resync == Some(number) then
        Reference(Some(Reopen(r.ledger, number)), None, [number], r.answers + [Start])
      else
        r.(resync := Some(WrapAdd(number, 1)), answers := r.answers + [Jump])
  }

  function ReferenceFeed(inputs: seq<Input>): Reference {
    if inputs == [] then Reference(None, None, [], [])
    else ReferenceStep(ReferenceFeed(inputs[..|inputs| - 1]), inputs[|inputs| - 1])
  }

  function CountLate(answers: seq<Arrival>): nat {
    if answers == [] then 0
    else CountLate(answers[..|answers| - 1]) + if answers[|answers| - 1].Late? then 1 else 0
  }

  function CountAccepted(answers: seq<Arrival>): nat {
    if answers == [] then 0
    else CountAccepted(answers[..|answers| - 1]) + if answers[|answers| - 1].Accepted() then 1 else 0
  }

  ghost predicate Ascending(line: seq<int>) {
    forall i, j :: 0 <= i < j < |line| ==> line[i] < line[j]
  }

  ghost predicate Consistent(t: Track, r: Reference) {
    && t.resync == r.resync
    && (r.ledger.None? ==> t == FRESH && r.line == [])
    && (r.ledger.Some? ==> Agrees(t, r.ledger.value) && r.line != [] && r.line[|r.line| - 1] == r.ledger.value.top)
    && Ascending(r.line)
    && t.counters.late == CountLate(r.answers)
    && t.counters.received == CountAccepted(r.answers) + CountLate(r.answers)
    && t.counters.received + t.counters.duplicate + t.counters.jump == |r.answers|
  }

  lemma {:induction false} MissingAccount(l: Ledger)
    requires WellFormed(l)
    ensures Span(l) + |Early(l)| == |l.arrived| + |Missing(l)|
  {
    var span := Interval(l.start, l.top);
    assert span == Missing(l) + (l.arrived - Early(l));
    assert l.arrived == (l.arrived - Early(l)) + Early(l);
  }

  lemma {:induction false} RestartRefines(t: Track, l: Option<Ledger>, number: Seq16)
    requires l.None? ==> t == FRESH
    requires l.Some? ==> Agrees(t, l.value)
    ensures Agrees(StartAt(t, number), Reopen(l, number))
  {
    if l.Some? {
      MissingAccount(l.value);
    }
  }

  lemma {:induction false} LocateIsInWindow(l: Ledger, number: Seq16)
    ensures
      var place := Locate(l, number);
      place.Some? ==> l.top - MAX_MISORDER < place.value < l.top + MAX_DROPOUT && place.value % 0x1_0000 == number
  {
  }

  /** Outside the windows a number either confirms a restart or is put aside. */
  lemma {:induction false} OutsideWindows(t: Track, l: Ledger, number: Seq16)
    requires Agrees(t, l) && Locate(l, number).None?
    ensures OnPacket(t, number) ==
            if t.resync == Some(number) then (StartAt(t, number), Start)
            else (t.(resync := Some(WrapAdd(number, 1)), counters := t.counters.(jump := t.counters.jump + 1)), Jump)
  {
  }

  /** Each class of packet moves its own counter. */
  lemma {:induction false} PacketCounters(t: Track, number: Seq16)
    ensures
      var (t', a) := OnPacket(t, number);
      && t'.counters.late == t.counters.late + (if a.Late? then 1 else 0)
      && t'.counters.received == t.counters.received + (if a.Accepted() || a.Late? then 1 else 0)
      && t'.counters.duplicate == t.counters.duplicate + (if a.Duplicate? then 1 else 0)
      && t'.counters.jump == t.counters.jump + (if a.Jump? then 1 else 0)
      && t'.resync == (if a.Accepted() then None else if a.Jump? then Some(WrapAdd(number, 1)) else t.resync)
  {
  }

  lemma {:induction false} PacketAgrees(t: Track, r: Reference, number: Seq16)
    requires Consistent(t, r)
    ensures
      var (t', a) := OnPacket(t, number);
      var r' := ReferenceStep(r, Packet(number));
      && r'.answers == r.answers + [a]
      && r'.ledger.Some? && Agrees(t', r'.ledger.value)
  {
    if r.ledger.Some? {
      LocateIsInWindow(r.ledger.value, number);
      if Locate(r.ledger.value, number).Some? {
        PacketRefines(t, r.ledger.value, Locate(r.ledger.value, number).value);
      } else {
        OutsideWindows(t, r.ledger.value, number);
        RestartRefines(t, r.ledger, number);
      }
    } else {
      RestartRefines(t, r.ledger, number);
    }
  }

  lemma {:induction false} PacketStep(t: Track, r: Reference, number: Seq16)
    requires Consistent(t, r)
    ensures
      var (t', a) := OnPacket(t, number);
      var r' := ReferenceStep(r, Packet(number));
      Consistent(t', r') && r'.answers == r.answers + [a]
  {
    hide Agrees, OnPacket, Ascending;
    PacketAgrees(t, r, number);
    PacketCounters(t, number);
    var (t', a) := OnPacket(t, number);
    var r' := ReferenceStep(r, Packet(number));
    assert (r.answers + [a])[..|r.answers|] == r.answers;
    LineIsOne(number);
    if r.ledger.Some? && Locate(r.ledger.value, number).Some? {
      var place := Locate(r.ledger.value, number).value;
      if place > r.ledger.value.top {
        LineGrows(r.line, place);
      }
    }
  }

  lemma {:induction false} LineIsOne(place: int)
    ensures Ascending([place])
  {
  }

  lemma {:induction false} LineGrows(line: seq<int>, place: int)
    requires Ascending(line) && (line != [] ==> line[|line| - 1] < place)
    ensures Ascending(line + [place])
  {
  }

  /** Over every run of packets and inventions: the answers are those of the reference; what the
      output is given never goes back and never reuses a place, so a late packet is never played
      after the frame that took its place; and every packet is counted in exactly one class. */
  lemma {:induction false} RunRefines(inputs: seq<Input>)
    ensures Consistent(Feed(inputs).0, ReferenceFeed(inputs))
    ensures Feed(inputs).1 == ReferenceFeed(inputs).answers
  {
    if inputs == [] {
      StartsConsistent();
    } else {
      hide Consistent, ReferenceStep, OnPacket, OnConcealed;
      var n := |inputs| - 1;
      RunRefines(inputs[..n]);
      var (t, r) := (Feed(inputs[..n]).0, ReferenceFeed(inputs[..n]));
      match inputs[n]
      case Packet(number) => PacketStep(t, r, number);
      case Conceal => ConcealStep(t, r);
    }
  }

  lemma {:induction false} StartsConsistent()
    ensures Consistent(FRESH, Reference(None, None, [], []))
  {
  }

  lemma {:induction false} ConcealStep(t: Track, r: Reference)
    requires Consistent(t, r)
    ensures
      var r' := ReferenceStep(r, Conceal);
      Consistent(OnConcealed(t), r') && r'.answers == r.answers
  {
    hide Agrees;
    if r.ledger.Some? {
      ConcealRefines(t, r.ledger.value);
    }
  }

  /** All the places of the run, closed numberings included, that no packet reached. */
  function TotalMissing(r: Reference): nat {
    if r.ledger.None? then 0 else r.ledger.value.before.missing + |Missing(r.ledger.value)|
  }

  /** All the packets of the run numbered before the packet their numbering started with. */
  function TotalEarly(r: Reference): nat {
    if r.ledger.None? then 0 else r.ledger.value.before.early + |Early(r.ledger.value)|
  }

  /** The published loss is the number of places no packet reached, less the packets older than
      the first one: it is exact if and only if there was none of these, or nothing was lost. */
  lemma {:induction false} LostIsExactUnlessEarly(inputs: seq<Input>)
    ensures
      var lost := Feed(inputs).0.counters.Lost();
      var r := ReferenceFeed(inputs);
      && lost == (if TotalMissing(r) <= TotalEarly(r) then 0 else TotalMissing(r) - TotalEarly(r))
      && (lost == TotalMissing(r) <==> TotalEarly(r) == 0 || TotalMissing(r) == 0)
  {
    RunRefines(inputs);
    var r := ReferenceFeed(inputs);
    if r.ledger.Some? {
      MissingAccount(r.ledger.value);
    }
  }

  /** The input on which the loss is not exact: 100 opens the stream, 99 comes after it, and 101
      never comes. */
  lemma {:induction false} EarlyPacketHidesALoss()
    ensures
      var inputs := [Packet(100), Packet(99), Packet(102)];
      Feed(inputs).0.counters.Lost() == 0 && 101 in Missing(ReferenceFeed(inputs).ledger.value)
  {
    var inputs := [Packet(100), Packet(99), Packet(102)];
    assert inputs[..2] == [Packet(100), Packet(99)] && inputs[..2][..1] == [Packet(100)] && inputs[..2][..1][..0] == [];
    assert Feed(inputs[..2][..1]).0 == StartAt(FRESH, 100);
    assert Feed(inputs[..2]).0.counters == Counters(1, 2, 1, 0, 0);
    assert ReferenceFeed(inputs[..2][..1]).ledger == Some(Reopen(None, 100));
  }
}
