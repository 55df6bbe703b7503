/** What the musician hears, what is recorded as lost and what the browser is told after each operation on
    the devices (jamodio-agent/src/device_loss.rs; jamodio-agent/src/pipeline.rs, `restart_playback` and
    the functions that reopen the output; jamodio-agent/src/ws_server.rs). */
module Reopening {
  import opened Options
  import opened DeviceLosses

  // ------------------------------------------------------------------ the record of losses

  /** After a loss that very loss is recorded, after a return none is; and the browser is told once of each
      of these changes and of nothing else, silent transitions apart. */
  lemma {:induction false} ChangesAreTold(s: Loss, c: Call)
    ensures
      var after := Called(s, c);
      && after.input == (match c
                         case CallInputLost(device, _, reason) => Some(LostInput(device, reason))
                         case CallInputBack => None
                         case CallForget => None
                         case _ => s.input)
      && after.output == (match c
                          case CallFellBack(device, fallback) => Some(LostOutput(device, fallback))
                          case CallFellBackAtOpen(device, fallback) => Some(LostOutput(device, fallback))
                          case CallOutputBack => None
                          case CallForget => None
                          case CallForgetOutput => None
                          case _ => s.output)
      && (c.CallForget? || c.CallTake? ==> after.pending == [])
      && (c.CallForgetOutput? || c.CallFellBackAtOpen? ==> after.pending == s.pending)
      && (!(c.CallForget? || c.CallTake? || c.CallForgetOutput? || c.CallFellBackAtOpen?) ==>
            if after.input == s.input && after.output == s.output then after.pending == s.pending
            else after.pending == s.pending + [Told(s, c)])
  {
  }

  /** The sentence for a change. */
  function Told(s: Loss, c: Call): Event {
    match c
    case CallInputLost(device, keepsOutput, reason) => InputLost(device, keepsOutput, reason)
    case CallFellBack(device, fallback) => OutputLost(device, fallback)
    case CallInputBack => InputRestored(if s.input.Some? then s.input.value.device else "")
    case _ => OutputRestored(if s.output.Some? then s.output.value.device else "")
  }

  // ------------------------------------------------------------------ what sounds

  function NameOf(o: Open): Option<string> {
    if o.Opened? then Some(o.name) else None
  }

  function FallbackName(a: Attempt): Option<string> {
    if a.fallback.Some? then NameOf(a.fallback.value) else None
  }

  /** The system's output stands in for an output that was asked for, unless an ASIO host is both the input
      and the output. */
  predicate StandsIn(asio: bool, requested: Option<string>, a: Attempt) {
    NameOf(a.chosen).None? && requested.Some? && !asio && FallbackName(a).Some?
  }

  /** The best output that opens. */
  function Best(asio: bool, requested: Option<string>, a: Attempt): Option<string> {
    if StandsIn(asio, requested, a) then FallbackName(a) else NameOf(a.chosen)
  }

  /** The sound is lost only when neither the chosen output nor one that may stand in for it opens; and the
      answer says which of the three it is. */
  lemma {:induction false} SoundIsKept(p: Player, a: Attempt)
    ensures
      var (after, how) := Restart(p, a);
      && after.stream == Best(p.asio, p.requested, a)
      && (after.stream.None? <==> !a.chosen.Opened?
                                  && (p.requested.None? || p.asio || a.fallback.None? || !a.fallback.value.Opened?))
      && (how == NoSound <==> after.stream.None?)
      && (how == FellBack <==> StandsIn(p.asio, p.requested, a))
      && after.asio == p.asio && after.requested == p.requested
  {
  }

  predicate Reselects(p: Player, e: Play) {
    e.Select? && e.output != p.requested && p.stream.Some?
  }

  predicate Follows(p: Player, e: Play) {
    e.Follow? && e.capturing && p.requested.None? && !p.asio && p.stream.Some?
  }

  /** The output of a duplex opening. */
  function DuplexName(d: Duplex): Option<string> {
    if d.Streams? then NameOf(d.output) else None
  }

  /** To keep listening, the system's output stands in only for one that is not found. */
  predicate ListensElsewhere(p: Player, a: Attempt) {
    p.stream.None? && a.chosen.NotFound? && p.requested.Some? && FallbackName(a).Some?
  }

  /** What sounds after an operation. */
  function Sounding(p: Player, e: Play): Option<string> {
    match e
    case Select(output, a) => if Reselects(p, e) then Best(p.asio, output, a) else p.stream
    case Return(a) => Best(p.asio, p.requested, a)
    case Follow(_, a) => if Follows(p, e) then NameOf(a.chosen) else p.stream
    case Close => None
    case Recreate(d) => if DuplexName(d).Some? then DuplexName(d) else p.stream
    case StartCapture(reuse, d) => if reuse then p.stream else DuplexName(d)
    case LoseInputOnly(_, a) =>
      if p.stream.Some? then p.stream else if ListensElsewhere(p, a) then FallbackName(a) else NameOf(a.chosen)
    case AddStream(hosted, chosen) => if p.stream.Some? || hosted then p.stream else NameOf(chosen)
    case Note(_) => p.stream
  }

  // ------------------------------------------------------------------ what is recorded and told

  /** The output that stands in from now on, under the name of the one asked for. */
  function StandIn(p: Player, e: Play): Option<LostOutput> {
    match e
    case Select(output, a) =>
      if Reselects(p, e) && StandsIn(p.asio, output, a) then Some(LostOutput(output.value, FallbackName(a).value)) else None
    case Return(a) =>
      if StandsIn(p.asio, p.requested, a) then Some(LostOutput(p.requested.value, FallbackName(a).value)) else None
    case Recreate(d) =>
      if DuplexName(d).Some? && d.fellBack && p.requested.Some?
      then Some(LostOutput(p.requested.value, DuplexName(d).value)) else None
    case StartCapture(reuse, d) =>
      if !reuse && DuplexName(d).Some? && d.fellBack && p.requested.Some?
      then Some(LostOutput(p.requested.value, DuplexName(d).value)) else None
    case LoseInputOnly(_, a) =>
      if ListensElsewhere(p, a) then Some(LostOutput(p.requested.value, FallbackName(a).value)) else None
    case _ => None
  }

  /** The recorded loss of the output is over: the chosen one is back, another one was chosen, or a new
      capture begins. */
  predicate EndsTheLoss(p: Player, e: Play) {
    match e
    case Select(_, _) => Reselects(p, e)
    case Return(a) => a.chosen.Opened?
    case Recreate(d) => DuplexName(d).Some?
    case StartCapture(_, _) => true
    case _ => false
  }

  /** The browser is told of a return: not of a choice it made, nor at the start of a capture. */
  predicate TellsTheReturn(p: Player, e: Play) {
    && p.loss.output.Some?
    && ((e.Return? && e.attempt.chosen.Opened?)
        || (e.Recreate? && DuplexName(e.duplex).Some? && StandIn(p, e).None?))
  }

  /** The browser is told of the output that stands in, unless it knows: it is the one recorded, or the
      start of the capture says so. */
  predicate TellsTheStandIn(p: Player, e: Play) {
    && StandIn(p, e).Some? && !e.StartCapture?
    && (e.Select? || p.loss.output != StandIn(p, e))
  }

  /** What the browser is told of the output. */
  function News(p: Player, e: Play): seq<Event> {
    if TellsTheReturn(p, e) then [OutputRestored(p.loss.output.value.device)]
    else if TellsTheStandIn(p, e) then [OutputLost(StandIn(p, e).value.device, StandIn(p, e).value.fallback)]
    else []
  }

  /** What the browser is told of the input before. */
  function InputNews(p: Player, e: Play): seq<Event> {
    if e.LoseInputOnly? && p.loss.input != Some(LostInput(e.input, Unplugged)) then [InputLost(e.input, true, Unplugged)] else []
  }

  /** After each operation the best output that opens is heard, the output that stands in is recorded
      under the name of the one asked for and nothing else is, and the browser is told of what is new to
      it, the input first. */
  lemma {:induction false} OperationsKeepTheSound(p: Player, e: Play)
    requires !e.Note?
    ensures
      var after := Played(p, e);
      && after.stream == Sounding(p, e)
      && after.requested == (if e.Select? then e.output else p.requested)
      && after.loss.output == (if StandIn(p, e).Some? then StandIn(p, e) else if EndsTheLoss(p, e) then None else p.loss.output)
      && after.loss.input == (match e
                              case StartCapture(_, _) => None
                              case LoseInputOnly(input, _) => Some(LostInput(input, Unplugged))
                              case _ => p.loss.input)
      && after.loss.pending == (if e.StartCapture? then [] else p.loss.pending + InputNews(p, e) + News(p, e))
  {
  }

  // ------------------------------------------------------------------ the watch over a lost input

  /** A lost input is back as soon as it sounds after a rebuild; otherwise it is probed every three seconds,
      but not within nine seconds of a rebuild. */
  lemma {:induction false} LostInputIsProbed(w: Watch, t: Turn)
    requires w.rebuiltAt.Some? ==> w.rebuiltAt.value <= t.now
    ensures StepOf(w, t) == InputBack <==> w.rebuiltAt.Some? && t.advanced
    ensures StepOf(w, t) == ProbeAndRebuild <==>
            && (w.rebuiltAt.Some? ==> !t.advanced && t.now >= w.rebuiltAt.value + 9_000)
            && t.now >= w.lastCheck + 3_000
  {
  }

  /** A probe that finds the input and rebuilds it starts the nine seconds from the end of the rebuild; any
      other probe, a return, and an input that is not lost any more end the wait; only a probe moves the
      clock. */
  lemma {:induction false} ProbeStartsTheWait(w: Watch, t: Turn)
    ensures
      var after := Turned(w, t);
      && (t.lost && StepOf(w, t) == ProbeAndRebuild ==>
            after == Watch(if t.present && t.rebuilt then Some(t.now + t.rebuiltAfter) else None, t.now))
      && (t.lost && StepOf(w, t) == Wait ==> after == w)
      && (!t.lost || StepOf(w, t) == InputBack ==> after == Watch(None, w.lastCheck))
  {
  }
}
