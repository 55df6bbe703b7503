/** Lost devices and what the browser is told about them (jamodio-agent/src/device_loss.rs), with the
    reopening of the output (jamodio-agent/src/pipeline.rs) and the watch over a lost input
    (jamodio-agent/src/ws_server.rs). */
module DeviceLosses {
  import opened Options

  datatype Reason = Unplugged | Silent

  datatype Event =
    | InputLost(device: string, keepsOutput: bool, reason: Reason)
    | InputRestored(device: string)
    | OutputLost(device: string, fallback: string)
    | OutputRestored(device: string)

  datatype LostInput = LostInput(device: string, reason: Reason)

  datatype LostOutput = LostOutput(device: string, fallback: string)

  datatype Loss = Loss(input: Option<LostInput>, output: Option<LostOutput>, pending: seq<Event>)

  const NO_LOSS: Loss := Loss(None, None, [])

  // ------------------------------------------------------------------ the transitions

  function LoseInput(s: Loss, device: string, keepsOutput: bool, reason: Reason): Loss {
    if s.input == Some(LostInput(device, reason)) then s
    else s.(input := Some(LostInput(device, reason)), pending := s.pending + [InputLost(device, keepsOutput, reason)])
  }

  function BringInputBack(s: Loss): Loss {
    match s.input
    case None => s
    case Some(lost) => s.(input := None, pending := s.pending + [InputRestored(lost.device)])
  }

  function FallBack(s: Loss, device: string, fallback: string): Loss {
    if s.output == Some(LostOutput(device, fallback)) then s
    else s.(output := Some(LostOutput(device, fallback)), pending := s.pending + [OutputLost(device, fallback)])
  }

  function FallBackAtOpen(s: Loss, device: string, fallback: string): Loss {
    s.(output := Some(LostOutput(device, fallback)))
  }

  function BringOutputBack(s: Loss): Loss {
    match s.output
    case None => s
    case Some(lost) => s.(output := None, pending := s.pending + [OutputRestored(lost.device)])
  }

  class DeviceLoss {
    var input: Option<LostInput>
    var output: Option<LostOutput>
    var pending: seq<Event>

    function View(): Loss
      reads this
    {
      Loss(input, output, pending)
    }

    constructor ()
      ensures View() == NO_LOSS
    {
      input, output, pending := None, None, [];
    }

    method NoteInputLost(device: string, keepsOutput: bool, reason: Reason)
      modifies this
      ensures View() == LoseInput(old(View()), device, keepsOutput, reason)
    {
      if input.Some? && input.value.device == device && input.value.reason == reason {
        return;
      }
      input := Some(LostInput(device, reason));
      pending := pending + [InputLost(device, keepsOutput, reason)];
    }

    method NoteInputBack()
      modifies this
      ensures View() == BringInputBack(old(View()))
    {
      if input.Some? {
        pending := pending + [InputRestored(input.value.device)];
        input := None;
      }
    }

    method OutputFellBack(device: string, fallback: string)
      modifies this
      ensures View() == FallBack(old(View()), device, fallback)
    {
      if output.Some? && output.value.device == device && output.value.fallback == fallback {
        return;
      }
      output := Some(LostOutput(device, fallback));
      pending := pending + [OutputLost(device, fallback)];
    }

    method OutputFellBackAtOpen(device: string, fallback: string)
      modifies this
      ensures View() == FallBackAtOpen(old(View()), device, fallback)
    {
      output := Some(LostOutput(device, fallback));
    }

    method NoteOutputBack()
      modifies this
      ensures View() == BringOutputBack(old(View()))
    {
      if output.Some? {
        pending := pending + [OutputRestored(output.value.device)];
        output := None;
      }
    }

    method Forget()
      modifies this
      ensures View() == NO_LOSS
    {
      input, output, pending := None, None, [];
    }

    method ForgetOutput()
      modifies this
      ensures View() == old(View()).(output := None)
    {
      output := None;
    }

    method TakeEvents() returns (events: seq<Event>)
      modifies this
      ensures events == old(pending)
      ensures View() == old(View()).(pending := [])
    {
      events := pending;
      pending := [];
    }
  }

  // ------------------------------------------------------------------ runs and their log

  datatype Call =
    | CallInputLost(device: string, keepsOutput: bool, reason: Reason)
    | CallInputBack
    | CallFellBack(device: string, fallback: string)
    | CallFellBackAtOpen(device: string, fallback: string)
    | CallOutputBack
    | CallForget
    | CallForgetOutput
    | CallTake

  /** What happened, in order: the events emitted and the transitions nobody is told of. */
  datatype Entry =
    | Emitted(event: Event)
    | FellBackAtOpen(device: string, fallback: string)
    | Forgotten
    | OutputForgotten
    | Taken

  function Called(s: Loss, c: Call): Loss {
    match c
    case CallInputLost(d, k, r) => LoseInput(s, d, k, r)
    case CallInputBack => BringInputBack(s)
    case CallFellBack(d, f) => FallBack(s, d, f)
    case CallFellBackAtOpen(d, f) => FallBackAtOpen(s, d, f)
    case CallOutputBack => BringOutputBack(s)
    case CallForget => NO_LOSS
    case CallForgetOutput => s.(output := None)
    case CallTake => s.(pending := [])
  }

  /** The entries a call adds: an event is an entry because it was appended to `pending`. */
  function Logged(s: Loss, c: Call): seq<Entry> {
    match c
    case CallFellBackAtOpen(d, f) => [FellBackAtOpen(d, f)]
    case CallForget => [Forgotten]
    case CallForgetOutput => [OutputForgotten]
    case CallTake => [Taken]
    case _ =>
      var after := Called(s, c).pending;
      if |after| > |s.pending| then [Emitted(after[|s.pending|])] else []
  }

  function Run(calls: seq<Call>): Loss {
    if calls == [] then NO_LOSS else Called(Run(calls[..|calls| - 1]), calls[|calls| - 1])
  }

  function Log(calls: seq<Call>): seq<Entry> {
    if calls == [] then [] else
    var n := |calls| - 1;
    Log(calls[..n]) + Logged(Run(calls[..n]), calls[n])
  }

  // ------------------------------------------------------------------ replaying the log

  predicate AboutInput(e: Entry) {
    e.Forgotten? || (e.Emitted? && (e.event.InputLost? || e.event.InputRestored?))
  }

  predicate AboutOutput(e: Entry) {
    || e.Forgotten? || e.OutputForgotten? || e.FellBackAtOpen?
    || (e.Emitted? && (e.event.OutputLost? || e.event.OutputRestored?))
  }

  function InputOf(e: Entry): Option<LostInput> {
    if e.Emitted? && e.event.InputLost? then Some(LostInput(e.event.device, e.event.reason)) else None
  }

  function OutputOf(e: Entry): Option<LostOutput> {
    if e.Emitted? && e.event.OutputLost? then Some(LostOutput(e.event.device, e.event.fallback))
    else if e.FellBackAtOpen? then Some(LostOutput(e.device, e.fallback))
    else None
  }

  /** The lost input according to the last entry about the input; likewise for the output. */
  function ReplayInput(log: seq<Entry>): Option<LostInput> {
    if log == [] then None
    else if AboutInput(log[|log| - 1]) then InputOf(log[|log| - 1])
    else ReplayInput(log[..|log| - 1])
  }

  function ReplayOutput(log: seq<Entry>): Option<LostOutput> {
    if log == [] then None
    else if AboutOutput(log[|log| - 1]) then OutputOf(log[|log| - 1])
    else ReplayOutput(log[..|log| - 1])
  }

  /** The events emitted since the last `Taken` or `Forgotten`. */
  function ReplayPending(log: seq<Entry>): seq<Event> {
    if log == [] then [] else
    var e := log[|log| - 1];
    if e.Taken? || e.Forgotten? then []
    else ReplayPending(log[..|log| - 1]) + (if e.Emitted? then [e.event] else [])
  }

  /** An event is emitted only when the replay of what came before calls for it. */
  predicate Justified(before: seq<Entry>, e: Entry) {
    e.Emitted? ==>
      match e.event
      case InputLost(d, _, r) => ReplayInput(before) != Some(LostInput(d, r))
      case InputRestored(d) => ReplayInput(before).Some? && ReplayInput(before).value.device == d
      case OutputLost(d, f) => ReplayOutput(before) != Some(LostOutput(d, f))
      case OutputRestored(d) => ReplayOutput(before).Some? && ReplayOutput(before).value.device == d
  }

  predicate Honest(log: seq<Entry>) {
    forall j :: 0 <= j < |log| ==> Justified(log[..j], log[j])
  }

  predicate Replays(log: seq<Entry>, s: Loss) {
    s.input == ReplayInput(log) && s.output == ReplayOutput(log) && s.pending == ReplayPending(log)
  }

  lemma {:induction false} OneEntry(log: seq<Entry>, e: Entry)
    ensures ReplayInput(log + [e]) == if AboutInput(e) then InputOf(e) else ReplayInput(log)
    ensures ReplayOutput(log + [e]) == if AboutOutput(e) then OutputOf(e) else ReplayOutput(log)
    ensures ReplayPending(log + [e]) ==
            if e.Taken? || e.Forgotten? then [] else ReplayPending(log) + (if e.Emitted? then [e.event] else [])
  {
    assert (log + [e])[..|log|] == log;
  }

  lemma {:induction false} CallReplays(log: seq<Entry>, s: Loss, c: Call)
    requires Replays(log, s)
    ensures Replays(log + Logged(s, c), Called(s, c))
    ensures |Logged(s, c)| <= 1
    ensures forall e :: e in Logged(s, c) ==> Justified(log, e)
  {
    hide ReplayInput, ReplayOutput, ReplayPending;
    var added := Logged(s, c);
    if added == [] {
      assert log + added == log;
    } else {
      OneEntry(log, added[0]);
      assert added == [added[0]];
    }
  }

  lemma {:induction false} HonestGrows(log: seq<Entry>, e: Entry)
    requires Honest(log) && Justified(log, e)
    ensures Honest(log + [e])
  {
    hide Justified;
    var longer := log + [e];
    forall j | 0 <= j < |longer|
      ensures Justified(longer[..j], longer[j])
    {
      assert longer[..j] == log[..j];
    }
  }

  /** Over any run, the state is the replay of the log: the events emitted and the silent
      transitions say it all, and no event is emitted without its cause. */
  lemma {:induction false} StateIsReplay(calls: seq<Call>)
    ensures Replays(Log(calls), Run(calls)) && Honest(Log(calls))
  {
    if calls != [] {
      hide Replays, Honest, Logged, Called;
      var n := |calls| - 1;
      var log, s := Log(calls[..n]), Run(calls[..n]);
      StateIsReplay(calls[..n]);
      CallReplays(log, s, calls[n]);
      var added := Logged(s, calls[n]);
      if added == [] {
        assert log + added == log;
      } else {
        HonestGrows(log, added[0]);
        assert added == [added[0]];
      }
    }
  }

  lemma {:induction false} InputWasLost(log: seq<Entry>) returns (i: nat)
    requires ReplayInput(log).Some?
    ensures i < |log| && AboutInput(log[i]) && InputOf(log[i]) == ReplayInput(log)
    ensures forall m :: i < m < |log| ==> !AboutInput(log[m])
  {
    var n := |log| - 1;
    if AboutInput(log[n]) {
      i := n;
    } else {
      i := InputWasLost(log[..n]);
    }
  }

  lemma {:induction false} OutputWasLost(log: seq<Entry>) returns (i: nat)
    requires ReplayOutput(log).Some?
    ensures i < |log| && AboutOutput(log[i]) && OutputOf(log[i]) == ReplayOutput(log)
    ensures forall m :: i < m < |log| ==> !AboutOutput(log[m])
  {
    var n := |log| - 1;
    if AboutOutput(log[n]) {
      i := n;
    } else {
      i := OutputWasLost(log[..n]);
    }
  }

  /** The last of the entries of an interval that are about the input. */
  lemma {:induction false} LastAboutInput(log: seq<Entry>, i: nat)
    requires i < |log| && AboutInput(log[i])
    ensures ReplayInput(log) == InputOf(log[i]) || exists m :: i < m < |log| && AboutInput(log[m])
  {
    var n := |log| - 1;
    if i < n && !AboutInput(log[n]) {
      LastAboutInput(log[..n], i);
    }
  }

  lemma {:induction false} LastAboutOutput(log: seq<Entry>, i: nat)
    requires i < |log| && AboutOutput(log[i])
    ensures ReplayOutput(log) == OutputOf(log[i]) || exists m :: i < m < |log| && AboutOutput(log[m])
  {
    var n := |log| - 1;
    if i < n && !AboutOutput(log[n]) {
      LastAboutOutput(log[..n], i);
    }
  }

  /** The return of an input is announced only after a recorded loss of that very input, with
      nothing about the input in between. */
  lemma {:induction false} InputReturnFollowsItsLoss(calls: seq<Call>, j: nat) returns (i: nat)
    requires j < |Log(calls)| && Log(calls)[j].Emitted? && Log(calls)[j].event.InputRestored?
    ensures i < j && InputOf(Log(calls)[i]).Some?
    ensures InputOf(Log(calls)[i]).value.device == Log(calls)[j].event.device
    ensures forall m :: i < m < j ==> !AboutInput(Log(calls)[m])
  {
    hide ReplayInput, ReplayOutput, Log;
    StateIsReplay(calls);
    var log := Log(calls);
    assert Justified(log[..j], log[j]);
    i := InputWasLost(log[..j]);
  }

  /** The same for the output, where a fallback at opening counts as a loss. */
  lemma {:induction false} OutputReturnFollowsItsLoss(calls: seq<Call>, j: nat) returns (i: nat)
    requires j < |Log(calls)| && Log(calls)[j].Emitted? && Log(calls)[j].event.OutputRestored?
    ensures i < j && OutputOf(Log(calls)[i]).Some?
    ensures OutputOf(Log(calls)[i]).value.device == Log(calls)[j].event.device
    ensures forall m :: i < m < j ==> !AboutOutput(Log(calls)[m])
  {
    hide ReplayInput, ReplayOutput, Log;
    StateIsReplay(calls);
    var log := Log(calls);
    assert Justified(log[..j], log[j]);
    i := OutputWasLost(log[..j]);
  }

  /** The same loss is never announced twice without something about that direction in between. */
  lemma {:induction false} LossIsNotRepeated(calls: seq<Call>, i: nat, j: nat)
    requires i < j < |Log(calls)|
    requires Log(calls)[i].Emitted? && Log(calls)[j].Emitted?
    ensures
      var log := Log(calls);
      && (log[i].event.InputLost? && log[j].event.InputLost? && InputOf(log[i]) == InputOf(log[j])
          ==> exists m :: i < m < j && AboutInput(log[m]))
      && (log[i].event.OutputLost? && log[j].event == log[i].event
          ==> exists m :: i < m < j && AboutOutput(log[m]))
  {
    hide ReplayInput, ReplayOutput;
    StateIsReplay(calls);
    var log := Log(calls);
    assert Justified(log[..j], log[j]);
    if log[i].event.InputLost? && log[j].event.InputLost? && InputOf(log[i]) == InputOf(log[j]) {
      LastAboutInput(log[..j], i);
      var m :| i < m < j && AboutInput(log[..j][m]);
      assert AboutInput(log[m]);
    }
    if log[i].event.OutputLost? && log[j].event == log[i].event {
      LastAboutOutput(log[..j], i);
      var m :| i < m < j && AboutOutput(log[..j][m]);
      assert AboutOutput(log[m]);
    }
  }

  // ------------------------------------------------------------------ reopening the output

  datatype Open = Opened(name: string) | NotFound | BuildFailed

  datatype Reopen = Chosen | FellBack | NoSound

  /** `fallback` is the answer of the default output of the system, when there is one. */
  datatype Attempt = Attempt(chosen: Open, fallback: Option<Open>)

  datatype Player = Player(asio: bool, requested: Option<string>, stream: Option<string>, loss: Loss)

  function Restart(p: Player, a: Attempt): (Player, Reopen) {
    if a.chosen.Opened? then (p.(stream := Some(a.chosen.name)), Chosen)
    else if p.requested.Some? && !p.asio && a.fallback.Some? && a.fallback.value.Opened? then
      var name := a.fallback.value.name;
      (p.(stream := Some(name), loss := FallBack(p.loss, p.requested.value, name)), FellBack)
    else (p.(stream := None), NoSound)
  }

  function ReturnToChosen(p: Player, a: Attempt): Player {
    var (after, how) := Restart(p, a);
    if how == Chosen then after.(loss := BringOutputBack(after.loss)) else after
  }

  function SelectOutput(p: Player, output: Option<string>, a: Attempt): Player {
    var chosen := p.(requested := output);
    if p.requested != output && p.stream.Some? then
      Restart(chosen.(loss := p.loss.(output := None)), a).0
    else chosen
  }

  /** `follow_os_default_output`: only while the system's default is the choice. */
  function FollowDefault(p: Player, capturing: bool, a: Attempt): Player {
    if p.requested.None? && !p.asio && p.stream.Some? && capturing then Restart(p, a).0 else p
  }

  /** What opening the input and the output together gives: nothing, an ASIO host that is both, or
      two streams of which the output may have failed or fallen back on the system's. */
  datatype Duplex = NoDuplex | Host | Streams(output: Open, fellBack: bool)

  /** The streams are recreated after a reset; `NoDuplex` also stands for a session that is over. */
  function Rebuild(p: Player, d: Duplex): Player {
    if !d.Streams? || !d.output.Opened? then p else
    var name := d.output.name;
    p.(stream := Some(name),
       loss := if d.fellBack && p.requested.Some? then FallBack(p.loss, p.requested.value, name) else BringOutputBack(p.loss))
  }

  /** A new capture: on the warm driver, or after closing everything. */
  function Prepare(p: Player, reuse: bool, d: Duplex): Player {
    var anew := p.(loss := NO_LOSS);
    if reuse then anew
    else if !d.Streams? || !d.output.Opened? then anew.(stream := None)
    else
      var name := d.output.name;
      anew.(stream := Some(name),
              loss := if d.fellBack && p.requested.Some? then FallBackAtOpen(NO_LOSS, p.requested.value, name) else NO_LOSS)
  }

  /** The input is gone: the output is opened alone, on the system's if the chosen one is not found. */
  function KeepListening(p: Player, input: string, a: Attempt): Player {
    var q := p.(loss := LoseInput(p.loss, input, true, Unplugged));
    if p.stream.Some? then q
    else if a.chosen.Opened? then q.(stream := Some(a.chosen.name))
    else if a.chosen.NotFound? && p.requested.Some? && a.fallback.Some? && a.fallback.value.Opened? then
      var name := a.fallback.value.name;
      q.(stream := Some(name), loss := FallBack(q.loss, p.requested.value, name))
    else q
  }

  /** A received stream opens the output if nothing plays; `hosted` when an ASIO host is the output. */
  function OpenForStream(p: Player, hosted: bool, chosen: Open): Player {
    if p.stream.None? && !hosted && chosen.Opened? then p.(stream := Some(chosen.name)) else p
  }

  class Playback {
    const asio: bool
    var requested: Option<string>
    var stream: Option<string>
    const loss: DeviceLoss

    function View(): Player
      reads this, loss
    {
      Player(asio, requested, stream, loss.View())
    }

    constructor (asio: bool, requested: Option<string>)
      ensures fresh(loss) && View() == Player(asio, requested, None, NO_LOSS)
    {
      this.asio, this.requested, this.stream := asio, requested, None;
      loss := new DeviceLoss();
    }

    /** Closes the output, then reopens the chosen one, or failing that the system's. */
    method RestartPlayback(a: Attempt) returns (how: Reopen)
      modifies this`stream, loss
      ensures (View(), how) == Restart(old(View()), a)
    {
      hide FallBack;
      stream := None;
      if a.chosen.Opened? {
        stream := Some(a.chosen.name);
        return Chosen;
      }
      if requested.Some? && !asio && a.fallback.Some? && a.fallback.value.Opened? {
        stream := Some(a.fallback.value.name);
        loss.OutputFellBack(requested.value, a.fallback.value.name);
        return FellBack;
      }
      return NoSound;
    }

    method ReturnToChosenOutput(a: Attempt)
      modifies this`stream, loss
      ensures View() == ReturnToChosen(old(View()), a)
    {
      hide FallBack, BringOutputBack;
      var how := RestartPlayback(a);
      if how == Chosen {
        loss.NoteOutputBack();
      }
    }

    method SelectDevices(output: Option<string>, a: Attempt)
      modifies this, loss
      ensures View() == SelectOutput(old(View()), output, a)
    {
      hide FallBack;
      var changed := requested != output;
      requested := output;
      if changed && stream.Some? {
        loss.ForgetOutput();
        var _ := RestartPlayback(a);
      }
    }

    method FollowOsDefault(capturing: bool, a: Attempt)
      modifies this`stream, loss
      ensures View() == FollowDefault(old(View()), capturing, a)
    {
      hide Restart;
      if requested.None? && !asio && stream.Some? && capturing {
        var _ := RestartPlayback(a);
      }
    }

    method CloseStreams()
      modifies this`stream
      ensures View() == old(View()).(stream := None)
    {
      stream := None;
    }

    method RebuildStreams(d: Duplex)
      modifies this`stream, loss
      ensures View() == Rebuild(old(View()), d)
    {
      hide FallBack, BringOutputBack;
      if !d.Streams? || !d.output.Opened? {
        return;
      }
      stream := Some(d.output.name);
      if d.fellBack && requested.Some? {
        loss.OutputFellBack(requested.value, d.output.name);
      } else {
        loss.NoteOutputBack();
      }
    }

    method PrepareOutput(reuse: bool, d: Duplex)
      modifies this`stream, loss
      ensures View() == Prepare(old(View()), reuse, d)
    {
      loss.Forget();
      if reuse {
        return;
      }
      stream := None;
      if !d.Streams? || !d.output.Opened? {
        return;
      }
      stream := Some(d.output.name);
      if d.fellBack && requested.Some? {
        loss.OutputFellBackAtOpen(requested.value, d.output.name);
      }
    }

    method KeepListeningWithoutInput(input: string, a: Attempt)
      modifies this`stream, loss
      ensures View() == KeepListening(old(View()), input, a)
    {
      hide FallBack, LoseInput;
      loss.NoteInputLost(input, true, Unplugged);
      if stream.Some? {
        return;
      }
      var open, fellBackFrom := a.chosen, None;
      if open.NotFound? && requested.Some? {
        if a.fallback.Some? {
          open := a.fallback.value;
        }
        fellBackFrom := requested;
      }
      if open.Opened? {
        stream := Some(open.name);
        if fellBackFrom.Some? {
          loss.OutputFellBack(fellBackFrom.value, open.name);
        }
      }
    }

    method OpenOutputForStream(hosted: bool, chosen: Open)
      modifies this`stream
      ensures View() == OpenForStream(old(View()), hosted, chosen)
    {
      if stream.None? && !hosted && chosen.Opened? {
        stream := Some(chosen.name);
      }
    }
  }

  /** A return is announced exactly when a loss is recorded and the chosen output itself reopens: a
      reopening on a fallback announces none, and says so if the fallback is a new one. */
  lemma {:induction false} ReturnIsAnnouncedOnlyByTheChosen(p: Player, a: Attempt)
    ensures
      var after := ReturnToChosen(p, a);
      && (a.chosen.Opened? && p.loss.output.Some? ==>
            after.loss == Loss(p.loss.input, None, p.loss.pending + [OutputRestored(p.loss.output.value.device)]))
      && (!(a.chosen.Opened? && p.loss.output.Some?) ==>
            && after.loss.input == p.loss.input
            && p.loss.pending <= after.loss.pending
            && forall k :: |p.loss.pending| <= k < |after.loss.pending| ==> after.loss.pending[k].OutputLost?)
  {
  }

  // ------------------------------------------------------------------ runs of the output

  datatype Play =
    | Select(output: Option<string>, attempt: Attempt)
    | Return(attempt: Attempt)
    | Follow(capturing: bool, attempt: Attempt)
    | Close
    | Recreate(duplex: Duplex)
    | StartCapture(reuse: bool, duplex: Duplex)
    | LoseInputOnly(input: string, attempt: Attempt)
    | AddStream(hosted: bool, chosen: Open)
    /** The calls about the input, and the relay of the events. */
    | Note(call: Call)

  predicate InputCall(c: Call) {
    c.CallInputLost? || c.CallInputBack? || c.CallTake?
  }

  function Played(p: Player, e: Play): Player {
    match e
    case Select(output, a) => SelectOutput(p, output, a)
    case Return(a) => ReturnToChosen(p, a)
    case Follow(capturing, a) => FollowDefault(p, capturing, a)
    case Close => p.(stream := None)
    case Recreate(d) => Rebuild(p, d)
    case StartCapture(reuse, d) => Prepare(p, reuse, d)
    case LoseInputOnly(input, a) => KeepListening(p, input, a)
    case AddStream(hosted, chosen) => OpenForStream(p, hosted, chosen)
    case Note(c) => if InputCall(c) then p.(loss := Called(p.loss, c)) else p
  }

  function Silent(asio: bool, requested: Option<string>): Player {
    Player(asio, requested, None, NO_LOSS)
  }

  function RunOutput(p: Player, steps: seq<Play>): Player {
    if steps == [] then p else Played(RunOutput(p, steps[..|steps| - 1]), steps[|steps| - 1])
  }

  /** A recorded loss is that of the output asked for. */
  predicate Named(p: Player) {
    p.loss.output.Some? ==> p.requested == Some(p.loss.output.value.device)
  }

  /** Another output is chosen while none plays: the loss of the former one is not forgotten. */
  predicate SelectsInSilence(p: Player, e: Play) {
    e.Select? && p.stream.None? && p.loss.output.Some? && e.output != p.requested
  }

  /** Each operation keeps it, with one exception and exactly this one. */
  lemma {:induction false} NamedUnlessSelectedInSilence(p: Player, e: Play)
    requires Named(p)
    ensures Named(Played(p, e)) <==> !SelectsInSilence(p, e)
  {
  }

  /** After the run and after each of its beginnings. */
  predicate NamedAllAlong(p: Player, steps: seq<Play>) {
    Named(RunOutput(p, steps)) && (steps != [] ==> NamedAllAlong(p, steps[..|steps| - 1]))
  }

  predicate NeverInSilence(p: Player, steps: seq<Play>) {
    steps != [] ==>
      var before := steps[..|steps| - 1];
      !SelectsInSilence(RunOutput(p, before), steps[|steps| - 1]) && NeverInSilence(p, before)
  }

  /** Over any run, the recorded loss is all along that of the output asked for exactly when no other
      output is chosen while one is lost and none plays. */
  lemma {:induction false} LossIsNamed(p: Player, steps: seq<Play>)
    requires Named(p)
    ensures NamedAllAlong(p, steps) <==> NeverInSilence(p, steps)
  {
    hide Named, Played, SelectsInSilence;
    if steps != [] {
      var before := steps[..|steps| - 1];
      LossIsNamed(p, before);
      if NamedAllAlong(p, before) {
        NamedUnlessSelectedInSilence(RunOutput(p, before), steps[|steps| - 1]);
      }
    }
  }

  /** The sound goes through the fallback named to the browser, or nowhere. */
  predicate Heard(p: Player) {
    p.loss.output.Some? && p.stream.Some? ==> p.stream == Some(p.loss.output.value.fallback)
  }

  /** The output opened without telling the record of losses: for a received stream, to keep listening
      without an input, or to follow the default of the system. */
  function QuietlyOpened(p: Player, e: Play): Option<string> {
    match e
    case AddStream(hosted, chosen) => if p.stream.None? && !hosted && chosen.Opened? then Some(chosen.name) else None
    case LoseInputOnly(_, a) => if p.stream.None? && a.chosen.Opened? then Some(a.chosen.name) else None
    case Follow(capturing, a) =>
      if p.requested.None? && !p.asio && p.stream.Some? && capturing && a.chosen.Opened? then Some(a.chosen.name) else None
    case _ => None
  }

  /** While an output is lost, another device than its fallback is opened in one of these ways. */
  predicate ReturnsQuietly(p: Player, e: Play) {
    && p.loss.output.Some? && QuietlyOpened(p, e).Some?
    && QuietlyOpened(p, e).value != p.loss.output.value.fallback
  }

  /** Each operation keeps it, with one exception and exactly this one: the return of the chosen output
      is not noticed. */
  lemma {:induction false} HeardUnlessQuietlyOpened(p: Player, e: Play)
    requires Heard(p)
    ensures Heard(Played(p, e)) <==> !ReturnsQuietly(p, e)
  {
  }

  predicate HeardAllAlong(p: Player, steps: seq<Play>) {
    Heard(RunOutput(p, steps)) && (steps != [] ==> HeardAllAlong(p, steps[..|steps| - 1]))
  }

  predicate NeverQuietly(p: Player, steps: seq<Play>) {
    steps != [] ==>
      var before := steps[..|steps| - 1];
      !ReturnsQuietly(RunOutput(p, before), steps[|steps| - 1]) && NeverQuietly(p, before)
  }

  /** Over any run, the sound goes all along through the fallback named to the browser, or nowhere,
      exactly when no output is opened quietly in this way. */
  lemma {:induction false} FallbackIsHeard(p: Player, steps: seq<Play>)
    requires Heard(p)
    ensures HeardAllAlong(p, steps) <==> NeverQuietly(p, steps)
  {
    hide Heard, Played, ReturnsQuietly;
    if steps != [] {
      var before := steps[..|steps| - 1];
      FallbackIsHeard(p, before);
      if HeardAllAlong(p, before) {
        HeardUnlessQuietlyOpened(RunOutput(p, before), steps[|steps| - 1]);
      }
    }
  }

  /** A run where that happens: the chosen output is lost, the streams are closed to be recreated, the
      input turns out to be missing, and the chosen output is back: it plays, and is still recorded as
      lost. */
  lemma {:induction false} ReturnUnnoticed()
    ensures
      var steps := [StartCapture(false, Streams(Opened("system"), true)), Close,
                    LoseInputOnly("microphone", Attempt(Opened("X"), None))];
      var p := RunOutput(Silent(false, Some("X")), steps);
      p.stream == Some("X") && p.loss.output == Some(LostOutput("X", "system")) && Named(p) && !Heard(p)
  {
    var s0 := Silent(false, Some("X"));
    var a := StartCapture(false, Streams(Opened("system"), true));
    var c := LoseInputOnly("microphone", Attempt(Opened("X"), None));
    ThreeSteps(s0, a, Close, c);
  }

  lemma {:induction false} ThreeSteps(p: Player, a: Play, b: Play, c: Play)
    ensures RunOutput(p, [a, b, c]) == Played(Played(Played(p, a), b), c)
  {
    hide Played;
    assert [a][..0] == [] && [a, b][..1] == [a] && [a, b, c][..2] == [a, b];
    assert RunOutput(p, [a]) == Played(p, a);
    assert RunOutput(p, [a, b]) == Played(RunOutput(p, [a]), b);
  }

  /** The return announced by a step, if any. */
  function Announced(p: Player, e: Play): Option<string> {
    match e
    case Return(a) => if a.chosen.Opened? && p.loss.output.Some? then Some(p.loss.output.value.device) else None
    case Recreate(d) =>
      if d.Streams? && d.output.Opened? && !(d.fellBack && p.requested.Some?) && p.loss.output.Some?
      then Some(p.loss.output.value.device) else None
    case _ => None
  }

  lemma {:induction false} AnnouncedIsEmitted(p: Player, e: Play)
    ensures
      Announced(p, e).Some? <==>
        |Played(p, e).loss.pending| > |p.loss.pending| && Played(p, e).loss.pending[|p.loss.pending|].OutputRestored?
    ensures Announced(p, e).Some? ==>
              Played(p, e).loss.pending == p.loss.pending + [OutputRestored(Announced(p, e).value)]
  {
  }

  /** Over any run without a choice made in silence, a return told to the browser names the output
      asked for. */
  lemma {:induction false} ReturnsNameTheOutputAskedFor(p: Player, steps: seq<Play>, e: Play)
    requires Named(p) && NeverInSilence(p, steps)
    ensures
      var q := RunOutput(p, steps);
      var told := Played(q, e).loss.pending;
      |told| > |q.loss.pending| && told[|q.loss.pending|].OutputRestored? ==>
        q.requested.Some? && told == q.loss.pending + [OutputRestored(q.requested.value)]
  {
    hide RunOutput, Played;
    LossIsNamed(p, steps);
    AnnouncedIsEmitted(RunOutput(p, steps), e);
  }

  /** And a run with such a choice where the browser is told of the return of an output that is not
      the one opened: X is missing from the start, nothing can be reopened after a reset, Z is chosen,
      and X is plugged in again. */
  lemma {:induction false} WrongReturnAnnounced()
    ensures
      var steps := [StartCapture(false, Streams(Opened("system"), true)), Close, Recreate(Streams(BuildFailed, false)),
                    Select(Some("Z"), Attempt(NotFound, None)), Return(Attempt(Opened("Z"), None))];
      var p := RunOutput(Silent(false, Some("X")), steps);
      p.stream == Some("Z") && p.loss.pending == [OutputRestored("X")]
  {
    var s0 := Silent(false, Some("X"));
    var a, b, c := StartCapture(false, Streams(Opened("system"), true)), Close, Recreate(Streams(BuildFailed, false));
    var d, e := Select(Some("Z"), Attempt(NotFound, None)), Return(Attempt(Opened("Z"), None));
    ThreeSteps(s0, a, b, c);
    assert [a, b, c, d][..3] == [a, b, c];
    assert [a, b, c, d, e][..4] == [a, b, c, d];
    var lost := Loss(None, Some(LostOutput("X", "system")), []);
    assert RunOutput(s0, [a, b, c]) == Player(false, Some("X"), None, lost);
    assert RunOutput(s0, [a, b, c, d]) == Player(false, Some("Z"), None, lost);
  }

  // ------------------------------------------------------------------ watching a lost input

  const REBUILD_CONFIRM_WINDOW: nat := 9_000
  const LOST_DEVICE_POLL: nat := 3_000

  datatype LostInputStep = Wait | ProbeAndRebuild | InputBack

  function NextStep(sinceRebuild: Option<nat>, captureAdvanced: bool, pollDue: bool): LostInputStep {
    if sinceRebuild.Some? && captureAdvanced then InputBack
    else if sinceRebuild.Some? && sinceRebuild.value < REBUILD_CONFIRM_WINDOW then Wait
    else if pollDue then ProbeAndRebuild
    else Wait
  }

  /** One turn of the supervisor for an input whose output goes on alone. `rebuiltAfter` is how long
      a successful rebuild took; times are in milliseconds. */
  datatype Turn = Turn(now: nat, lost: bool, advanced: bool, present: bool, rebuilt: bool, rebuiltAfter: nat)

  datatype Watch = Watch(rebuiltAt: Option<nat>, lastCheck: nat)

  function StepOf(w: Watch, t: Turn): LostInputStep {
    var since := match w.rebuiltAt { case Some(at) => Some(if t.now < at then 0 else t.now - at) case None => None };
    NextStep(since, t.advanced, t.now >= w.lastCheck + LOST_DEVICE_POLL)
  }

  predicate Rebuilds(w: Watch, t: Turn) {
    t.lost && StepOf(w, t) == ProbeAndRebuild && t.present && t.rebuilt
  }

  function Turned(w: Watch, t: Turn): Watch {
    if !t.lost then w.(rebuiltAt := None) else
    match StepOf(w, t)
    case InputBack => w.(rebuiltAt := None)
    case Wait => w
    case ProbeAndRebuild => Watch(if Rebuilds(w, t) then Some(t.now + t.rebuiltAfter) else None, t.now)
  }

  function Watched(w: Watch, turns: seq<Turn>): Watch {
    if turns == [] then w else Turned(Watched(w, turns[..|turns| - 1]), turns[|turns| - 1])
  }

  predicate Ordered(turns: seq<Turn>) {
    forall i, j :: 0 <= i < j < |turns| ==> turns[i].now + turns[i].rebuiltAfter <= turns[j].now
  }

  predicate StillSilent(turns: seq<Turn>, from: nat) {
    forall k :: from <= k < |turns| ==> turns[k].lost && !turns[k].advanced
  }

  lemma {:induction false} QuietTurn(w: Watch, t: Turn, at: nat)
    requires t.lost && !t.advanced && w.rebuiltAt == Some(at)
    ensures Turned(w, t).rebuiltAt == Some(at) || t.now >= at + REBUILD_CONFIRM_WINDOW
  {
  }

  lemma {:induction false} RebuiltNow(w: Watch, t: Turn)
    requires Rebuilds(w, t)
    ensures Turned(w, t).rebuiltAt == Some(t.now + t.rebuiltAfter)
  {
  }

  /** The turns before the last one are in order and silent too, and no later than it. */
  lemma {:induction false} TurnsBefore(turns: seq<Turn>, i: nat)
    requires i < |turns| - 1 && Ordered(turns) && StillSilent(turns, i)
    ensures
      var n := |turns| - 1;
      var before := turns[..n];
      && Ordered(before) && StillSilent(before, i) && before[..i] == turns[..i] && before[i] == turns[i]
      && turns[n].lost && !turns[n].advanced && before[n - 1].now <= turns[n].now
  {
    var n := |turns| - 1;
    assert turns[n - 1].now + turns[n - 1].rebuiltAfter <= turns[n].now;
  }

  /** After a rebuild the input that stays lost and silent is either still waited for, or has been
      probed again no sooner than the window. */
  lemma {:induction false} WindowHolds(w: Watch, turns: seq<Turn>, i: nat)
    requires i < |turns| && Ordered(turns) && StillSilent(turns, i)
    requires Rebuilds(Watched(w, turns[..i]), turns[i])
    ensures
      var at := turns[i].now + turns[i].rebuiltAfter;
      || Watched(w, turns).rebuiltAt == Some(at)
      || turns[|turns| - 1].now >= at + REBUILD_CONFIRM_WINDOW
    decreases |turns|
  {
    hide Turned, Rebuilds, Ordered, StillSilent;
    var n := |turns| - 1;
    if i < n {
      TurnsBefore(turns, i);
      WindowHolds(w, turns[..n], i);
      var at := turns[i].now + turns[i].rebuiltAfter;
      if Watched(w, turns[..n]).rebuiltAt == Some(at) {
        QuietTurn(Watched(w, turns[..n]), turns[n], at);
      }
    } else {
      RebuiltNow(Watched(w, turns[..n]), turns[n]);
    }
  }

  /** Two successful rebuilds of an input that stays silent are at least the confirmation window
      apart, from the end of the first to the start of the second. */
  lemma {:induction false} RebuildsAreSpaced(w: Watch, turns: seq<Turn>, i: nat, j: nat)
    requires i < j < |turns| && Ordered(turns[..j + 1]) && StillSilent(turns[..j + 1], i)
    requires Rebuilds(Watched(w, turns[..i]), turns[i])
    requires Rebuilds(Watched(w, turns[..j]), turns[j])
    ensures turns[j].now >= turns[i].now + turns[i].rebuiltAfter + REBUILD_CONFIRM_WINDOW
  {
    assert turns[..j][..i] == turns[..i];
    assert Ordered(turns[..j]) && StillSilent(turns[..j], i) by {
      assert forall k :: 0 <= k < j ==> turns[..j][k] == turns[..j + 1][k];
    }
    WindowHolds(w, turns[..j], i);
    assert turns[..j + 1][j - 1] == turns[..j][j - 1] && turns[..j + 1][j] == turns[j];
  }

  /** The state of the watch since the rebuild of turn `i`: waiting for sound ever since. */
  ghost predicate WaitsSince(w: Watch, turns: seq<Turn>, i: nat) {
    && i < |turns| && Rebuilds(Watched(w, turns[..i]), turns[i])
    && forall k :: i < k < |turns| ==> turns[k].lost && StepOf(Watched(w, turns[..k]), turns[k]) == Wait
  }

  lemma {:induction false} AwaitsARebuild(w: Watch, turns: seq<Turn>) returns (i: nat)
    requires w.rebuiltAt.None? && Watched(w, turns).rebuiltAt.Some?
    ensures WaitsSince(w, turns, i)
  {
    var n := |turns| - 1;
    var before := turns[..n];
    assert forall k :: 0 <= k <= n ==> before[..k] == turns[..k];
    if Rebuilds(Watched(w, before), turns[n]) {
      i := n;
    } else {
      assert Watched(w, before).rebuiltAt.Some?;
      i := AwaitsARebuild(w, before);
    }
  }

  /** Where the output outlives the input, an input is declared back only by sound delivered since a
      successful rebuild, and it has been lost, and waited for, at every turn in between. */
  lemma {:induction false} InputBackNeedsARebuild(w: Watch, turns: seq<Turn>, j: nat) returns (i: nat)
    requires w.rebuiltAt.None? && j < |turns| && turns[j].lost
    requires StepOf(Watched(w, turns[..j]), turns[j]) == InputBack
    ensures i < j && WaitsSince(w, turns[..j], i) && turns[j].advanced
  {
    i := AwaitsARebuild(w, turns[..j]);
  }
}
