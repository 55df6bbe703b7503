/** Sessions over an audio driver that is kept warm (jamodio-agent/src/pipeline.rs,
    `teardown_session`, `close_audio_driver`, `park`, `leave_session`, `stop_all`,
    `close_warm_if_grace_expired`, `prepare_audio_for_session`, `start_capture`). */
module Sessions {
  import opened Options

  const NATIVE_RATE: nat := 48_000

  /** The driver kept open between sessions, with the devices it was opened for. */
  datatype Warm = Warm(input: Option<string>, output: Option<string>, rate: nat, parkedSince: Option<nat>)

  /** `open` is the serial number of the opening that made the audio streams in use; `recycle` asks for
      a fresh apartment before the next cold opening, and `recycled` counts those made. */
  datatype Driver = Driver(open: Option<nat>, openings: nat, channel: bool, warm: Option<Warm>, recycle: bool,
                           recycled: nat)

  /** What lives with one capture. */
  datatype Capture = Capture(feeding: bool, encoder: bool, uplink: bool, voice: bool, voiceControl: bool,
                             named: bool, selfMonitor: bool)

  /** What lives as long as the session: reception, and what keeps the machine awake and on time. */
  datatype Listening = Listening(streams: set<string>, settings: set<string>, thread: bool, keepAwake: bool,
                                 timer: bool, sfu: bool)

  datatype Session = Session(windows: bool, asio: bool, input: Option<string>, output: Option<string>, capturing: bool,
                             recording: bool, inputCut: bool, muted: bool,
                             driver: Driver, capture: Capture, listening: Listening)

  const NO_LISTENING: Listening := Listening({}, {}, false, false, false, false)

  const QUIET: Capture := Capture(false, false, false, false, false, false, false)

  // ------------------------------------------------------------------ the operations

  function Teardown(s: Session, preservePeers: bool): Session {
    s.(capture := QUIET, listening := if preservePeers then s.listening else NO_LISTENING)
  }

  function CloseDriver(d: Driver): Driver {
    d.(open := None, channel := false, warm := None)
  }

  function Park(s: Session, now: nat): Session {
    var t := Teardown(s.(recording := false), false);
    var warm := match t.driver.warm { case Some(w) => Some(w.(parkedSince := Some(now))) case None => None };
    t.(driver := t.driver.(warm := warm), capturing := false)
  }

  function StopAll(s: Session): Session {
    var t := Teardown(s.(recording := false), false);
    t.(driver := CloseDriver(t.driver), capturing := false)
  }

  function Leave(s: Session, now: nat): Session {
    if s.asio && s.driver.warm.Some? then if s.capturing then Park(s, now) else s
    else StopAll(s)
  }

  predicate GraceExpired(d: Driver, now: nat, grace: nat) {
    d.warm.Some? && d.warm.value.parkedSince.Some? && now >= d.warm.value.parkedSince.value + grace
  }

  function CloseIfExpired(s: Session, now: nat, grace: nat): Session {
    if GraceExpired(s.driver, now, grace) then s.(driver := CloseDriver(s.driver).(recycle := true)) else s
  }

  datatype Opening = OpenFailed | Opened(rate: nat)

  datatype Trouble = NoTrouble | BadAddress | NoSecureContext | NoSocket | NoThread

  /** One demand to start, and what the machine answers to it. */
  datatype Demand = Demand(continues: bool, rateValid: bool, opening: Opening, trouble: Trouble, withoutReports: bool)

  datatype Answer = Started | NoAsio | NotOpened | WrongRate(rate: nat) | Failed(trouble: Trouble)

  predicate Reuses(s: Session, rateValid: bool) {
    && s.asio && s.driver.open.Some?
    && s.driver.warm.Some? && s.driver.warm.value.input == s.input && s.driver.warm.value.output == s.output
    && rateValid
  }

  function Reused(s: Session, preservePeers: bool): Session {
    var t := Teardown(s, preservePeers);
    match t.driver.warm
    case Some(w) => t.(driver := t.driver.(warm := Some(w.(parkedSince := None))))
    case None => t
  }

  /** The driver after a cold opening, in a fresh apartment if one is due. */
  function Reopened(d: Driver, asio: bool, input: Option<string>, output: Option<string>, opening: Opening): Driver {
    var closed := CloseDriver(d).(recycle := false, channel := true, recycled := d.recycled + (if d.recycle then 1 else 0));
    match opening
    case OpenFailed => closed
    case Opened(rate) =>
      closed.(open := Some(d.openings), openings := d.openings + 1,
              warm := if asio then Some(Warm(input, output, rate, None)) else None)
  }

  function Cold(s: Session, preservePeers: bool, opening: Opening): Session {
    var t := Teardown(s, preservePeers);
    t.(driver := Reopened(t.driver, s.asio, s.input, s.output, opening))
  }

  function Prepared(s: Session, q: Demand): (Session, Option<nat>) {
    if Reuses(s, q.rateValid) then (Reused(s, q.continues), Some(s.driver.warm.value.rate))
    else (Cold(s, q.continues, q.opening), if q.opening.Opened? then Some(q.opening.rate) else None)
  }

  /** The encoder and the self-monitor are set up just before the thread that may not start. */
  predicate Reaches(q: Demand) {
    q.trouble == NoThread || q.trouble == NoTrouble
  }

  function ConnectedCapture(c: Capture, q: Demand): Capture {
    c.(voiceControl := true, encoder := c.encoder || Reaches(q), selfMonitor := c.selfMonitor || Reaches(q))
  }

  function ConnectedListening(l: Listening, q: Demand): Listening {
    l.(sfu := l.sfu || q.trouble != BadAddress)
  }

  /** Once the driver is there: the address, the keys, the socket, the thread. */
  function Connected(s: Session, q: Demand): Session {
    s.(inputCut := s.inputCut && q.continues, muted := s.muted && q.continues,
       capture := ConnectedCapture(s.capture, q), listening := ConnectedListening(s.listening, q))
  }

  function GoneLive(s: Session, q: Demand): Session {
    s.(capturing := true,
       capture := s.capture.(uplink := !q.withoutReports, feeding := true, named := true),
       listening := s.listening.(keepAwake := true, timer := true))
  }

  function Completed(s: Session, q: Demand): Session {
    if q.trouble == NoTrouble then GoneLive(Connected(s, q), q) else Connected(s, q)
  }

  function Start(s: Session, q: Demand): (Session, Answer) {
    if s.windows && !s.asio then (s, NoAsio) else
    var (p, rate) := Prepared(s, q);
    if rate.None? then (p, NotOpened)
    else if rate.value != NATIVE_RATE then (p.(driver := CloseDriver(p.driver)), WrongRate(rate.value))
    else (Completed(p, q), if q.trouble == NoTrouble then Started else Failed(q.trouble))
  }

  // ------------------------------------------------------------------ the program

  class AudioPipeline {
    const windows: bool
    const asio: bool
    var input: Option<string>
    var output: Option<string>
    var capturing: bool
    var recording: bool
    var inputCut: bool
    var muted: bool
    var driver: Driver
    var capture: Capture
    var listening: Listening

    function View(): Session
      reads this
    {
      Session(windows, asio, input, output, capturing, recording, inputCut, muted, driver, capture, listening)
    }

    constructor (windows: bool, asio: bool)
      ensures View() == NewSession(windows, asio)
    {
      this.windows, this.asio := windows, asio;
      input, output, capturing, recording, inputCut, muted := None, None, false, false, false, false;
      driver := Driver(None, 0, false, None, false, 0);
      capture := QUIET;
      listening := NO_LISTENING;
    }

    method RemoveAllStreams()
      modifies this`listening
      ensures listening == old(listening).(streams := {})
    {
      while listening.streams != {}
        invariant listening == old(listening).(streams := listening.streams)
        decreases |listening.streams|
      {
        var id :| id in listening.streams;
        listening := listening.(streams := listening.streams - {id});
      }
    }

    method TeardownSession(preservePeers: bool)
      modifies this`capture, this`listening
      ensures View() == Teardown(old(View()), preservePeers)
    {
      capture := capture.(feeding := false);
      capture := capture.(encoder := false, uplink := false);
      capture := capture.(voice := false, voiceControl := false, named := false, selfMonitor := false);
      if !preservePeers {
        listening := listening.(keepAwake := false, timer := false, sfu := false);
        RemoveAllStreams();
        listening := listening.(settings := {}, thread := false);
      }
    }

    method CloseAudioDriver()
      modifies this`driver
      ensures View() == old(View()).(driver := CloseDriver(old(driver)))
    {
      driver := driver.(open := None);
      driver := driver.(channel := false, warm := None);
    }

    method ParkDriver(now: nat)
      modifies this
      ensures View() == Park(old(View()), now)
    {
      recording := false;
      TeardownSession(false);
      if driver.warm.Some? {
        driver := driver.(warm := Some(driver.warm.value.(parkedSince := Some(now))));
      }
      capturing := false;
    }

    method StopEverything()
      modifies this
      ensures View() == StopAll(old(View()))
    {
      recording := false;
      TeardownSession(false);
      CloseAudioDriver();
      capturing := false;
    }

    method LeaveSession(now: nat)
      modifies this
      ensures View() == Leave(old(View()), now)
    {
      hide Park, StopAll;
      if asio && driver.warm.Some? {
        if capturing {
          ParkDriver(now);
        }
      } else {
        StopEverything();
      }
    }

    method CloseWarmIfGraceExpired(now: nat, grace: nat) returns (closed: bool)
      modifies this`driver
      ensures View() == CloseIfExpired(old(View()), now, grace)
      ensures closed == GraceExpired(old(driver), now, grace)
    {
      closed := GraceExpired(driver, now, grace);
      if closed {
        CloseAudioDriver();
        driver := driver.(recycle := true);
      }
    }

    method ReopenDriver(opening: Opening)
      modifies this`driver
      ensures driver == Reopened(old(driver), asio, input, output, opening)
    {
      CloseAudioDriver();
      if driver.recycle {
        driver := driver.(recycled := driver.recycled + 1);
      }
      driver := driver.(recycle := false, channel := true);
      if opening.Opened? {
        driver := driver.(open := Some(driver.openings), openings := driver.openings + 1);
        if asio {
          driver := driver.(warm := Some(Warm(input, output, opening.rate, None)));
        }
      }
    }

    method OpenCold(preservePeers: bool, opening: Opening)
      modifies this
      ensures View() == Cold(old(View()), preservePeers, opening)
    {
      hide Reopened;
      TeardownSession(preservePeers);
      ReopenDriver(opening);
    }

    method PrepareAudio(q: Demand) returns (rate: Option<nat>)
      modifies this
      ensures (View(), rate) == Prepared(old(View()), q)
    {
      hide Cold;
      if Reuses(View(), q.rateValid) {
        TeardownSession(q.continues);
        rate := Some(driver.warm.value.rate);
        driver := driver.(warm := Some(driver.warm.value.(parkedSince := None)));
      } else {
        OpenCold(q.continues, q.opening);
        rate := if q.opening.Opened? then Some(q.opening.rate) else None;
      }
    }

    method Connect(q: Demand)
      modifies this`inputCut, this`muted, this`capture, this`listening
      ensures inputCut == (old(inputCut) && q.continues) && muted == (old(muted) && q.continues)
      ensures capture == ConnectedCapture(old(capture), q)
      ensures listening == ConnectedListening(old(listening), q)
    {
      if !q.continues {
        inputCut, muted := false, false;
      }
      capture := capture.(voiceControl := true);
      if q.trouble == BadAddress {
        return;
      }
      listening := listening.(sfu := true);
      if q.trouble == NoSecureContext || q.trouble == NoSocket {
        return;
      }
      capture := capture.(encoder := true, selfMonitor := true);
    }

    method GoLive(q: Demand)
      modifies this
      ensures View() == GoneLive(old(View()), q)
    {
      if !listening.keepAwake {
        listening := listening.(keepAwake := true);
      }
      if !listening.timer {
        listening := listening.(timer := true);
      }
      capture := capture.(uplink := !q.withoutReports);
      capture := capture.(feeding := true);
      capturing := true;
      capture := capture.(named := true);
    }

    method Complete(q: Demand) returns (ok: bool)
      modifies this
      ensures View() == Completed(old(View()), q)
      ensures ok == (q.trouble == NoTrouble)
    {
      hide ConnectedCapture, ConnectedListening, GoneLive;
      Connect(q);
      ok := q.trouble == NoTrouble;
      if ok {
        GoLive(q);
      }
    }

    method CloseStreamsForReset()
      modifies this`driver
      ensures View() == Stepped(old(View()), StepCloseStreams)
    {
      driver := driver.(open := None);
    }

    method RebuildStreams(reopened: bool)
      modifies this`driver
      ensures View() == Rebuilt(old(View()), reopened)
    {
      if !capturing {
        return;
      }
      if driver.channel && reopened {
        driver := driver.(open := Some(driver.openings), openings := driver.openings + 1);
      }
    }

    method SetCaptureFeeding(on: bool)
      modifies this`capture
      ensures View() == old(View()).(capture := old(capture).(feeding := on))
    {
      capture := capture.(feeding := on);
    }

    /** The first half of a wake-up. */
    method Mute()
      modifies this`capture, this`driver
      ensures View() == Stepped(old(View()), StepMute)
    {
      SetCaptureFeeding(false);
      CloseStreamsForReset();
    }

    /** The second half, six seconds later, after the lock was released. */
    method WakeUp(reopened: bool)
      modifies this`capture, this`driver
      ensures View() == Stepped(old(View()), StepWake(reopened))
    {
      hide Rebuilt;
      RebuildStreams(reopened);
      SetCaptureFeeding(true);
    }

    method StartCapture(q: Demand) returns (answer: Answer)
      modifies this
      ensures (View(), answer) == Start(old(View()), q)
    {
      hide Prepared, Completed;
      if windows && !asio {
        return NoAsio;
      }
      var rate := PrepareAudio(q);
      if rate.None? {
        return NotOpened;
      }
      if rate.value != NATIVE_RATE {
        CloseAudioDriver();
        return WrongRate(rate.value);
      }
      var ok := Complete(q);
      return if ok then Started else Failed(q.trouble);
    }
  }

  function NewSession(windows: bool, asio: bool): Session {
    Session(windows, asio, None, None, false, false, false, false, Driver(None, 0, false, None, false, 0), QUIET,
            NO_LISTENING)
  }

  // ------------------------------------------------------------------ runs

  datatype Step =
    | StepStart(q: Demand)
    | StepLeave(now: nat)
    | StepStopAll
    | StepGrace(now: nat, grace: nat)
    | StepSelect(input: Option<string>, output: Option<string>)
    | StepAddPeer(id: string)
    | StepRemovePeer(id: string)
    | StepVoice
    | StepRecord
    /** A reset of the driver, in two steps between which anything may happen. */
    | StepCloseStreams
    | StepRebuild(reopened: bool)
    /** A wake-up of the machine: mute and close; then, once the driver has settled, open and feed. */
    | StepMute
    | StepWake(reopened: bool)

  function Stepped(s: Session, e: Step): Session {
    match e
    case StepStart(q) => Start(s, q).0
    case StepLeave(now) => Leave(s, now)
    case StepStopAll => StopAll(s)
    case StepGrace(now, grace) => CloseIfExpired(s, now, grace)
    case StepSelect(i, o) => s.(input := i, output := o)
    case StepAddPeer(id) => s.(listening := s.listening.(streams := s.listening.streams + {id}, thread := true))
    case StepRemovePeer(id) => s.(listening := s.listening.(streams := s.listening.streams - {id}))
    case StepVoice => s.(capture := s.capture.(voice := true))
    case StepRecord => s.(recording := true)
    case StepCloseStreams => s.(driver := s.driver.(open := None))
    case StepRebuild(reopened) => Rebuilt(s, reopened)
    case StepMute => s.(capture := s.capture.(feeding := false), driver := s.driver.(open := None))
    case StepWake(reopened) => Fed(Rebuilt(s, reopened))
  }

  /** Streams are only recreated while capturing, on the channel of the capture. */
  function Rebuilt(s: Session, reopened: bool): Session {
    if s.capturing && s.driver.channel && reopened
    then s.(driver := s.driver.(open := Some(s.driver.openings), openings := s.driver.openings + 1))
    else s
  }

  /** The encoder is fed again, whatever the state. */
  function Fed(s: Session): Session {
    s.(capture := s.capture.(feeding := true))
  }

  function Run(windows: bool, asio: bool, steps: seq<Step>): Session {
    if steps == [] then NewSession(windows, asio)
    else Stepped(Run(windows, asio, steps[..|steps| - 1]), steps[|steps| - 1])
  }

  /** Leaving twice is leaving once, to the instant of parking. */
  lemma {:induction false} LeaveIsIdempotent(s: Session, now: nat, later: nat)
    ensures Leave(Leave(s, now), later) == Leave(s, now)
  {
  }

  predicate Kept(s: Session) {
    // A driver that captures is not parked.
    && (s.capturing && s.driver.warm.Some? ==> s.driver.warm.value.parkedSince.None?)
    // A warm driver exists under ASIO only, and runs at the native rate.
    && (s.driver.warm.Some? ==> s.asio && s.driver.warm.value.rate == NATIVE_RATE)
    // The machine is kept awake, and the fine timer held, only while capturing.
    && (s.listening.keepAwake || s.listening.timer ==> s.capturing)
  }

  /** What a driver just acquired is, at a rate that may not be the right one. */
  predicate Acquired(s: Session, p: Session, rate: Option<nat>) {
    && (p.driver.open.Some? <==> rate.Some?)
    && (p.driver.warm.Some? <==> rate.Some? && s.asio)
    && (p.driver.warm.Some? ==> p.driver.warm.value.rate == rate.value && p.driver.warm.value.parkedSince.None?)
  }

  lemma {:induction false} ReusedDriver(s: Session, preservePeers: bool)
    requires s.asio && s.driver.open.Some? && s.driver.warm.Some?
    ensures Acquired(s, Reused(s, preservePeers), Some(s.driver.warm.value.rate))
    ensures Reused(s, preservePeers).driver == s.driver.(warm := Some(s.driver.warm.value.(parkedSince := None)))
  {
  }

  lemma {:induction false} ColdDriver(s: Session, preservePeers: bool, opening: Opening)
    ensures Acquired(s, Cold(s, preservePeers, opening), if opening.Opened? then Some(opening.rate) else None)
    ensures Cold(s, preservePeers, opening).driver.openings == s.driver.openings + (if opening.Opened? then 1 else 0)
  {
  }

  lemma {:induction false} PreparedDriver(s: Session, q: Demand)
    ensures
      var (p, rate) := Prepared(s, q);
      && Acquired(s, p, rate)
      && (Reuses(s, q.rateValid) ==>
            && p.driver.open == s.driver.open && p.driver.openings == s.driver.openings
            && rate.value == s.driver.warm.value.rate)
      && (!Reuses(s, q.rateValid) && rate.Some? ==> p.driver.openings == s.driver.openings + 1)
  {
    hide Reused, Cold, Acquired;
    if Reuses(s, q.rateValid) {
      ReusedDriver(s, q.continues);
    } else {
      ColdDriver(s, q.continues, q.opening);
    }
  }

  /** What acquiring the driver leaves of the session. */
  predicate OnlyTornDown(s: Session, p: Session, preservePeers: bool) {
    && p.capturing == s.capturing && p.asio == s.asio && p.capture == QUIET
    && p.listening == (if preservePeers then s.listening else NO_LISTENING)
  }

  lemma {:induction false} ReusedRest(s: Session, preservePeers: bool)
    ensures OnlyTornDown(s, Reused(s, preservePeers), preservePeers)
  {
  }

  lemma {:induction false} ColdRest(s: Session, preservePeers: bool, opening: Opening)
    ensures OnlyTornDown(s, Cold(s, preservePeers, opening), preservePeers)
  {
  }

  lemma {:induction false} PreparedRest(s: Session, q: Demand)
    ensures OnlyTornDown(s, Prepared(s, q).0, q.continues)
  {
    hide Reused, Cold, Reuses, OnlyTornDown;
    ReusedRest(s, q.continues);
    ColdRest(s, q.continues, q.opening);
  }

  predicate SameReception(a: Listening, b: Listening) {
    a.streams == b.streams && a.settings == b.settings && a.thread == b.thread
  }

  lemma {:induction false} ConnectedDoes(p: Session, q: Demand)
    ensures
      var c := Connected(p, q);
      && c.driver == p.driver && c.asio == p.asio && c.capturing == p.capturing
      && c.capture.feeding == p.capture.feeding
      && SameReception(c.listening, p.listening)
      && c.listening.keepAwake == p.listening.keepAwake && c.listening.timer == p.listening.timer
  {
  }

  lemma {:induction false} CompletedDoes(p: Session, q: Demand)
    ensures
      var c := Completed(p, q);
      && c.driver == p.driver && c.asio == p.asio
      && c.capturing == (p.capturing || q.trouble == NoTrouble)
      && c.capture.feeding == (p.capture.feeding || q.trouble == NoTrouble)
      && SameReception(c.listening, p.listening)
      && c.listening.keepAwake == (p.listening.keepAwake || q.trouble == NoTrouble)
      && c.listening.timer == (p.listening.timer || q.trouble == NoTrouble)
  {
    hide Connected;
    ConnectedDoes(p, q);
  }

  lemma {:induction false} StartKeeps(s: Session, q: Demand)
    requires Kept(s)
    ensures Kept(Start(s, q).0)
  {
    hide Prepared, Completed;
    PreparedDriver(s, q);
    PreparedRest(s, q);
    CompletedDoes(Prepared(s, q).0, q);
  }

  lemma {:induction false} StepKeeps(s: Session, e: Step)
    requires Kept(s)
    ensures Kept(Stepped(s, e))
  {
    hide Start;
    if e.StepStart? {
      StartKeeps(s, e.q);
    }
  }

  lemma {:induction false} RunKeeps(windows: bool, asio: bool, steps: seq<Step>)
    ensures Kept(Run(windows, asio, steps))
  {
    hide Kept, Stepped;
    if steps == [] {
      NewIsKept(windows, asio);
    } else {
      RunKeeps(windows, asio, steps[..|steps| - 1]);
      StepKeeps(Run(windows, asio, steps[..|steps| - 1]), steps[|steps| - 1]);
    }
  }

  lemma {:induction false} NewIsKept(windows: bool, asio: bool)
    ensures Kept(NewSession(windows, asio))
  {
  }

  /** In every run the driver of a session that captures is neither parked nor closed by the grace. */
  lemma {:induction false} CaptureIsNeverClosedByGrace(windows: bool, asio: bool, steps: seq<Step>, now: nat, grace: nat)
    ensures
      var s := Run(windows, asio, steps);
      s.capturing ==> CloseIfExpired(s, now, grace) == s
  {
    hide Run;
    RunKeeps(windows, asio, steps);
  }

  // ------------------------------------------------------------------ feeding the encoder

  /** The encoder is fed only while capturing. */
  predicate FeedsACapture(s: Session) {
    s.capture.feeding ==> s.capturing
  }

  predicate WakesIdle(s: Session, e: Step) {
    e.StepWake? && !s.capturing
  }

  lemma {:induction false} StartFeeds(s: Session, q: Demand)
    requires FeedsACapture(s)
    ensures FeedsACapture(Start(s, q).0)
  {
    hide Prepared, Completed;
    PreparedRest(s, q);
    CompletedDoes(Prepared(s, q).0, q);
  }

  lemma {:induction false} LeaveFeeds(s: Session, now: nat)
    requires FeedsACapture(s)
    ensures FeedsACapture(Leave(s, now))
  {
  }

  /** Each step keeps it, with one exception and exactly this one: the second half of a wake-up finds
      that nothing captures any more. */
  lemma {:induction false} FeedsUnlessWokenIdle(s: Session, e: Step)
    requires FeedsACapture(s)
    ensures FeedsACapture(Stepped(s, e)) <==> !WakesIdle(s, e)
  {
    hide Start, Leave, StopAll;
    match e {
      case StepStart(q) => StartFeeds(s, q);
      case StepLeave(now) => LeaveFeeds(s, now);
      case StepStopAll => StopAllReleases(s);
      case _ =>
    }
  }

  /** After the run and after each of its beginnings. */
  predicate FeedsAllAlong(windows: bool, asio: bool, steps: seq<Step>) {
    && FeedsACapture(Run(windows, asio, steps))
    && (steps != [] ==> FeedsAllAlong(windows, asio, steps[..|steps| - 1]))
  }

  predicate NeverWokenIdle(windows: bool, asio: bool, steps: seq<Step>) {
    steps != [] ==>
      var before := steps[..|steps| - 1];
      !WakesIdle(Run(windows, asio, before), steps[|steps| - 1]) && NeverWokenIdle(windows, asio, before)
  }

  /** Over any run, the encoder is fed only while capturing exactly when each wake-up ends during a
      capture. */
  lemma {:induction false} EncoderFeedsACapture(windows: bool, asio: bool, steps: seq<Step>)
    ensures FeedsAllAlong(windows, asio, steps) <==> NeverWokenIdle(windows, asio, steps)
  {
    hide FeedsACapture, Stepped, WakesIdle;
    if steps == [] {
      NewFeedsNobody(windows, asio);
    } else {
      var before := steps[..|steps| - 1];
      EncoderFeedsACapture(windows, asio, before);
      if FeedsAllAlong(windows, asio, before) {
        FeedsUnlessWokenIdle(Run(windows, asio, before), steps[|steps| - 1]);
      }
    }
  }

  lemma {:induction false} NewFeedsNobody(windows: bool, asio: bool)
    ensures FeedsACapture(NewSession(windows, asio))
  {
  }

  predicate Ends(e: Step) {
    e.StepLeave? || e.StepStopAll?
  }

  lemma {:induction false} CaptureGoesOn(s: Session, e: Step)
    requires s.capturing && !Ends(e)
    ensures Stepped(s, e).capturing
  {
    hide Start;
    if e.StepStart? {
      StartGoesOn(s, e.q);
    }
  }

  lemma {:induction false} StartGoesOn(s: Session, q: Demand)
    requires s.capturing
    ensures Start(s, q).0.capturing
  {
    hide Prepared, Completed;
    PreparedRest(s, q);
    CompletedDoes(Prepared(s, q).0, q);
  }

  lemma {:induction false} CaptureLasts(windows: bool, asio: bool, steps: seq<Step>, i: nat)
    requires i <= |steps| && Run(windows, asio, steps[..i]).capturing
    requires forall j :: i <= j < |steps| ==> !Ends(steps[j])
    ensures Run(windows, asio, steps).capturing
    decreases |steps|
  {
    hide Stepped;
    var n := |steps| - 1;
    if i == |steps| {
      assert steps[..i] == steps;
    } else {
      assert steps[..n][..i] == steps[..i];
      CaptureLasts(windows, asio, steps[..n], i);
      CaptureGoesOn(Run(windows, asio, steps[..n]), steps[n]);
    }
  }

  /** Each second half of a wake-up follows an instant of capture, with no leave and no stop since. */
  ghost predicate WokenInTime(windows: bool, asio: bool, steps: seq<Step>) {
    forall k :: 0 <= k < |steps| && steps[k].StepWake? ==> CapturesUntil(windows, asio, steps, k)
  }

  ghost predicate CapturesUntil(windows: bool, asio: bool, steps: seq<Step>, k: nat)
    requires k < |steps|
  {
    exists i :: 0 <= i <= k && Run(windows, asio, steps[..i]).capturing && (forall j :: i <= j < k ==> !Ends(steps[j]))
  }

  lemma {:induction false} CapturesBefore(windows: bool, asio: bool, steps: seq<Step>, k: nat)
    requires k < |steps| - 1 && CapturesUntil(windows, asio, steps, k)
    ensures CapturesUntil(windows, asio, steps[..|steps| - 1], k)
  {
    hide Run;
    var before := steps[..|steps| - 1];
    var i :| 0 <= i <= k && Run(windows, asio, steps[..i]).capturing && (forall j :: i <= j < k ==> !Ends(steps[j]));
    assert before[..i] == steps[..i];
  }

  /** So it is enough that nobody leaves during the six seconds of a wake-up. */
  lemma {:induction false} WakingInTimeFeedsACapture(windows: bool, asio: bool, steps: seq<Step>)
    requires WokenInTime(windows, asio, steps)
    ensures NeverWokenIdle(windows, asio, steps) && FeedsAllAlong(windows, asio, steps)
  {
    hide Run, FeedsAllAlong;
    if steps != [] {
      var n := |steps| - 1;
      var before := steps[..n];
      forall k | 0 <= k < n && before[k].StepWake?
        ensures CapturesUntil(windows, asio, before, k)
      {
        CapturesBefore(windows, asio, steps, k);
      }
      WakingInTimeFeedsACapture(windows, asio, before);
      if steps[n].StepWake? {
        var i :| 0 <= i <= n && Run(windows, asio, steps[..i]).capturing && (forall j :: i <= j < n ==> !Ends(steps[j]));
        assert before[..i] == steps[..i];
        CaptureLasts(windows, asio, before, i);
      }
    }
    EncoderFeedsACapture(windows, asio, steps);
  }

  const GOOD_START: Step := StepStart(Demand(false, true, Opened(NATIVE_RATE), NoTrouble, false))

  /** A run where somebody leaves in between: the driver is parked, nothing captures, and the encoder
      that is gone is fed. */
  lemma {:induction false} LeavingDuringAWakeUp()
    ensures
      var s := Run(true, true, [GOOD_START, StepMute, StepLeave(0), StepWake(true)]);
      !s.capturing && s.capture.feeding && !s.capture.encoder && s.driver.warm.Some? && s.driver.open.None?
  {
    var a, b, c, d := GOOD_START, StepMute, StepLeave(0), StepWake(true);
    assert [a][..0] == [] && [a, b][..1] == [a] && [a, b, c][..2] == [a, b] && [a, b, c, d][..3] == [a, b, c];
    var s0 := NewSession(true, true);
    var s1 := Stepped(s0, a);
    assert Run(true, true, [a]) == s1;
    assert Run(true, true, [a, b]) == Stepped(s1, b);
    assert Run(true, true, [a, b, c]) == Stepped(Stepped(s1, b), c);
    assert s1.capturing && s1.driver.warm.Some?;
  }

  // ------------------------------------------------------------------ a fresh apartment

  predicate ClosesByGrace(s: Session, e: Step) {
    e.StepGrace? && GraceExpired(s.driver, e.now, e.grace)
  }

  /** How many times the grace released the driver. */
  function GraceCloses(windows: bool, asio: bool, steps: seq<Step>): nat {
    if steps == [] then 0 else
    var n := |steps| - 1;
    GraceCloses(windows, asio, steps[..n]) + (if ClosesByGrace(Run(windows, asio, steps[..n]), steps[n]) then 1 else 0)
  }

  function Due(d: Driver): nat {
    d.recycled + (if d.recycle then 1 else 0)
  }

  /** A fresh apartment is only asked for when no driver is warm. */
  predicate AskedWhenCold(d: Driver) {
    d.recycle ==> d.warm.None?
  }

  lemma {:induction false} ColdRecycles(s: Session, preservePeers: bool, opening: Opening)
    ensures Due(Cold(s, preservePeers, opening).driver) == Due(s.driver)
    ensures !Cold(s, preservePeers, opening).driver.recycle
  {
  }

  lemma {:induction false} ReusedRecycles(s: Session, preservePeers: bool)
    requires AskedWhenCold(s.driver)
    ensures Due(Reused(s, preservePeers).driver) == Due(s.driver) && AskedWhenCold(Reused(s, preservePeers).driver)
  {
  }

  lemma {:induction false} StartRecycles(s: Session, q: Demand)
    requires AskedWhenCold(s.driver)
    ensures Due(Start(s, q).0.driver) == Due(s.driver) && AskedWhenCold(Start(s, q).0.driver)
  {
    hide Cold, Reused, Completed;
    ColdRecycles(s, q.continues, q.opening);
    ReusedRecycles(s, q.continues);
    CompletedDoes(Prepared(s, q).0, q);
  }

  lemma {:induction false} LeaveRecycles(s: Session, now: nat)
    requires AskedWhenCold(s.driver)
    ensures Due(Leave(s, now).driver) == Due(s.driver) && AskedWhenCold(Leave(s, now).driver)
  {
  }

  lemma {:induction false} StepRecycles(s: Session, e: Step)
    requires AskedWhenCold(s.driver)
    ensures Due(Stepped(s, e).driver) == Due(s.driver) + (if ClosesByGrace(s, e) then 1 else 0)
    ensures AskedWhenCold(Stepped(s, e).driver)
  {
    hide Start, Leave;
    match e {
      case StepStart(q) => StartRecycles(s, q);
      case StepLeave(now) => LeaveRecycles(s, now);
      case _ =>
    }
  }

  /** Over any run, each release by the grace is followed by one fresh apartment, at the next cold
      opening; at most one is due. */
  lemma {:induction false} EachGraceRecyclesOnce(windows: bool, asio: bool, steps: seq<Step>)
    ensures Due(Run(windows, asio, steps).driver) == GraceCloses(windows, asio, steps)
    ensures AskedWhenCold(Run(windows, asio, steps).driver)
  {
    hide Stepped, Due, AskedWhenCold, ClosesByGrace;
    if steps == [] {
      NothingDue(windows, asio);
    } else {
      var n := |steps| - 1;
      EachGraceRecyclesOnce(windows, asio, steps[..n]);
      StepRecycles(Run(windows, asio, steps[..n]), steps[n]);
    }
  }

  lemma {:induction false} NothingDue(windows: bool, asio: bool)
    ensures Due(NewSession(windows, asio).driver) == 0 && AskedWhenCold(NewSession(windows, asio).driver)
  {
  }

  // ------------------------------------------------------------------ the end of a session

  /** The capture is over and so is everything that lives as long as the session. */
  predicate Released(s: Session) {
    s.listening == NO_LISTENING && s.capture == QUIET && !s.capturing && !s.recording
  }

  /** Leaving releases everything, with one exception and exactly this one: nothing captures over a
      warm driver, so leaving does nothing, and something was there to release. */
  lemma {:induction false} LeaveReleases(s: Session, now: nat)
    ensures Released(Leave(s, now)) <==> !(s.asio && s.driver.warm.Some? && !s.capturing) || Released(s)
  {
  }

  lemma {:induction false} StopAllReleases(s: Session)
    ensures Released(StopAll(s)) && StopAll(s).driver.open.None? && StopAll(s).driver.warm.None?
  {
  }

  /** A start that does not continue a session first ends it: whatever happens next, no peer, no
      listening setting and no receive thread of the former session is left; and the machine is kept
      awake afterwards exactly when the start succeeded. */
  lemma {:induction false} NewSessionStartsClean(s: Session, q: Demand)
    requires !q.continues && !(s.windows && !s.asio)
    ensures
      var (after, answer) := Start(s, q);
      && after.listening.streams == {} && after.listening.settings == {} && !after.listening.thread
      && (after.listening.keepAwake <==> answer == Started)
      && (after.listening.timer <==> answer == Started)
  {
    hide Prepared, Completed;
    PreparedDriver(s, q);
    PreparedRest(s, q);
    CompletedDoes(Prepared(s, q).0, q);
  }

  /** Changing the input during a session, whether it succeeds or not, leaves what is received, how it
      is heard and what keeps the machine awake as they were. */
  lemma {:induction false} HotSwapKeepsReception(s: Session, q: Demand)
    requires q.continues
    ensures
      var after := Start(s, q).0.listening;
      && SameReception(after, s.listening)
      && (s.listening.keepAwake ==> after.keepAwake) && (s.listening.timer ==> after.timer)
  {
    hide Prepared, Completed;
    PreparedDriver(s, q);
    PreparedRest(s, q);
    CompletedDoes(Prepared(s, q).0, q);
  }

  // ------------------------------------------------------------------ keeping the driver warm

  /** What is left of the driver when the session comes back. */
  lemma {:induction false} Away(s: Session, left: nat, back: nat, grace: nat)
    requires Kept(s) && s.capturing
    ensures
      var away := CloseIfExpired(Leave(s, left), back, grace);
      var warm := s.driver.warm;
      && away.windows == s.windows && away.asio == s.asio && away.input == s.input && away.output == s.output
      && away.driver.openings == s.driver.openings
      && (warm.Some? && back < left + grace ==>
            away.driver == s.driver.(warm := Some(warm.value.(parkedSince := Some(left)))))
      && (!(warm.Some? && back < left + grace) ==> away.driver.open.None?)
  {
  }

  /** Leaving and coming back reopens nothing exactly when the driver is ASIO, warm and open, was
      opened for the same devices, still runs at its rate, and the grace has not run out. */
  lemma {:induction false} RejoinReopensNothing(s: Session, left: nat, back: nat, grace: nat, q: Demand)
    requires Kept(s) && s.capturing && !(s.windows && !s.asio)
    ensures
      var away := CloseIfExpired(Leave(s, left), back, grace);
      var after := Start(away, q).0;
      after.driver.open.Some? && after.driver.openings == s.driver.openings
      <==> Reuses(s, q.rateValid) && back < left + grace
  {
    hide Prepared, Completed, Leave, CloseIfExpired;
    var away := CloseIfExpired(Leave(s, left), back, grace);
    Away(s, left, back, grace);
    PreparedDriver(away, q);
    CompletedDoes(Prepared(away, q).0, q);
  }

  /** An idle warm driver is parked, so the grace will release it. */
  predicate IdleIsParked(s: Session) {
    !s.capturing && s.driver.warm.Some? ==> s.driver.warm.value.parkedSince.Some?
  }

  /** The demand is let in, the driver is there at the right rate, and a later step goes wrong. */
  predicate FailsLate(s: Session, q: Demand) {
    && !(s.windows && !s.asio) && q.trouble != NoTrouble
    && (Reuses(s, q.rateValid) || q.opening == Opened(NATIVE_RATE))
  }

  lemma {:induction false} FailedIsLate(s: Session, q: Demand)
    requires Kept(s)
    ensures Start(s, q).1.Failed? <==> FailsLate(s, q)
  {
    hide Completed;
    PreparedDriver(s, q);
  }

  predicate FailsAfterAcquiring(s: Session, e: Step) {
    e.StepStart? && FailsLate(s, e.q)
  }

  /** Every step keeps this, with one exception and exactly this one: under ASIO, while nothing
      captures, a start fails once the driver is acquired. */
  lemma {:induction false} IdleParkedIff(s: Session, e: Step)
    requires Kept(s) && IdleIsParked(s)
    ensures IdleIsParked(Stepped(s, e)) <==> !(FailsAfterAcquiring(s, e) && s.asio && !s.capturing)
  {
    hide Start, Leave, StopAll, FailsLate;
    match e {
      case StepStart(q) => StartParks(s, q);
      case StepLeave(now) => LeaveParks(s, now);
      case StepStopAll => StopAllReleases(s);
      case _ =>
    }
  }

  lemma {:induction false} StartParks(s: Session, q: Demand)
    requires Kept(s) && IdleIsParked(s)
    ensures IdleIsParked(Start(s, q).0) <==> !(FailsLate(s, q) && s.asio && !s.capturing)
  {
    hide Prepared, Completed, FailsLate;
    FailedIsLate(s, q);
    PreparedDriver(s, q);
    PreparedRest(s, q);
    CompletedDoes(Prepared(s, q).0, q);
  }

  lemma {:induction false} LeaveParks(s: Session, now: nat)
    requires IdleIsParked(s)
    ensures IdleIsParked(Leave(s, now))
  {
  }

  predicate NoLateFailure(windows: bool, asio: bool, steps: seq<Step>) {
    forall k :: 0 <= k < |steps| ==> !FailsAfterAcquiring(Run(windows, asio, steps[..k]), steps[k])
  }

  /** On every run where no start fails after it acquired the driver, an idle warm driver is parked. */
  lemma {:induction false} IdleDriverIsParked(windows: bool, asio: bool, steps: seq<Step>)
    requires NoLateFailure(windows, asio, steps)
    ensures IdleIsParked(Run(windows, asio, steps))
  {
    hide Kept, Stepped, FailsAfterAcquiring, IdleIsParked;
    if steps == [] {
      NewIsParked(windows, asio);
    } else {
      var n := |steps| - 1;
      assert forall k :: 0 <= k < n ==> steps[..n][..k] == steps[..k];
      IdleDriverIsParked(windows, asio, steps[..n]);
      RunKeeps(windows, asio, steps[..n]);
      IdleParkedIff(Run(windows, asio, steps[..n]), steps[n]);
    }
  }

  lemma {:induction false} NewIsParked(windows: bool, asio: bool)
    ensures IdleIsParked(NewSession(windows, asio))
  {
  }

  lemma {:induction false} GraceReleases(s: Session, now: nat, grace: nat)
    requires IdleIsParked(s) && !s.capturing && s.driver.warm.Some?
    requires now >= s.driver.warm.value.parkedSince.value + grace
    ensures CloseIfExpired(s, now, grace).driver.open.None? && CloseIfExpired(s, now, grace).driver.warm.None?
  {
  }

  /** On such a run, an idle warm driver is closed by the first look made once the grace has passed
      since it was parked, and by none before. */
  lemma {:induction false} IdleDriverIsReleased(windows: bool, asio: bool, steps: seq<Step>, now: nat, grace: nat)
    requires NoLateFailure(windows, asio, steps)
    ensures
      var s := Run(windows, asio, steps);
      !s.capturing && s.driver.warm.Some? ==>
        && s.driver.warm.value.parkedSince.Some?
        && var after := CloseIfExpired(s, now, grace).driver;
           if now >= s.driver.warm.value.parkedSince.value + grace then after.open.None? && after.warm.None?
           else after == s.driver
  {
    hide Run;
    IdleDriverIsParked(windows, asio, steps);
    var s := Run(windows, asio, steps);
    if !s.capturing && s.driver.warm.Some? && now >= s.driver.warm.value.parkedSince.value + grace {
      GraceReleases(s, now, grace);
    }
  }

  /** In the excepted case the driver stays open with nobody to release it: neither leaving nor the
      grace closes it, however late. */
  lemma {:induction false} LateFailureHoldsTheDriver(s: Session, q: Demand, left: nat, now: nat, grace: nat)
    requires Kept(s) && s.asio && !s.capturing && FailsLate(s, q)
    ensures
      var stuck := Start(s, q).0;
      stuck.driver.open.Some? && CloseIfExpired(Leave(stuck, left), now, grace) == stuck
  {
    hide Prepared, Completed, FailsLate;
    FailedIsLate(s, q);
    PreparedDriver(s, q);
    PreparedRest(s, q);
    CompletedDoes(Prepared(s, q).0, q);
    var stuck := Start(s, q).0;
    assert stuck.driver == Prepared(s, q).0.driver && !stuck.capturing;
  }
}
