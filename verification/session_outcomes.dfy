/** What a start, a leave and a wake-up leave behind, in the terms of who asked for them
    (jamodio-agent/src/pipeline.rs, `start_capture`, `prepare_audio_for_session`, `leave_session`;
    jamodio-agent/src/ws_server.rs). */
module SessionOutcomes {
  import opened Options
  import opened Sessions

  /** The warm driver fits: ASIO, open, for these very devices, and still at its rate. */
  predicate Fits(s: Session, rateValid: bool) {
    && s.asio && s.driver.open.Some? && s.driver.warm.Some? && rateValid
    && s.driver.warm.value.input == s.input && s.driver.warm.value.output == s.output
  }

  /** The rate the driver runs at, if it could be had. */
  function RateOf(s: Session, q: Demand): Option<nat> {
    if Fits(s, q.rateValid) then Some(s.driver.warm.value.rate)
    else if q.opening.Opened? then Some(q.opening.rate) else None
  }

  /** Windows without ASIO is refused first, then a driver that cannot be opened, then one that does not run
      at 48 kHz; what goes wrong after that is a failure, and otherwise the capture starts. */
  lemma {:induction false} AnswerMeans(s: Session, q: Demand)
    ensures Start(s, q).1 ==
            if s.windows && !s.asio then NoAsio
            else if RateOf(s, q).None? then NotOpened
            else if RateOf(s, q) != Some(48_000) then WrongRate(RateOf(s, q).value)
            else if q.trouble != NoTrouble then Failed(q.trouble)
            else Started
  {
    hide Completed;
    PreparedDriver(s, q);
  }

  /** What is still received: everything when the session goes on, nothing otherwise. */
  predicate ReceptionOf(after: Listening, s: Session, q: Demand) {
    if q.continues then
      after.streams == s.listening.streams && after.settings == s.listening.settings && after.thread == s.listening.thread
    else after.streams == {} && after.settings == {} && !after.thread
  }

  /** A start past its refusals is the preparation, then what follows it. */
  lemma {:induction false} StartUnfolds(s: Session, q: Demand)
    requires Start(s, q).1.Started? || Start(s, q).1.Failed?
    ensures Start(s, q).0 == Completed(Prepared(s, q).0, q)
  {
    hide Completed, Prepared;
  }

  /** The driver a preparation leaves: the one that fits, or another one, opened in a fresh apartment if one
      is due. */
  predicate DriverOf(d: Driver, s: Session, q: Demand) {
    if Fits(s, q.rateValid) then
      d == s.driver.(warm := Some(Warm(s.input, s.output, s.driver.warm.value.rate, None)))
    else
      && d.channel && !d.recycle && d.recycled == s.driver.recycled + (if s.driver.recycle then 1 else 0)
      && d.open == (if q.opening.Opened? then Some(s.driver.openings) else None)
      && d.openings == s.driver.openings + (if q.opening.Opened? then 1 else 0)
      && d.warm == (if s.asio && q.opening.Opened? then Some(Warm(s.input, s.output, q.opening.rate, None)) else None)
  }

  lemma {:induction false} PreparedLeaves(s: Session, q: Demand)
    ensures DriverOf(Prepared(s, q).0.driver, s, q) && Leftover(Prepared(s, q).0, s, q)
  {
  }

  /** All that a preparation leaves besides the driver: no capture, and the reception of a session that goes
      on. */
  predicate Leftover(p: Session, s: Session, q: Demand) {
    && !p.capture.feeding && !p.capture.encoder && !p.capture.uplink && !p.capture.voice && !p.capture.voiceControl
    && !p.capture.named && !p.capture.selfMonitor
    && ReceptionOf(p.listening, s, q)
    && p.listening.keepAwake == (q.continues && s.listening.keepAwake)
    && p.listening.timer == (q.continues && s.listening.timer)
    && p.listening.sfu == (q.continues && s.listening.sfu)
    && p.capturing == s.capturing && p.recording == s.recording && p.inputCut == s.inputCut && p.muted == s.muted
    && p.windows == s.windows && p.asio == s.asio && p.input == s.input && p.output == s.output
  }

  /** A capture that goes on: it has its encoder, its self-monitor, its voice control and its name, reports
      unless they are cut, and is fed; the machine is kept awake and on time; the server is known; a
      session that does not go on hears its input and is not private. Its driver is open and, under ASIO,
      warm for the devices chosen and not parked. */
  predicate Live(after: Session, s: Session, q: Demand) {
    && after.capturing
    && after.capture.feeding && after.capture.encoder && after.capture.selfMonitor && after.capture.voiceControl
    && after.capture.named && !after.capture.voice && (after.capture.uplink <==> !q.withoutReports)
    && after.listening.keepAwake && after.listening.timer && after.listening.sfu
    && ReceptionOf(after.listening, s, q)
    && after.inputCut == (q.continues && s.inputCut) && after.muted == (q.continues && s.muted)
    && after.recording == s.recording && after.input == s.input && after.output == s.output
    && DriverOf(after.driver, s, q) && after.driver.open.Some?
    && after.driver.warm == (if s.asio then Some(Warm(s.input, s.output, 48_000, None)) else None)
  }

  /** A capture that failed once it had its driver: it is not fed, named nor reported; its encoder and its
      self-monitor are there when only the thread is missing, and the server is known unless its address
      is wrong. */
  predicate Unfinished(after: Session, s: Session, q: Demand) {
    && after.capturing == s.capturing
    && !after.capture.feeding && !after.capture.uplink && !after.capture.named && !after.capture.voice
    && after.capture.voiceControl
    && (after.capture.encoder <==> q.trouble == NoThread) && (after.capture.selfMonitor <==> q.trouble == NoThread)
    && ReceptionOf(after.listening, s, q)
    && after.listening.keepAwake == (q.continues && s.listening.keepAwake)
    && after.listening.timer == (q.continues && s.listening.timer)
    && after.listening.sfu == (q.trouble != BadAddress || (q.continues && s.listening.sfu))
    && DriverOf(after.driver, s, q) && after.driver.open.Some?
  }

  lemma {:induction false} CompletionOf(p: Session, s: Session, q: Demand)
    requires Leftover(p, s, q) && DriverOf(p.driver, s, q) && RateOf(s, q) == Some(48_000)
    ensures if q.trouble == NoTrouble then Live(Completed(p, q), s, q) else Unfinished(Completed(p, q), s, q)
  {
  }

  /** A capture that starts goes on. */
  lemma {:induction false} StartedIsLive(s: Session, q: Demand)
    requires Start(s, q).1 == Started
    ensures Live(Start(s, q).0, s, q)
  {
    hide Completed, Prepared, DriverOf, Leftover, Live, Unfinished;
    StartUnfolds(s, q);
    AnswerMeans(s, q);
    PreparedLeaves(s, q);
    CompletionOf(Prepared(s, q).0, s, q);
  }

  /** One that fails once it has its driver is left unfinished. */
  lemma {:induction false} FailedLeaves(s: Session, q: Demand)
    requires Start(s, q).1.Failed?
    ensures Unfinished(Start(s, q).0, s, q)
  {
    hide Completed, Prepared, DriverOf, Leftover, Live, Unfinished;
    StartUnfolds(s, q);
    AnswerMeans(s, q);
    PreparedLeaves(s, q);
    CompletionOf(Prepared(s, q).0, s, q);
  }

  /** A demand refused for its system changes nothing; one whose driver cannot be had, or runs at another
      rate, ends the capture and leaves no driver open and none warm. */
  lemma {:induction false} RefusedLeaves(s: Session, q: Demand)
    ensures
      var (after, answer) := Start(s, q);
      && (answer == NoAsio ==> after == s)
      && (answer == NotOpened || answer.WrongRate? ==>
            after.driver.open.None? && after.driver.warm.None? && Leftover(after, s, q))
  {
    hide Prepared, Completed, Leftover;
    AnswerMeans(s, q);
    PreparedLeaves(s, q);
    if Start(s, q).1 == NotOpened || Start(s, q).1.WrongRate? {
      RefusedIsLeftover(Prepared(s, q).0, s, q);
    }
  }

  lemma {:induction false} RefusedIsLeftover(p: Session, s: Session, q: Demand)
    requires Leftover(p, s, q)
    ensures Leftover(p.(driver := CloseDriver(p.driver)), s, q)
  {
  }

  /** Leaving a capture over a warm driver parks it, stamped, and keeps it open; leaving otherwise closes it,
      unless there is a warm driver that nothing captures, which is left alone. */
  lemma {:induction false} LeavingKeepsTheWarmDriver(s: Session, now: nat)
    ensures
      var after := Leave(s, now);
      if s.asio && s.driver.warm.Some? then
        if s.capturing then
          && after.driver == s.driver.(warm := Some(s.driver.warm.value.(parkedSince := Some(now))))
          && !after.capturing && !after.recording && !after.capture.encoder && !after.capture.feeding
          && after.listening.streams == {} && !after.listening.keepAwake
        else after == s
      else
        && after.driver.open.None? && after.driver.warm.None? && !after.driver.channel
        && !after.capturing && !after.recording && !after.capture.encoder && !after.capture.feeding
        && after.listening.streams == {} && !after.listening.keepAwake
  {
  }

  /** Going to sleep mutes the encoder and closes the streams; waking up opens new ones during a capture
      whose channel is there, if the driver answers, and feeds the encoder. */
  lemma {:induction false} WakeUpRestores(s: Session, reopened: bool)
    ensures
      var asleep := Stepped(s, StepMute);
      !asleep.capture.feeding && asleep.driver.open.None? && asleep.capturing == s.capturing
    ensures
      var awake := Stepped(s, StepWake(reopened));
      && awake.capture.feeding
      && awake.driver.open == (if s.capturing && s.driver.channel && reopened then Some(s.driver.openings) else s.driver.open)
  {
  }
}
