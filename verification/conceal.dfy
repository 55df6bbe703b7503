/** The decision taken when an expected frame does not show up
    (jamodio-audio-core/src/mixer/conceal.rs). Durations are milliseconds, as reals. */
module Conceal {
  import opened Options

  /** A duration measured as a float: `None` stands for NaN or an infinity. */
  type Measure = Option<real>

  const FRAME_MS: real := 2.5
  const MAX_CONSECUTIVE: nat := 3
  const GRACE_MIN_MS: real := 1.0
  const GRACE_MAX_MS: real := 10.0
  const WAKE_SLACK_MS: real := 0.5
  const MIN_SLEEP_MS: real := 0.5
  const MAX_SLEEP_MS: real := 5.0

  datatype Wait = NotDue | LinkUnknown | WithinGrace | BufferHolds | Repriming

  datatype Decision = Hold(why: Wait) | Frame | FadeToSilence

  function Max(a: real, b: real): real {
    if a < b then b else a
  }

  function Clamp(x: real, lo: real, hi: real): real
    requires lo <= hi
  {
    if x < lo then lo else if x > hi then hi else x
  }

  function Grace(tail: real): real {
    Clamp(tail, GRACE_MIN_MS, GRACE_MAX_MS)
  }

  /** What one pull of the output takes at once. */
  function OutputDraw(block: Measure): real {
    if block.Some? && block.value > 0.0 then block.value else FRAME_MS
  }

  /** Below this fill the buffer may not survive the next pull. */
  function Survival(block: Measure): real {
    if block.Some? && block.value > 0.0 then block.value + WAKE_SLACK_MS else FRAME_MS
  }

  function Decide(late: Measure, fill: Measure, block: Measure, tail: Measure, consecutive: nat): Decision {
    if late.None? || late.value < 0.0 then Hold(NotDue)
    else if tail.None? then Hold(LinkUnknown)
    else if late.value < Grace(tail.value) then Hold(WithinGrace)
    else if fill.None? || fill.value >= Survival(block) then Hold(BufferHolds)
    else if consecutive >= MAX_CONSECUTIVE then FadeToSilence
    else Frame
  }

  /** How long before the decision `why` may change if no packet comes. */
  function RecheckIn(why: Wait, late: Measure, fill: Measure, block: Measure, tail: Measure): Option<real> {
    match why
    case NotDue => None
    case Repriming => None
    case LinkUnknown => Some(FRAME_MS)
    case WithinGrace =>
      if tail.Some? && late.Some? then Some(Max(Grace(tail.value) - late.value, 0.0)) else Some(0.0)
    case BufferHolds =>
      if fill.Some? then Some(Max(fill.value - Survival(block) - OutputDraw(block), 0.0)) else Some(0.0)
  }

  function SleepUntilDeadline(ms: Measure): (s: real)
    ensures 0.5 <= s <= 5.0
    ensures ms.Some? && 0.5 <= ms.value <= 5.0 ==> s == ms.value
    ensures ms.None? || ms.value < 0.5 ==> s == 0.5
    ensures ms.Some? && ms.value > 5.0 ==> s == 5.0
  {
    if ms.None? then MIN_SLEEP_MS else Clamp(ms.value, MIN_SLEEP_MS, MAX_SLEEP_MS)
  }

  /** By how much an invented frame was premature, `None` when it was not. */
  function PrematureMargin(fillAtConceal: real, consumed: real): (margin: Option<real>)
    ensures margin.Some? ==> margin.value + consumed == fillAtConceal && 0.0 <= margin.value <= fillAtConceal
    ensures margin.Some? <==> 0.0 <= consumed <= fillAtConceal
  {
    if fillAtConceal < 0.0 || consumed < 0.0 || consumed > fillAtConceal then None
    else Some(fillAtConceal - consumed)
  }

  /** Coming back only after the announced delay never misses an instant at which something
      could be invented. The output consumes no faster than time, plus one pull it may take
      ahead: a fill read `t` later is at least `fill - t - draw`. */
  lemma {:induction false} RecheckIsNeverLate(late: real, fill: real, block: Measure, tail: Measure, consecutive: nat,
                           t: real, laterFill: real)
    requires Decide(Some(late), Some(fill), block, tail, consecutive).Hold?
    requires late >= 0.0
    requires
      var why := Decide(Some(late), Some(fill), block, tail, consecutive).why;
      var r := RecheckIn(why, Some(late), Some(fill), block, tail);
      r.Some? && 0.0 <= t < r.value
    requires laterFill >= fill - t - OutputDraw(block)
    ensures Decide(Some(late + t), Some(laterFill), block, tail, consecutive).Hold?
  {
    if tail.Some? && late >= Grace(tail.value) {
      assert fill - t - OutputDraw(block) > Survival(block);
    }
  }

  /** The announced delay is not longer than needed either: the grace ends exactly there, and
      past it one possible pull pattern brings the buffer under its survival threshold. */
  lemma {:induction false} RecheckIsTight(late: real, fill: real, block: Measure, tail: real, consecutive: nat, t: real)
    requires late >= 0.0 && t >= 0.0
    requires Decide(Some(late), Some(fill), block, Some(tail), consecutive).Hold?
    ensures
      var why := Decide(Some(late), Some(fill), block, Some(tail), consecutive).why;
      var r := RecheckIn(why, Some(late), Some(fill), block, Some(tail));
      && r.Some?
      && (why == WithinGrace ==>
            (Decide(Some(late + t), Some(fill), block, Some(tail), consecutive) == Hold(WithinGrace) <==> t < r.value))
      && (why == BufferHolds && t > r.value ==>
            !Decide(Some(late + t), Some(fill - t - OutputDraw(block)), block, Some(tail), consecutive).Hold?)
  {
  }
}
