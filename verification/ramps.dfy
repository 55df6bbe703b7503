/** Gains that must not depend on how the signal is cut into blocks: the smoothed gain
    (jamodio-audio-core/src/gain.rs), the join fade and the dry/wet fade
    (jamodio-agent/src/pipeline.rs). Samples and gains are reals. */
module Ramps {

  function Pow(x: real, n: nat): real {
    if n == 0 then 1.0 else x * Pow(x, n - 1)
  }

  // ------------------------------------------------------------------ the smoothed gain

  /** The two coefficients of the asymmetric one-pole filter. */
  datatype Coeffs = Coeffs(attack: real, release: real)
  {
    predicate Valid() {
      0.0 < attack < 1.0 && 0.0 < release < 1.0
    }

    function Toward(current: real, target: real): real {
      if target > current then attack else release
    }
  }

  const NEUTRAL_BAND: real := 0.00000011920928955078125

  function Times(x: real, y: real): real {
    x * y
  }

  function Advance(k: Coeffs, current: real, target: real): real {
    current + Times(target - current, k.Toward(current, target))
  }

  /** The gain after `n` samples toward a constant target. */
  function Glide(k: Coeffs, current: real, target: real, n: nat): real {
    if n == 0 then current else Advance(k, Glide(k, current, target, n - 1), target)
  }

  function Abs(x: real): real {
    if x < 0.0 then -x else x
  }

  /** The whole block is skipped when the neutral gain is reached. */
  predicate Neutral(current: real, target: real) {
    target == 1.0 && Abs(current - 1.0) < NEUTRAL_BAND
  }

  function GainAt(k: Coeffs, current: real, target: real, i: nat): real {
    if Neutral(current, target) then 1.0 else Glide(k, current, target, i + 1)
  }

  function CurrentAfter(k: Coeffs, current: real, target: real, n: nat): real {
    if Neutral(current, target) then current else Glide(k, current, target, n)
  }

  lemma {:induction false} TimesShrinks(gap: real, c: real)
    requires 0.0 < c < 1.0
    ensures gap > 0.0 ==> 0.0 < Times(gap, c) < gap
    ensures gap < 0.0 ==> gap < Times(gap, c) < 0.0
    ensures gap == 0.0 ==> Times(gap, c) == 0.0
  {
    if gap > 0.0 {
      assert 0.0 < gap * c < gap;
    } else if gap < 0.0 {
      assert 0.0 < -gap * c < -gap;
      assert -gap * c == -(gap * c);
    }
  }

  lemma {:induction false} TimesLeaves(gap: real, c: real)
    ensures gap - Times(gap, c) == Times(1.0 - c, gap)
  {
    assert (1.0 - c) * gap == gap - c * gap;
  }

  /** One step closes the gap by the coefficient and never reaches the target. */
  lemma {:induction false} GapStep(k: Coeffs, current: real, target: real)
    requires k.Valid()
    ensures
      var next := Advance(k, current, target);
      && target - next == Times(1.0 - k.Toward(current, target), target - current)
      && (target > current ==> current < next < target)
      && (target < current ==> target < next < current)
      && (target == current ==> next == current)
  {
    hide Times;
    TimesShrinks(target - current, k.Toward(current, target));
    TimesLeaves(target - current, k.Toward(current, target));
  }

  lemma {:induction false} GlideBetween(k: Coeffs, current: real, target: real, n: nat)
    requires k.Valid()
    ensures
      var g := Glide(k, current, target, n);
      && (target > current ==> current <= g < target)
      && (target < current ==> target < g <= current)
      && (target == current ==> g == current)
  {
    hide Advance;
    if n > 0 {
      GlideBetween(k, current, target, n - 1);
      GapStep(k, Glide(k, current, target, n - 1), target);
    }
  }

  lemma {:induction false} SameSide(k: Coeffs, current: real, target: real, n: nat)
    requires k.Valid()
    ensures k.Toward(Glide(k, current, target, n), target) == k.Toward(current, target)
  {
    GlideBetween(k, current, target, n);
  }

  lemma {:induction false} GapIsPower(k: Coeffs, current: real, target: real, n: nat)
    requires k.Valid()
    ensures target - Glide(k, current, target, n) == Pow(1.0 - k.Toward(current, target), n) * (target - current)
  {
    hide Advance, Coeffs.Toward;
    if n > 0 {
      var c := k.Toward(current, target);
      var g := Glide(k, current, target, n - 1);
      GapIsPower(k, current, target, n - 1);
      assert k.Toward(g, target) == c by {
        SameSide(k, current, target, n - 1);
      }
      GapStep(k, g, target);
      Associate(1.0 - c, Pow(1.0 - c, n - 1), target - current);
    }
  }

  /** With a constant target the gain never overshoots, and after `n` samples the gap is exactly
      the `n`th power of what one step, of the attack to rise and of the release to fall, leaves of it. */
  lemma {:induction false} GlideGap(k: Coeffs, current: real, target: real, n: nat)
    requires k.Valid()
    ensures
      var c := if target > current then k.attack else k.release;
      var g := Glide(k, current, target, n);
      && target - g == Pow(1.0 - c, n) * (target - current)
      && (target > current ==> current <= g < target)
      && (target < current ==> target < g <= current)
      && (target == current ==> g == current)
  {
    hide Glide, Pow;
    GlideBetween(k, current, target, n);
    GapIsPower(k, current, target, n);
  }

  lemma {:induction false} Associate(x: real, y: real, z: real)
    ensures x * (y * z) == (x * y) * z
  {
  }

  lemma {:induction false} GlideSplits(k: Coeffs, current: real, target: real, m: nat, n: nat)
    ensures Glide(k, current, target, m + n) == Glide(k, Glide(k, current, target, m), target, n)
  {
    if n > 0 {
      GlideSplits(k, current, target, m, n - 1);
    }
  }

  /** A block under a gain that is neutral, within 2^-23, and stays so is left as it is; otherwise the first
      sample already gets one step of the ramp, each next one one step more, and the gain kept is that of
      the last. */
  lemma {:induction false} GainsFollowTheRamp(k: Coeffs, current: real, target: real, n: nat)
    requires n > 0
    ensures
      if target == 1.0 && -1.0 < (current - 1.0) * 8388608.0 < 1.0 then
        && (forall i: nat :: GainAt(k, current, target, i) == 1.0)
        && CurrentAfter(k, current, target, n) == current
      else
        && GainAt(k, current, target, 0) == Advance(k, current, target)
        && (forall i: nat :: GainAt(k, current, target, i + 1) == Advance(k, GainAt(k, current, target, i), target))
        && CurrentAfter(k, current, target, n) == GainAt(k, current, target, n - 1)
  {
    hide Advance;
    assert Glide(k, current, target, 1) == Advance(k, Glide(k, current, target, 0), target);
  }

  /** Sample `i` of a signal of `m + n` samples cut after `m` gets this gain. */
  function GainWhenCut(k: Coeffs, current: real, target: real, m: nat, i: nat): real {
    if i < m then GainAt(k, current, target, i)
    else GainAt(k, CurrentAfter(k, current, target, m), target, i - m)
  }

  /** Cutting a signal in two changes no gain, with one exception, and it is exactly this one: the
      target is 1, the first block starts outside the neutral band and ends inside it, so the
      second block is skipped. */
  lemma {:induction false} CutIsExactUnlessNeutralReached(k: Coeffs, current: real, target: real, m: nat, n: nat)
    requires k.Valid() && n > 0
    ensures (forall i: nat :: i < m + n ==> GainWhenCut(k, current, target, m, i) == GainAt(k, current, target, i)) <==>
            Neutral(current, target) || !Neutral(Glide(k, current, target, m), target)
  {
    var middle := Glide(k, current, target, m);
    if !Neutral(current, target) {
      if Neutral(middle, target) {
        assert GainWhenCut(k, current, target, m, m) == 1.0;
        GlideGap(k, current, target, m + 1);
        assert current != target by {
          assert Abs(current - 1.0) >= NEUTRAL_BAND;
        }
        assert GainAt(k, current, target, m) == Glide(k, current, target, m + 1) != 1.0;
      } else {
        forall i: nat | i < m + n
          ensures GainWhenCut(k, current, target, m, i) == GainAt(k, current, target, i)
        {
          if i >= m {
            GlideSplits(k, current, target, m, i - m + 1);
          }
        }
      }
    }
  }

  /** Whatever the coefficients, a signal of two samples that starts at the edge of the band under 1: cut
      in two, its second sample is not scaled. */
  lemma {:induction false} CutSkipsAGain(k: Coeffs)
    requires k.Valid()
    ensures
      var current := 1.0 - NEUTRAL_BAND;
      GainWhenCut(k, current, 1.0, 1, 1) == 1.0 && GainAt(k, current, 1.0, 1) < 1.0
  {
    hide Advance;
    var current := 1.0 - NEUTRAL_BAND;
    assert Glide(k, current, 1.0, 0) == current;
    GapStep(k, current, 1.0);
    assert Glide(k, current, 1.0, 1) == Advance(k, current, 1.0);
    GlideGap(k, current, 1.0, 2);
  }

  function Gains(k: Coeffs, current: real, target: real, n: nat): seq<real> {
    seq(n, i requires 0 <= i < n => GainAt(k, current, target, i))
  }

  /** The gains of a signal that comes in blocks of these lengths. */
  function GainsByBlocks(k: Coeffs, current: real, target: real, lengths: seq<nat>): seq<real>
    decreases |lengths|
  {
    if lengths == [] then []
    else Gains(k, current, target, lengths[0])
         + GainsByBlocks(k, CurrentAfter(k, current, target, lengths[0]), target, lengths[1..])
  }

  function Sum(lengths: seq<nat>): nat {
    if lengths == [] then 0 else lengths[0] + Sum(lengths[1..])
  }

  /** Toward any target but 1, any number of cuts changes no gain. */
  lemma {:induction false} CutsAreExact(k: Coeffs, current: real, target: real, lengths: seq<nat>)
    requires target != 1.0
    ensures GainsByBlocks(k, current, target, lengths) == Gains(k, current, target, Sum(lengths))
    decreases |lengths|
  {
    if lengths != [] {
      var n := lengths[0];
      var middle := Glide(k, current, target, n);
      CutsAreExact(k, middle, target, lengths[1..]);
      forall i: nat | i < Sum(lengths[1..])
        ensures GainAt(k, current, target, n + i) == GainAt(k, middle, target, i)
      {
        GlideSplits(k, current, target, n, i + 1);
      }
    }
  }

  lemma {:induction false} GainsCount(k: Coeffs, current: real, target: real, lengths: seq<nat>)
    ensures |GainsByBlocks(k, current, target, lengths)| == Sum(lengths)
    decreases |lengths|
  {
    if lengths != [] {
      GainsCount(k, CurrentAfter(k, current, target, lengths[0]), target, lengths[1..]);
    }
  }

  /** Once in the band, every block is skipped, however the signal is cut. */
  lemma {:induction false} NeutralCutsAreExact(k: Coeffs, current: real, target: real, lengths: seq<nat>)
    requires Neutral(current, target)
    ensures GainsByBlocks(k, current, target, lengths) == Gains(k, current, target, Sum(lengths))
    decreases |lengths|
  {
    if lengths != [] {
      NeutralCutsAreExact(k, current, target, lengths[1..]);
    }
  }

  /** No block that leaves samples after it ends inside the band. */
  predicate StaysOutside(k: Coeffs, current: real, target: real, lengths: seq<nat>)
    decreases |lengths|
  {
    lengths != [] ==>
      var middle := Glide(k, current, target, lengths[0]);
      && (Sum(lengths[1..]) > 0 ==> !Neutral(middle, target))
      && StaysOutside(k, middle, target, lengths[1..])
  }

  lemma {:induction false} NothingLeft(k: Coeffs, current: real, target: real, lengths: seq<nat>)
    requires Sum(lengths) == 0
    ensures StaysOutside(k, current, target, lengths)
    decreases |lengths|
  {
    if lengths != [] {
      NothingLeft(k, Glide(k, current, target, lengths[0]), target, lengths[1..]);
    }
  }

  /** The gains of the whole are those of the first block followed by those from where it ends. */
  lemma {:induction false} GainsContinue(k: Coeffs, current: real, target: real, n: nat, m: nat)
    requires !Neutral(current, target)
    ensures |Gains(k, current, target, n + m)| == n + m
    ensures Gains(k, current, target, n + m)[..n] == Gains(k, current, target, n)
    ensures !Neutral(Glide(k, current, target, n), target) ==>
              Gains(k, current, target, n + m)[n..] == Gains(k, Glide(k, current, target, n), target, m)
  {
    var middle := Glide(k, current, target, n);
    if !Neutral(middle, target) {
      forall i: nat | i < m
        ensures GainAt(k, current, target, n + i) == GainAt(k, middle, target, i)
      {
        GlideSplits(k, current, target, n, i + 1);
      }
      var rest := Gains(k, current, target, n + m)[n..];
      assert forall i :: 0 <= i < m ==> rest[i] == GainAt(k, current, target, n + i);
    }
  }

  /** When the first block ends inside the band, the next sample loses the gain it had. */
  lemma {:induction false} ReachedIsSkipped(k: Coeffs, current: real, target: real, n: nat, rest: seq<nat>)
    requires k.Valid() && !Neutral(current, target) && Neutral(Glide(k, current, target, n), target) && Sum(rest) > 0
    ensures |GainsByBlocks(k, Glide(k, current, target, n), target, rest)| == Sum(rest)
    ensures GainsByBlocks(k, Glide(k, current, target, n), target, rest)[0] != Gains(k, current, target, n + Sum(rest))[n]
  {
    var middle := Glide(k, current, target, n);
    NeutralCutsAreExact(k, middle, target, rest);
    GlideGap(k, current, target, n);
    GlideGap(k, current, target, n + 1);
    assert current != target;
    assert Gains(k, middle, target, Sum(rest))[0] == 1.0;
  }

  lemma {:induction false} SameHead(head: seq<real>, a: seq<real>, b: seq<real>)
    ensures head + a == head + b <==> a == b
  {
    assert (head + a)[|head|..] == a && (head + b)[|head|..] == b;
  }

  /** Any number of cuts changes no gain, with one exception and exactly this one: the signal starts
      outside the neutral band and some block ends inside it with samples still to come. */
  lemma {:induction false} CutsAreExactUnlessNeutralReached(k: Coeffs, current: real, target: real, lengths: seq<nat>)
    requires k.Valid()
    ensures GainsByBlocks(k, current, target, lengths) == Gains(k, current, target, Sum(lengths)) <==>
            Neutral(current, target) || StaysOutside(k, current, target, lengths)
    decreases |lengths|
  {
    hide Neutral, GainAt, Glide, Gains;
    if Neutral(current, target) {
      NeutralCutsAreExact(k, current, target, lengths);
    } else if lengths == [] {
      assert Gains(k, current, target, 0) == [] by {
        NoGains(k, current, target);
      }
    } else {
      var n, rest := lengths[0], lengths[1..];
      var middle := Glide(k, current, target, n);
      var whole := Gains(k, current, target, n + Sum(rest));
      var cut := GainsByBlocks(k, middle, target, rest);
      GainsContinue(k, current, target, n, Sum(rest));
      assert whole == whole[..n] + whole[n..];
      SameHead(whole[..n], cut, whole[n..]);
      GainsCount(k, middle, target, rest);
      if Sum(rest) == 0 {
        NothingLeft(k, middle, target, rest);
        assert cut == [] == whole[n..];
      } else if Neutral(middle, target) {
        ReachedIsSkipped(k, current, target, n, rest);
        assert cut[0] != whole[n..][0];
      } else {
        CutsAreExactUnlessNeutralReached(k, middle, target, rest);
      }
    }
  }

  lemma {:induction false} NoGains(k: Coeffs, current: real, target: real)
    ensures Gains(k, current, target, 0) == []
  {
  }

  class SmoothGain {
    var current: real
    const k: Coeffs

    constructor (initial: real, k: Coeffs)
      ensures current == initial && this.k == k
    {
      this.current := initial;
      this.k := k;
    }

    /** One sample toward `target`. */
    method Next(target: real) returns (gain: real)
      modifies this
      ensures gain == current == Advance(k, old(current), target)
    {
      current := current + (target - current) * k.Toward(current, target);
      gain := current;
    }

    method ApplyMonoBlock(buf: array<real>, target: real)
      modifies this, buf
      ensures forall i :: 0 <= i < buf.Length ==> buf[i] == old(buf[i]) * GainAt(k, old(current), target, i)
      ensures current == CurrentAfter(k, old(current), target, buf.Length)
    {
      hide Advance, Times, Coeffs.Toward;
      if Neutral(current, target) {
        return;
      }
      for i := 0 to buf.Length
        invariant current == Glide(k, old(current), target, i)
        invariant forall j :: 0 <= j < i ==> buf[j] == old(buf[j]) * Glide(k, old(current), target, j + 1)
        invariant forall j :: i <= j < buf.Length ==> buf[j] == old(buf[j])
      {
        var g := Next(target);
        buf[i] := buf[i] * g;
      }
    }

    /** Both samples of frame `i` by the same gain. */
    method ScaleFrame(buf: array<real>, i: nat, gain: real)
      requires 2 * i + 1 < buf.Length
      modifies buf
      ensures forall j :: 2 * i <= j < 2 * i + 2 ==> buf[j] == old(buf[j]) * gain
      ensures forall j :: 0 <= j < buf.Length && !(2 * i <= j < 2 * i + 2) ==> buf[j] == old(buf[j])
    {
      buf[2 * i] := buf[2 * i] * gain;
      buf[2 * i + 1] := buf[2 * i + 1] * gain;
    }

    method ScaleFrames(buf: array<real>, target: real)
      modifies this, buf
      ensures forall j :: 0 <= j < buf.Length / 2 * 2 ==> buf[j] == old(buf[j]) * Glide(k, old(current), target, j / 2 + 1)
      ensures buf.Length % 2 == 1 ==> buf[buf.Length - 1] == old(buf[buf.Length - 1])
      ensures current == Glide(k, old(current), target, buf.Length / 2)
    {
      hide Advance, Times, Coeffs.Toward;
      for i := 0 to buf.Length / 2
        invariant current == Glide(k, old(current), target, i)
        invariant forall j :: 0 <= j < 2 * i ==> buf[j] == old(buf[j]) * Glide(k, old(current), target, j / 2 + 1)
        invariant forall j :: 2 * i <= j < buf.Length ==> buf[j] == old(buf[j])
      {
        var g := Next(target);
        ScaleFrame(buf, i, g);
        assert forall j :: 2 * i <= j < 2 * i + 2 ==> j / 2 == i;
      }
    }

    /** Both channels of a frame get the same gain; an orphan sample gets the current one. */
    method ApplyStereoBlock(buf: array<real>, target: real)
      modifies this, buf
      ensures forall j :: 0 <= j < buf.Length / 2 * 2 ==> buf[j] == old(buf[j]) * GainAt(k, old(current), target, j / 2)
      ensures current == CurrentAfter(k, old(current), target, buf.Length / 2)
      ensures buf.Length % 2 == 1 ==>
                buf[buf.Length - 1] == old(buf[buf.Length - 1]) * (if Neutral(old(current), target) then 1.0 else current)
    {
      if Neutral(current, target) {
        return;
      }
      ScaleFrames(buf, target);
      if buf.Length % 2 == 1 {
        buf[buf.Length - 1] := buf[buf.Length - 1] * current;
      }
    }
  }

  // ------------------------------------------------------------------ the join fade

  const JOIN_FADE_SAMPLES: nat := 28_800

  /** The gain of the join fade at an absolute position of the stream. */
  function JoinGain(position: nat): real {
    if position < JOIN_FADE_SAMPLES then position as real / JOIN_FADE_SAMPLES as real else 1.0
  }

  /** The fade starts from silence, rises by equal steps for 28 800 samples, 300 ms of both channels, and
      leaves the rest as it is. */
  lemma {:induction false} JoinFadeRises(position: nat)
    ensures JoinGain(0) == 0.0
    ensures position < 28_800 ==> (JoinGain(position + 1) - JoinGain(position)) * 28800.0 == 1.0
    ensures position >= 28_800 ==> JoinGain(position) == 1.0
  {
  }

  function Least(a: nat, b: nat): nat {
    if a < b then a else b
  }

  method ApplyJoinFade(block: array<real>, remaining: nat) returns (left: nat)
    requires remaining <= JOIN_FADE_SAMPLES
    modifies block
    ensures left == remaining - Least(remaining, block.Length)
    ensures forall i :: 0 <= i < block.Length ==>
              block[i] == old(block[i]) * JoinGain(JOIN_FADE_SAMPLES - remaining + i)
  {
    left := remaining;
    if remaining == 0 {
      return;
    }
    var i := 0;
    while i < block.Length && left > 0
      invariant 0 <= i <= block.Length && left == remaining - i
      invariant forall j :: 0 <= j < i ==> block[j] == old(block[j]) * JoinGain(JOIN_FADE_SAMPLES - remaining + j)
      invariant forall j :: i <= j < block.Length ==> block[j] == old(block[j])
    {
      var done := JOIN_FADE_SAMPLES - left;
      block[i] := block[i] * (done as real / JOIN_FADE_SAMPLES as real);
      left := left - 1;
      i := i + 1;
    }
  }

  function JoinFaded(block: seq<real>, remaining: nat): (seq<real>, nat)
    requires remaining <= JOIN_FADE_SAMPLES
  {
    (seq(|block|, i requires 0 <= i < |block| => block[i] * JoinGain(JOIN_FADE_SAMPLES - remaining + i)),
     remaining - Least(remaining, |block|))
  }

  function Concat(blocks: seq<seq<real>>): seq<real> {
    if blocks == [] then [] else Concat(blocks[..|blocks| - 1]) + blocks[|blocks| - 1]
  }

  /** The fade of a stream that comes block by block. */
  function JoinFadedBlocks(blocks: seq<seq<real>>): (out: (seq<real>, nat))
    ensures out.1 <= JOIN_FADE_SAMPLES
  {
    if blocks == [] then ([], JOIN_FADE_SAMPLES) else
    var (before, remaining) := JoinFadedBlocks(blocks[..|blocks| - 1]);
    var (block, left) := JoinFaded(blocks[|blocks| - 1], remaining);
    (before + block, left)
  }

  /** One more block continues the fade where the blocks before it left it. */
  lemma {:induction false} JoinFadeAppends(before: seq<real>, block: seq<real>)
    ensures
      var (faded, remaining) := JoinFaded(before, JOIN_FADE_SAMPLES);
      var (next, left) := JoinFaded(block, remaining);
      JoinFaded(before + block, JOIN_FADE_SAMPLES) == (faded + next, left)
  {
    hide JoinGain;
    var (faded, remaining) := JoinFaded(before, JOIN_FADE_SAMPLES);
    var (next, left) := JoinFaded(block, remaining);
    var whole := JoinFaded(before + block, JOIN_FADE_SAMPLES).0;
    forall i | 0 <= i < |whole|
      ensures whole[i] == (faded + next)[i]
    {
      if i >= |before| {
        JoinGainContinues(|before|, i - |before|);
      }
    }
    assert whole == faded + next;
  }

  lemma {:induction false} JoinGainContinues(before: nat, i: nat)
    ensures JoinGain(Least(JOIN_FADE_SAMPLES, before) + i) == JoinGain(before + i)
  {
  }

  /** However the stream is cut, the result is that of the uncut stream, where each sample gets the
      gain of its absolute position. */
  lemma {:induction false} JoinFadeIgnoresCuts(blocks: seq<seq<real>>)
    ensures JoinFadedBlocks(blocks) == JoinFaded(Concat(blocks), JOIN_FADE_SAMPLES)
  {
    hide JoinFaded;
    if blocks == [] {
      JoinFadeOfNothing();
    } else {
      var n := |blocks| - 1;
      JoinFadeIgnoresCuts(blocks[..n]);
      JoinFadeAppends(Concat(blocks[..n]), blocks[n]);
    }
  }

  lemma {:induction false} JoinFadeOfNothing()
    ensures JoinFaded([], JOIN_FADE_SAMPLES) == ([], JOIN_FADE_SAMPLES)
  {
    assert JoinFaded([], JOIN_FADE_SAMPLES).0 == [];
  }

  // ------------------------------------------------------------------ the dry/wet fade

  /** The two gains at a position of the fade, the sine and the cosine in the program. */
  datatype Mix = Mix(wet: real, dry: real)

  function WetAt(curve: nat -> Mix, total: nat, position: nat, wet: real, dry: real): real {
    if position < total then dry * curve(position).dry + wet * curve(position).wet else wet
  }

  /** With a curve that starts at the dry signal, so does the fade; once it is over there is nothing but the
      wet one; in between each signal has its own gain. */
  lemma {:induction false} FadeGoesFromDryToWet(curve: nat -> Mix, total: nat, position: nat, wet: real, dry: real)
    requires curve(0) == Mix(0.0, 1.0)
    ensures total > 0 ==> WetAt(curve, total, 0, wet, dry) == dry
    ensures position >= total ==> WetAt(curve, total, position, wet, dry) == wet
    ensures position < total ==> WetAt(curve, total, position, wet, 0.0) == wet * curve(position).wet
                                 && WetAt(curve, total, position, 0.0, dry) == dry * curve(position).dry
  {
  }

  /** One stereo frame of the crossfade, both channels with the same gains. */
  method MixFrame(wet: array<real>, dry: array<real>, k: nat, g: Mix)
    requires wet.Length == dry.Length && wet != dry && 2 * k + 1 < wet.Length
    modifies wet
    ensures forall j :: 2 * k <= j < 2 * k + 2 ==> wet[j] == dry[j] * g.dry + old(wet[j]) * g.wet
    ensures forall j :: 0 <= j < wet.Length && !(2 * k <= j < 2 * k + 2) ==> wet[j] == old(wet[j])
  {
    wet[2 * k] := dry[2 * k] * g.dry + wet[2 * k] * g.wet;
    wet[2 * k + 1] := dry[2 * k + 1] * g.dry + wet[2 * k + 1] * g.wet;
  }

  method ApplyDryWetFade(wet: array<real>, dry: array<real>, remaining: nat, total: nat, curve: nat -> Mix)
    returns (left: nat)
    requires wet.Length == dry.Length && wet != dry && remaining <= total
    modifies wet
    ensures left == remaining - Least(remaining, wet.Length / 2)
    ensures forall j :: 0 <= j < wet.Length / 2 * 2 ==>
              wet[j] == WetAt(curve, total, total - remaining + j / 2, old(wet[j]), dry[j])
    ensures wet.Length % 2 == 1 ==> wet[wet.Length - 1] == old(wet[wet.Length - 1])
  {
    left := remaining;
    var k := 0;
    while k < wet.Length / 2 && left > 0
      invariant 0 <= k <= wet.Length / 2 && left == remaining - k
      invariant forall j :: 0 <= j < 2 * k ==> wet[j] == WetAt(curve, total, total - remaining + j / 2, old(wet[j]), dry[j])
      invariant forall j :: 2 * k <= j < wet.Length ==> wet[j] == old(wet[j])
    {
      MixFrame(wet, dry, k, curve(total - left));
      assert forall j :: 2 * k <= j < 2 * k + 2 ==> j / 2 == k;
      left := left - 1;
      k := k + 1;
    }
  }

  /** A block of the wet signal with the dry signal it replaces. */
  datatype Pair = Pair(wet: seq<real>, dry: seq<real>)

  predicate EvenPair(p: Pair) {
    |p.wet| == |p.dry| && |p.wet| % 2 == 0
  }

  function DryWetBlock(p: Pair, remaining: nat, total: nat, curve: nat -> Mix): (seq<real>, nat)
    requires EvenPair(p) && remaining <= total
  {
    (seq(|p.wet|, i requires 0 <= i < |p.wet| => WetAt(curve, total, total - remaining + i / 2, p.wet[i], p.dry[i])),
     remaining - Least(remaining, |p.wet| / 2))
  }

  function DryWetBlocks(blocks: seq<Pair>, total: nat, curve: nat -> Mix): (out: (seq<real>, nat))
    requires forall k :: 0 <= k < |blocks| ==> EvenPair(blocks[k])
    ensures out.1 <= total
  {
    if blocks == [] then ([], total) else
    var (before, remaining) := DryWetBlocks(blocks[..|blocks| - 1], total, curve);
    var (block, left) := DryWetBlock(blocks[|blocks| - 1], remaining, total, curve);
    (before + block, left)
  }

  function Joined(blocks: seq<Pair>): Pair {
    if blocks == [] then Pair([], []) else
    Both(Joined(blocks[..|blocks| - 1]), blocks[|blocks| - 1])
  }

  lemma {:induction false} DryWetElement(p: Pair, remaining: nat, total: nat, curve: nat -> Mix, i: nat)
    requires EvenPair(p) && remaining <= total && i < |p.wet|
    ensures |DryWetBlock(p, remaining, total, curve).0| == |p.wet|
    ensures DryWetBlock(p, remaining, total, curve).0[i] == WetAt(curve, total, total - remaining + i / 2, p.wet[i], p.dry[i])
  {
  }

  function Both(before: Pair, block: Pair): Pair {
    Pair(before.wet + block.wet, before.dry + block.dry)
  }

  lemma {:induction false} DryWetEarly(before: Pair, block: Pair, total: nat, curve: nat -> Mix, i: nat)
    requires EvenPair(before) && EvenPair(block) && EvenPair(Both(before, block)) && i < |before.wet|
    ensures DryWetBlock(Both(before, block), total, total, curve).0[i] == DryWetBlock(before, total, total, curve).0[i]
  {
    DryWetElement(before, total, total, curve, i);
    DryWetElement(Both(before, block), total, total, curve, i);
  }

  lemma {:induction false} DryWetLate(before: Pair, block: Pair, total: nat, curve: nat -> Mix, i: nat)
    requires EvenPair(before) && EvenPair(block) && EvenPair(Both(before, block)) && i < |block.wet|
    ensures
      DryWetBlock(Both(before, block), total, total, curve).0[|before.wet| + i]
      == DryWetBlock(block, total - Least(total, |before.wet| / 2), total, curve).0[i]
  {
    hide DryWetBlock, WetAt;
    var n := |before.wet|;
    DryWetElement(Both(before, block), total, total, curve, n + i);
    DryWetElement(block, total - Least(total, n / 2), total, curve, i);
    Halves(n, i);
    WetContinues(curve, total, n / 2, i / 2, block.wet[i], block.dry[i]);
  }

  lemma {:induction false} DryWetAppends(before: Pair, block: Pair, total: nat, curve: nat -> Mix)
    requires EvenPair(before) && EvenPair(block)
    ensures
      var (faded, remaining) := DryWetBlock(before, total, total, curve);
      var (next, left) := DryWetBlock(block, remaining, total, curve);
      EvenPair(Both(before, block)) && DryWetBlock(Both(before, block), total, total, curve) == (faded + next, left)
  {
    hide WetAt;
    var (faded, remaining) := DryWetBlock(before, total, total, curve);
    var next := DryWetBlock(block, remaining, total, curve).0;
    Halves(|before.wet|, |block.wet|);
    var whole := DryWetBlock(Both(before, block), total, total, curve).0;
    forall i | 0 <= i < |before.wet|
      ensures whole[i] == faded[i]
    {
      DryWetEarly(before, block, total, curve, i);
    }
    forall i | 0 <= i < |block.wet|
      ensures whole[|before.wet| + i] == next[i]
    {
      DryWetLate(before, block, total, curve, i);
    }
    Glue(whole, faded, next);
  }

  lemma {:induction false} Glue(whole: seq<real>, left: seq<real>, right: seq<real>)
    requires |whole| == |left| + |right|
    requires forall i :: 0 <= i < |left| ==> whole[i] == left[i]
    requires forall i :: 0 <= i < |right| ==> whole[|left| + i] == right[i]
    ensures whole == left + right
  {
    assert whole[|left|..] == right;
  }

  lemma {:induction false} Halves(even: nat, j: nat)
    requires even % 2 == 0
    ensures (even + j) / 2 == even / 2 + j / 2 && (even + j) % 2 == j % 2
  {
  }

  lemma {:induction false} WetContinues(curve: nat -> Mix, total: nat, before: nat, i: nat, wet: real, dry: real)
    ensures WetAt(curve, total, Least(total, before) + i, wet, dry) == WetAt(curve, total, before + i, wet, dry)
  {
  }

  lemma {:induction false} DryWetOfNothing(total: nat, curve: nat -> Mix)
    ensures DryWetBlock(Pair([], []), total, total, curve) == ([], total)
  {
    assert DryWetBlock(Pair([], []), total, total, curve).0 == [];
  }

  /** The crossfade of whole stereo frames does not depend on the cuts either. */
  lemma {:induction false} DryWetFadeIgnoresCuts(blocks: seq<Pair>, total: nat, curve: nat -> Mix)
    requires forall k :: 0 <= k < |blocks| ==> EvenPair(blocks[k])
    ensures EvenPair(Joined(blocks))
    ensures DryWetBlocks(blocks, total, curve) == DryWetBlock(Joined(blocks), total, total, curve)
  {
    hide DryWetBlock;
    if blocks == [] {
      DryWetOfNothing(total, curve);
    } else {
      var n := |blocks| - 1;
      DryWetFadeIgnoresCuts(blocks[..n], total, curve);
      DryWetAppends(Joined(blocks[..n]), blocks[n], total, curve);
    }
  }
}
