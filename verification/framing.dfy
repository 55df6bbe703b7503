/** Cutting a signal into Opus frames and numbering the RTP packets
    (jamodio-agent/src/pipeline.rs, `encode_stage_loop` and `voice_encode_stage_loop`).
    Frames are 120 samples per channel; the header follows section 5.1 of RFC 3550. */
module Framing {
  import Ramps

  // ------------------------------------------------------------------ cutting

  /** The whole frames of a signal, in order. */
  function Chunks(s: seq<real>, size: nat): (frames: seq<seq<real>>)
    requires size > 0
    ensures forall k :: 0 <= k < |frames| ==> |frames[k]| == size
    decreases |s|
  {
    if |s| < size then [] else [s[..size]] + Chunks(s[size..], size)
  }

  /** What does not fill a frame yet. */
  function Rest(s: seq<real>, size: nat): (rest: seq<real>)
    requires size > 0
    ensures |rest| < size
    decreases |s|
  {
    if |s| < size then s else Rest(s[size..], size)
  }

  function Flatten(frames: seq<seq<real>>): seq<real> {
    if frames == [] then [] else frames[0] + Flatten(frames[1..])
  }

  /** No sample is lost, doubled or moved. */
  lemma {:induction false} FramesConserveTheSignal(s: seq<real>, size: nat)
    requires size > 0
    ensures Flatten(Chunks(s, size)) + Rest(s, size) == s
    decreases |s|
  {
    if |s| >= size {
      FramesConserveTheSignal(s[size..], size);
      assert Chunks(s, size)[1..] == Chunks(s[size..], size);
      assert s == s[..size] + s[size..];
    }
  }

  /** Feeding a signal in two parts gives the same frames and leaves the same rest. */
  lemma {:induction false} Feed(s: seq<real>, t: seq<real>, size: nat)
    requires size > 0
    ensures Chunks(s + t, size) == Chunks(s, size) + Chunks(Rest(s, size) + t, size)
    ensures Rest(s + t, size) == Rest(Rest(s, size) + t, size)
    decreases |s|
  {
    if |s| >= size {
      Feed(s[size..], t, size);
      assert (s + t)[..size] == s[..size];
      assert (s + t)[size..] == s[size..] + t;
    }
  }

  lemma {:induction false} ChunkIsItsStretch(s: seq<real>, size: nat, k: nat)
    requires size > 0 && k < |Chunks(s, size)|
    ensures (k + 1) * size <= |s|
    ensures Chunks(s, size)[k] == s[k * size..(k + 1) * size]
    decreases |s|
  {
    if k > 0 {
      ChunkIsItsStretch(s[size..], size, k - 1);
      assert (k - 1) * size + size == k * size;
      Shifted(s, size, (k - 1) * size, k * size);
    }
  }

  lemma {:induction false} Shifted(s: seq<real>, by_: nat, from: nat, to: nat)
    requires by_ + to <= |s| && from <= to
    ensures s[by_..][from..to] == s[from + by_..to + by_]
  {
  }

  // ------------------------------------------------------------------ numbering

  const SEQUENCES: nat := 65_536
  const WORDS: nat := 4_294_967_296
  const FRAME_SIZE: nat := 120
  const FRAME_LEN: nat := 240

  /** What the encoder and then the socket answer for one frame. `sent` is false when encryption is
      refused, the socket buffer is full or the send fails. */
  datatype Answer = Failed | Encoded(octets: nat, sent: bool)

  /** A packet handed to the sender; its payload is the encoding of `frame`. */
  datatype Packet = Packet(number: nat, timestamp: nat, marker: bool, frame: seq<real>)

  datatype Start = Start(number: nat, timestamp: nat)
  {
    predicate Valid() {
      number < SEQUENCES && timestamp < WORDS
    }
  }

  datatype Line = Line(number: nat, timestamp: nat, packets: seq<Packet>)

  /** A frame that cannot be encoded is consumed and takes no number. */
  function NextLine(start: Start, line: Line, frame: seq<real>, answer: Answer): Line {
    if answer.Failed? then line
    else Line((line.number + 1) % SEQUENCES, (line.timestamp + FRAME_SIZE) % WORDS,
              line.packets + [Packet(line.number, line.timestamp, line.number == start.number, frame)])
  }

  function LineAfter(start: Start, answers: nat -> Answer, frames: seq<seq<real>>): Line {
    if frames == [] then Line(start.number, start.timestamp, []) else
    var n := |frames| - 1;
    NextLine(start, LineAfter(start, answers, frames[..n]), frames[n], answers(n))
  }

  /** How many of the first `n` frames could be encoded. */
  function Encodings(answers: nat -> Answer, n: nat): nat {
    if n == 0 then 0 else Encodings(answers, n - 1) + (if answers(n - 1).Encoded? then 1 else 0)
  }

  lemma {:induction false} NumberSteps(first: nat, k: nat)
    ensures ((first + k) % SEQUENCES + 1) % SEQUENCES == (first + (k + 1)) % SEQUENCES
  {
  }

  lemma {:induction false} TimestampSteps(first: nat, k: nat)
    ensures ((first + FRAME_SIZE * k) % WORDS + FRAME_SIZE) % WORDS == (first + FRAME_SIZE * (k + 1)) % WORDS
  {
  }

  lemma {:induction false} MarkerTurns(first: nat, k: nat)
    requires first < SEQUENCES
    ensures (first + k) % SEQUENCES == first <==> k % SEQUENCES == 0
  {
  }

  predicate Numbered(start: Start, line: Line) {
    && line.number == (start.number + |line.packets|) % 65_536
    && line.timestamp == (start.timestamp + 120 * |line.packets|) % 0x1_0000_0000
    && forall k :: 0 <= k < |line.packets| ==>
         && line.packets[k].number == (start.number + k) % 65_536
         && line.packets[k].timestamp == (start.timestamp + 120 * k) % 0x1_0000_0000
         && (line.packets[k].marker <==> k % 65_536 == 0)
  }

  lemma {:induction false} NumberedNext(start: Start, line: Line, frame: seq<real>, answer: Answer)
    requires start.Valid() && Numbered(start, line)
    ensures Numbered(start, NextLine(start, line, frame, answer))
  {
    var k := |line.packets|;
    NumberSteps(start.number, k);
    TimestampSteps(start.timestamp, k);
    MarkerTurns(start.number, k);
  }

  /** The `k`th packet has the `k`th number and the `k`th timestamp after the random start, and the
      marker bit when the number comes round to the first one. */
  lemma {:induction false} PacketsAreNumbered(start: Start, answers: nat -> Answer, frames: seq<seq<real>>)
    requires start.Valid()
    ensures Numbered(start, LineAfter(start, answers, frames))
    ensures |LineAfter(start, answers, frames).packets| == Encodings(answers, |frames|)
  {
    hide Numbered;
    if frames == [] {
      EmptyLine(start);
    } else {
      var n := |frames| - 1;
      PacketsAreNumbered(start, answers, frames[..n]);
      NumberedNext(start, LineAfter(start, answers, frames[..n]), frames[n], answers(n));
    }
  }

  lemma {:induction false} EmptyLine(start: Start)
    requires start.Valid()
    ensures Numbered(start, Line(start.number, start.timestamp, []))
  {
  }

  /** Each encoded frame is in exactly the packet whose rank is the number of frames encoded before
      it, so the packets hold the encoded frames, in order. */
  lemma {:induction false} FrameIsInItsPacket(start: Start, answers: nat -> Answer, frames: seq<seq<real>>, f: nat)
    requires f < |frames| && answers(f).Encoded?
    ensures
      var packets := LineAfter(start, answers, frames).packets;
      && |packets| == Encodings(answers, |frames|)
      && Encodings(answers, f) < |packets|
      && packets[Encodings(answers, f)].frame == frames[f]
    decreases |frames|
  {
    var n := |frames| - 1;
    if f < n {
      FrameIsInItsPacket(start, answers, frames[..n], f);
    } else {
      CountPackets(start, answers, frames[..n]);
    }
  }

  /** The packet of the `f`th frame of an instrument holds its 240 samples, 120 of each channel. */
  lemma {:induction false} InstrumentPacketHoldsItsSamples(start: Start, answers: nat -> Answer, heard: seq<real>, f: nat)
    requires f < |Chunks(heard, FRAME_LEN)| && answers(f).Encoded?
    ensures
      var packets := LineAfter(start, answers, Chunks(heard, FRAME_LEN)).packets;
      && Encodings(answers, f) < |packets| && 240 * (f + 1) <= |heard|
      && packets[Encodings(answers, f)].frame == heard[240 * f..240 * (f + 1)]
  {
    hide LineAfter, Chunks;
    FrameIsInItsPacket(start, answers, Chunks(heard, FRAME_LEN), f);
    ChunkIsItsStretch(heard, FRAME_LEN, f);
  }

  lemma {:induction false} CountPackets(start: Start, answers: nat -> Answer, frames: seq<seq<real>>)
    ensures |LineAfter(start, answers, frames).packets| == Encodings(answers, |frames|)
  {
    if frames != [] {
      CountPackets(start, answers, frames[..|frames| - 1]);
    }
  }

  lemma {:induction false} EncodingsBounded(answers: nat -> Answer, n: nat)
    ensures Encodings(answers, n) <= n
  {
    if n > 0 {
      EncodingsBounded(answers, n - 1);
    }
  }

  lemma {:induction false} SameWord(x: nat, late: nat)
    ensures x % WORDS == (x + late) % WORDS <==> late % WORDS == 0
  {
  }

  /** The timestamp of an encoded frame is its position in the signal exactly when the frames that
      could not be encoded before it amount to whole turns of the 32-bit clock: none, in practice. */
  lemma {:induction false} TimestampIsPosition(start: Start, answers: nat -> Answer, frames: seq<seq<real>>, f: nat)
    requires start.Valid() && f < |frames| && answers(f).Encoded?
    ensures Encodings(answers, f) < |LineAfter(start, answers, frames).packets|
    ensures
      var packet := LineAfter(start, answers, frames).packets[Encodings(answers, f)];
      packet.timestamp == (start.timestamp + FRAME_SIZE * f) % WORDS
      <==> FRAME_SIZE * (f - Encodings(answers, f)) % WORDS == 0
  {
    FrameIsInItsPacket(start, answers, frames, f);
    PacketsAreNumbered(start, answers, frames);
    EncodingsBounded(answers, f);
    var k := Encodings(answers, f);
    SameWord(start.timestamp + FRAME_SIZE * k, FRAME_SIZE * (f - k));
  }

  /** When the first frame cannot be encoded, the second one leaves with the timestamp of the first. */
  lemma {:induction false} FailedFrameShiftsTheNext(start: Start, f0: seq<real>, f1: seq<real>, octets: nat, sent: bool)
    requires start.Valid()
    ensures
      var answers := (f: nat) => if f == 0 then Failed else Encoded(octets, sent);
      var packets := LineAfter(start, answers, [f0, f1]).packets;
      && |packets| == 1 && packets[0].frame == f1
      && packets[0].timestamp == start.timestamp != (start.timestamp + FRAME_SIZE) % WORDS
  {
    var answers := (f: nat) => if f == 0 then Failed else Encoded(octets, sent);
    assert [f0, f1][..1] == [f0] && [f0][..0] == [];
    assert LineAfter(start, answers, [f0]) == Line(start.number, start.timestamp, []);
    SameWord(start.timestamp, FRAME_SIZE);
  }

  /** What the socket does to a packet changes no packet. */
  lemma {:induction false} SocketChangesNoPacket(start: Start, a: nat -> Answer, b: nat -> Answer, frames: seq<seq<real>>)
    requires forall f: nat :: a(f).Encoded? <==> b(f).Encoded?
    ensures LineAfter(start, a, frames) == LineAfter(start, b, frames)
  {
    if frames != [] {
      SocketChangesNoPacket(start, a, b, frames[..|frames| - 1]);
    }
  }

  // ------------------------------------------------------------------ totals of the Sender Report

  datatype Report = Report(timestamp: nat, packets: nat, octets: nat)

  datatype Totals = Totals(packets: nat, octets: nat, reports: seq<Report>)

  function NextTotals(totals: Totals, timestamp: nat, answer: Answer): Totals {
    if answer.Failed? || !answer.sent then totals else
    var packets := (totals.packets + 1) % WORDS;
    var octets := (totals.octets + answer.octets) % WORDS;
    Totals(packets, octets, totals.reports + [Report(timestamp, packets, octets)])
  }

  function TotalsAfter(start: Start, answers: nat -> Answer, n: nat): Totals {
    if n == 0 then Totals(0, 0, []) else
    NextTotals(TotalsAfter(start, answers, n - 1), TimestampAfter(start, answers, n - 1), answers(n - 1))
  }

  function TimestampAfter(start: Start, answers: nat -> Answer, n: nat): nat {
    (start.timestamp + FRAME_SIZE * Encodings(answers, n)) % WORDS
  }

  predicate Gone(answer: Answer) {
    answer.Encoded? && answer.sent
  }

  function PacketsGone(answers: nat -> Answer, n: nat): nat {
    if n == 0 then 0 else PacketsGone(answers, n - 1) + (if Gone(answers(n - 1)) then 1 else 0)
  }

  function OctetsGone(answers: nat -> Answer, n: nat): nat {
    if n == 0 then 0 else OctetsGone(answers, n - 1) + (if Gone(answers(n - 1)) then answers(n - 1).octets else 0)
  }

  lemma {:induction false} SumStep(total: nat, more: nat)
    ensures (total % WORDS + more) % WORDS == (total + more) % WORDS
  {
  }

  /** The totals are the packets and octets that left, modulo 2^32, with one report for each. */
  lemma {:induction false} TotalsAreExact(start: Start, answers: nat -> Answer, n: nat)
    ensures
      var totals := TotalsAfter(start, answers, n);
      && totals.packets == PacketsGone(answers, n) % 0x1_0000_0000
      && totals.octets == OctetsGone(answers, n) % 0x1_0000_0000
      && |totals.reports| == PacketsGone(answers, n)
  {
    if n > 0 {
      TotalsAreExact(start, answers, n - 1);
      SumStep(PacketsGone(answers, n - 1), 1);
      if Gone(answers(n - 1)) {
        SumStep(OctetsGone(answers, n - 1), answers(n - 1).octets);
      }
    }
  }

  /** The report of a frame that left holds its own timestamp and the totals up to it. */
  lemma {:induction false} ReportOfFrame(start: Start, answers: nat -> Answer, f: nat, n: nat)
    requires f < n && Gone(answers(f))
    ensures PacketsGone(answers, f) < |TotalsAfter(start, answers, n).reports|
    ensures TotalsAfter(start, answers, n).reports[PacketsGone(answers, f)] ==
            Report(TimestampAfter(start, answers, f), PacketsGone(answers, f + 1) % WORDS, OctetsGone(answers, f + 1) % WORDS)
  {
    if f < n - 1 {
      ReportOfFrame(start, answers, f, n - 1);
    } else {
      TotalsAreExact(start, answers, f);
      TotalsAreExact(start, answers, n);
    }
  }

  // ------------------------------------------------------------------ the instrument

  function Silence(n: nat): (silence: seq<real>)
    ensures |silence| == n && forall i :: 0 <= i < n ==> silence[i] == 0.0
  {
    seq(n, _ => 0.0)
  }

  class InstrumentEncoder {
    const start: Start
    const answers: nat -> Answer
    var accumulator: seq<real>
    var line: Line
    var totals: Totals
    /** Frames consumed so far. */
    var tried: nat
    /** Everything captured so far, silenced where the channel was private. */
    ghost var heard: seq<real>
    ghost var frames: seq<seq<real>>

    ghost predicate Valid()
      reads this
    {
      && start.Valid()
      && frames == Chunks(heard, FRAME_LEN)
      && accumulator == Rest(heard, FRAME_LEN)
      && Emitted()
    }

    /** The frames consumed so far have produced this line and these totals. */
    ghost predicate Emitted()
      reads this
    {
      && tried == |frames|
      && line == LineAfter(start, answers, frames)
      && line.timestamp == TimestampAfter(start, answers, |frames|)
      && totals == TotalsAfter(start, answers, |frames|)
    }

    constructor (start: Start, answers: nat -> Answer)
      requires start.Valid()
      ensures Valid() && heard == [] && this.start == start && this.answers == answers
    {
      this.start, this.answers := start, answers;
      accumulator, heard, frames, tried := [], [], [], 0;
      line := Line(start.number, start.timestamp, []);
      totals := Totals(0, 0, []);
    }

    /** Encodes one frame and sends its packet; a failure leaves the numbers where they are. */
    method Emit(frame: seq<real>)
      requires start.Valid() && Emitted()
      modifies this`line, this`totals, this`tried, this`frames
      ensures Emitted() && frames == old(frames) + [frame]
    {
      hide LineAfter;
      var answer := answers(tried);
      if answer.Encoded? {
        var packet := Packet(line.number, line.timestamp, line.number == start.number, frame);
        if answer.sent {
          var packets := (totals.packets + 1) % WORDS;
          var octets := (totals.octets + answer.octets) % WORDS;
          totals := Totals(packets, octets, totals.reports + [Report(line.timestamp, packets, octets)]);
        }
        line := Line((line.number + 1) % SEQUENCES, (line.timestamp + FRAME_SIZE) % WORDS, line.packets + [packet]);
      }
      tried := tried + 1;
      ghost var before := frames;
      frames := frames + [frame];
      LineGrows(start, answers, before, frame);
      TimestampSteps(start.timestamp, Encodings(answers, |before|));
    }

    /** Sends off every whole frame of the accumulator. */
    method Drain() returns (burst: nat)
      requires start.Valid() && Emitted()
      modifies this`line, this`totals, this`tried, this`frames, this`accumulator
      ensures Emitted()
      ensures frames == old(frames) + Chunks(old(accumulator), FRAME_LEN)
      ensures accumulator == Rest(old(accumulator), FRAME_LEN)
      ensures burst == Encodings(answers, |frames|) - Encodings(answers, |old(frames)|)
    {
      hide LineAfter, TotalsAfter;
      burst := 0;
      while |accumulator| >= FRAME_LEN
        invariant Emitted()
        invariant old(frames) + Chunks(old(accumulator), FRAME_LEN) == frames + Chunks(accumulator, FRAME_LEN)
        invariant Rest(old(accumulator), FRAME_LEN) == Rest(accumulator, FRAME_LEN)
        invariant burst == Encodings(answers, |frames|) - Encodings(answers, |old(frames)|)
        decreases |accumulator|
      {
        NextChunk(frames, accumulator);
        burst := burst + (if answers(tried).Encoded? then 1 else 0);
        Emit(accumulator[..FRAME_LEN]);
        accumulator := accumulator[FRAME_LEN..];
      }
    }

    /** One captured block. The result is the burst: the packets it sends off in a row. */
    method Block(block: seq<real>, isPrivate: bool) returns (burst: nat)
      requires Valid()
      modifies this
      ensures Valid()
      ensures heard == old(heard) + (if isPrivate then Silence(|block|) else block)
      ensures burst == Encodings(answers, |frames|) - Encodings(answers, |old(frames)|)
    {
      hide LineAfter, TotalsAfter, Chunks, Rest;
      var stereo := if isPrivate then Silence(|block|) else block;
      Feed(heard, stereo, FRAME_LEN);
      accumulator := accumulator + stereo;
      burst := Drain();
      heard := heard + stereo;
    }
  }

  lemma {:induction false} NextChunk(done: seq<seq<real>>, s: seq<real>)
    requires |s| >= FRAME_LEN
    ensures done + Chunks(s, FRAME_LEN) == done + [s[..FRAME_LEN]] + Chunks(s[FRAME_LEN..], FRAME_LEN)
  {
  }

  lemma {:induction false} LineGrows(start: Start, answers: nat -> Answer, frames: seq<seq<real>>, frame: seq<real>)
    ensures LineAfter(start, answers, frames + [frame]) ==
            NextLine(start, LineAfter(start, answers, frames), frame, answers(|frames|))
  {
    assert (frames + [frame])[..|frames|] == frames;
  }

  // ------------------------------------------------------------------ the voice

  /** A mono frame on both channels. */
  function Doubled(mono: seq<real>): (stereo: seq<real>)
    ensures |stereo| == 2 * |mono|
    ensures forall i :: 0 <= i < |mono| ==> stereo[2 * i] == stereo[2 * i + 1] == mono[i]
  {
    seq(2 * |mono|, i requires 0 <= i < 2 * |mono| => mono[i / 2])
  }

  function DoubledAll(frames: seq<seq<real>>): seq<seq<real>> {
    seq(|frames|, k requires 0 <= k < |frames| => Doubled(frames[k]))
  }

  /** The samples after the mute ramp, one step of the ramp for each sample. */
  function Muted(k: Ramps.Coeffs, gain: real, samples: seq<real>, mute: real): (seq<real>, real) {
    if samples == [] then ([], gain) else
    var n := |samples| - 1;
    var (before, g) := Muted(k, gain, samples[..n], mute);
    var next := Ramps.Advance(k, g, mute);
    (before + [Ramps.Times(samples[n], next)], next)
  }

  /** Each sample gets one step more of the ramp than the one before. */
  lemma {:induction false} MutedIsTheRamp(k: Ramps.Coeffs, gain: real, samples: seq<real>, mute: real)
    ensures
      var (muted, last) := Muted(k, gain, samples, mute);
      && |muted| == |samples| && last == Ramps.Glide(k, gain, mute, |samples|)
      && forall i :: 0 <= i < |samples| ==> muted[i] == samples[i] * Ramps.Glide(k, gain, mute, i + 1)
  {
    hide Ramps.Advance;
    if samples != [] {
      MutedIsTheRamp(k, gain, samples[..|samples| - 1], mute);
    }
  }

  /** The packet of the `f`th frame of a voice holds its 120 samples, each on both channels. */
  lemma {:induction false} VoicePacketHoldsItsSamples(start: Start, answers: nat -> Answer, heard: seq<real>, f: nat)
    requires f < |Chunks(heard, FRAME_SIZE)| && answers(f).Encoded?
    ensures
      var packets := LineAfter(start, answers, DoubledAll(Chunks(heard, FRAME_SIZE))).packets;
      && Encodings(answers, f) < |packets| && 120 * (f + 1) <= |heard|
      && var frame := packets[Encodings(answers, f)].frame;
         |frame| == 240 && forall i :: 0 <= i < 120 ==> frame[2 * i] == frame[2 * i + 1] == heard[120 * f + i]
  {
    hide LineAfter, Chunks, Doubled, Encodings;
    FrameIsInItsPacket(start, answers, DoubledAll(Chunks(heard, FRAME_SIZE)), f);
    ChunkIsItsStretch(heard, FRAME_SIZE, f);
    DoubledStretch(heard, Chunks(heard, FRAME_SIZE)[f], f);
  }

  lemma {:induction false} DoubledStretch(heard: seq<real>, mono: seq<real>, f: nat)
    requires 120 * (f + 1) <= |heard| && mono == heard[120 * f..120 * (f + 1)]
    ensures |Doubled(mono)| == 240
    ensures forall i :: 0 <= i < 120 ==> Doubled(mono)[2 * i] == Doubled(mono)[2 * i + 1] == heard[120 * f + i]
  {
    hide Doubled;
    forall i | 0 <= i < 120
      ensures Doubled(mono)[2 * i] == Doubled(mono)[2 * i + 1] == heard[120 * f + i]
    {
      assert mono[i] == heard[120 * f + i];
    }
  }

  lemma {:induction false} MutedGrows(k: Ramps.Coeffs, gain: real, samples: seq<real>, mute: real, i: nat)
    requires i < |samples|
    ensures
      var (before, g) := Muted(k, gain, samples[..i], mute);
      var next := Ramps.Advance(k, g, mute);
      Muted(k, gain, samples[..i + 1], mute) == (before + [Ramps.Times(samples[i], next)], next)
  {
    hide Ramps.Advance, Ramps.Times;
    assert samples[..i + 1][..i] == samples[..i];
  }

  lemma {:induction false} MutedNothing(k: Ramps.Coeffs, gain: real, samples: seq<real>, mute: real)
    ensures Muted(k, gain, samples[..0], mute) == ([], gain)
  {
  }

  class VoiceEncoder {
    const start: Start
    const answers: nat -> Answer
    const k: Ramps.Coeffs
    var acc: seq<real>
    var gain: real
    var line: Line
    var tried: nat
    /** Every sample so far, after the mute ramp. */
    ghost var heard: seq<real>

    ghost predicate Valid()
      reads this
    {
      var frames := Chunks(heard, FRAME_SIZE);
      && start.Valid()
      && acc == Rest(heard, FRAME_SIZE)
      && tried == |frames|
      && line == LineAfter(start, answers, DoubledAll(frames))
    }

    constructor (start: Start, answers: nat -> Answer, k: Ramps.Coeffs, gain: real)
      requires start.Valid()
      ensures Valid() && heard == [] && this.gain == gain
    {
      this.start, this.answers, this.k, this.gain := start, answers, k, gain;
      acc, heard, tried := [], [], 0;
      line := Line(start.number, start.timestamp, []);
    }

    /** A full frame leaves with the left channel equal to the right one. */
    method Emit(mono: seq<real>)
      modifies this`line, this`tried
      ensures line == NextLine(start, old(line), Doubled(mono), answers(old(tried)))
      ensures tried == old(tried) + 1
    {
      if answers(tried).Encoded? {
        var packet := Packet(line.number, line.timestamp, line.number == start.number, Doubled(mono));
        line := Line((line.number + 1) % SEQUENCES, (line.timestamp + FRAME_SIZE) % WORDS, line.packets + [packet]);
      }
      tried := tried + 1;
    }

    method PushScaled(sample: real)
      requires Valid()
      modifies this`acc, this`heard, this`line, this`tried
      ensures Valid() && heard == old(heard) + [sample]
    {
      hide LineAfter, NextLine, Doubled, Chunks, Rest;
      PushFeeds(start, answers, heard, sample);
      acc := acc + [sample];
      if |acc| == FRAME_SIZE {
        Emit(acc);
        acc := [];
      }
      heard := heard + [sample];
    }

    method Push(s: real, mute: real)
      requires Valid()
      modifies this
      ensures Valid()
      ensures gain == Ramps.Advance(k, old(gain), mute)
      ensures heard == old(heard) + [Ramps.Times(s, gain)]
    {
      hide Ramps.Advance, Ramps.Times;
      gain := Ramps.Advance(k, gain, mute);
      PushScaled(Ramps.Times(s, gain));
    }

    /** A captured block, sample by sample. */
    method Samples(mono: seq<real>, mute: real)
      requires Valid()
      modifies this
      ensures Valid()
      ensures gain == Muted(k, old(gain), mono, mute).1
      ensures heard == old(heard) + Muted(k, old(gain), mono, mute).0
    {
      hide Muted, Ramps.Advance, Ramps.Times, Valid;
      MutedNothing(k, gain, mono, mute);
      for i := 0 to |mono|
        invariant Valid()
        invariant gain == Muted(k, old(gain), mono[..i], mute).1
        invariant heard == old(heard) + Muted(k, old(gain), mono[..i], mute).0
      {
        MutedGrows(k, old(gain), mono, mute, i);
        ghost var before := Muted(k, old(gain), mono[..i], mute).0;
        Push(mono[i], mute);
        assert heard == old(heard) + (before + [Ramps.Times(mono[i], gain)]);
      }
      assert mono[..|mono|] == mono;
    }
  }

  /** One more sample either completes the frame in progress or only grows it. */
  lemma {:induction false} PushFeeds(start: Start, answers: nat -> Answer, heard: seq<real>, sample: real)
    ensures
      var acc := Rest(heard, FRAME_SIZE) + [sample];
      var before := Chunks(heard, FRAME_SIZE);
      var after := Chunks(heard + [sample], FRAME_SIZE);
      if |acc| == FRAME_SIZE then
        && Rest(heard + [sample], FRAME_SIZE) == []
        && |after| == |before| + 1
        && LineAfter(start, answers, DoubledAll(after)) ==
           NextLine(start, LineAfter(start, answers, DoubledAll(before)), Doubled(acc), answers(|before|))
      else
        && Rest(heard + [sample], FRAME_SIZE) == acc
        && after == before
  {
    hide NextLine, Doubled;
    var acc := Rest(heard, FRAME_SIZE) + [sample];
    Feed(heard, [sample], FRAME_SIZE);
    if |acc| == FRAME_SIZE {
      assert acc[..FRAME_SIZE] == acc && acc[FRAME_SIZE..] == [];
      assert Chunks(acc, FRAME_SIZE) == [acc];
      var before := Chunks(heard, FRAME_SIZE);
      assert DoubledAll(before + [acc]) == DoubledAll(before) + [Doubled(acc)];
      LineGrows(start, answers, DoubledAll(before), Doubled(acc));
    }
  }
}
