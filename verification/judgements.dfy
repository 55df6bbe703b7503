/** Whether the judgements of a stream are just: what the output consumed, a frame invented too
    early, the cause of a hole (jamodio-agent/src/pipeline.rs and
    jamodio-audio-core/src/mixer/ring_buffer.rs, `consumed_ms_between`). */
module Judgements {
  import opened Options
  import opened Conceal
  import opened Decoding
  import Holes

  // ------------------------------------------------------------------ what the output consumed

  lemma {:induction false} Turned(from: nat, c: nat)
    ensures
      var p := READ_INDEX_PERIOD;
      ((from + c) % p + p - from % p) % p == c % p
  {
    var p := READ_INDEX_PERIOD;
    var a, b := from % p, c % p;
    assert (from + c) % p == (a + b) % p by {
      assert from == p * (from / p) + a && c == p * (c / p) + b;
      Unrolled(from / p + c / p, a + b, p);
      assert p * (from / p) + p * (c / p) == (from / p + c / p) * p;
    }
    if a + b < p {
      assert (a + b) % p == a + b;
    } else {
      assert (a + b) % p == a + b - p;
    }
  }

  lemma {:induction false} Unrolled(q: nat, r: nat, p: nat)
    requires p == READ_INDEX_PERIOD
    ensures (q * p + r) % p == r % p
  {
    if q > 0 {
      Unrolled(q - 1, r, p);
      assert q * p + r == (q - 1) * p + r + p;
    }
  }

  /** The position stored after `consumed` samples: the index turns. */
  function Stored(from: nat, consumed: nat): nat {
    (from + consumed) % READ_INDEX_PERIOD
  }

  /** Two stored positions tell what was consumed between them, through the turn of the index, exactly
      when that is less than one turn, 600 ms. */
  lemma {:induction false} ConsumedIsExact(from: nat, consumed: nat)
    ensures ConsumedBetween(from, Stored(from, consumed)) == consumed as real / SAMPLES_PER_MS <==>
            consumed < READ_INDEX_PERIOD
  {
    Turned(from, consumed);
    assert Stored(from, consumed) % READ_INDEX_PERIOD == Stored(from, consumed);
    assert ConsumedBetween(from, Stored(from, consumed)) == (consumed % READ_INDEX_PERIOD) as real / SAMPLES_PER_MS;
  }

  // ------------------------------------------------------------------ frames invented too early

  /** As long as the output consumes less than one turn within the judging time, a judged frame is
      counted premature exactly when its packet came in time and before the output had consumed all
      the real sound there was. */
  lemma {:induction false} PrematureIsJust(lc: LastConceal, p: Packet, consumed: nat)
    requires p.playout.Some? && p.playout.value.readIndex == Stored(lc.readIndex, consumed)
    requires consumed < READ_INDEX_PERIOD
    ensures MarginOf(lc, p).Some? <==>
            SaturatingSince(p.recv, lc.at) < PREMATURE_JUDGE_MAX_MS && consumed as real / SAMPLES_PER_MS <= lc.fill
    ensures MarginOf(lc, p).Some? ==> MarginOf(lc, p).value == lc.fill - consumed as real / SAMPLES_PER_MS
  {
    hide Stored, ConsumedBetween;
    ConsumedIsExact(lc.readIndex, consumed);
  }

  // ------------------------------------------------------------------ the cause of a hole

  /** The facts needed for a cause are known and coherent. */
  predicate Coherent(h: Hole, base: Option<PushMark>) {
    base.Some? && h.at >= base.value.at
  }

  /** The size of an output block, or that of one frame when it is not known. */
  function BlockOr(block: Measure): real {
    if block.Some? && block.value > 0.0 then block.value else 2.5
  }

  /** The output took more than time and two of its blocks explain. */
  predicate Overdrawn(h: Hole, p: PushMark, block: Measure) {
    ConsumedBetween(p.readIndex, h.readIndex) > h.at - p.at + 2.0 * BlockOr(block)
  }

  predicate DiscardedSince(lastDiscard: Option<Time>, h: Hole, p: PushMark) {
    lastDiscard.Some? && p.at <= lastDiscard.value <= h.at
  }

  /** Each cause stands in its case and in no other. */
  predicate Blamed(cause: Holes.Cause, lastDiscard: Option<Time>, h: Hole, base: Option<PushMark>,
                   arrived: Option<Arrived>, block: Measure) {
    var read := arrived.Some? && arrived.value.readAt <= h.at;
    var inSystem := arrived.Some? && arrived.value.inSystemAt.Some? && arrived.value.inSystemAt.value <= h.at;
    && (cause == Holes.Unclassified <==> !Coherent(h, base))
    && (Coherent(h, base) ==>
          var p := base.value;
          var free := !Overdrawn(h, p, block) && !DiscardedSince(lastDiscard, h, p);
          && (cause == Holes.Consumption <==> Overdrawn(h, p, block))
          && (cause == Holes.Sequence <==> !Overdrawn(h, p, block) && DiscardedSince(lastDiscard, h, p))
          && (cause == Holes.Decode <==> free && read)
          && (cause == Holes.Reception <==> free && !read && inSystem)
          && (cause == Holes.Arrival <==> free && !read && !inSystem))
  }

  lemma {:induction false} CauseMeans(lastDiscard: Option<Time>, h: Hole, base: Option<PushMark>, arrived: Option<Arrived>, block: Measure)
    ensures Blamed(CauseOf(lastDiscard, h, base, arrived, block), lastDiscard, h, base, arrived, block)
  {
  }

  function Nearness(cause: Holes.Cause): nat {
    match cause
    case Arrival => 0
    case Reception => 1
    case Decode => 2
    case _ => 3
  }

  predicate NoLater(a: Option<Time>, b: Option<Time>) {
    b.Some? ==> a.Some? && a.value <= b.value
  }

  /** The same hole with a packet that was there earlier: the blame can only move from the network
      to the reading, and from the reading to the decoding; the other causes do not depend on the
      packet. */
  lemma {:induction false} BlameFollowsThePacket(lastDiscard: Option<Time>, h: Hole, base: Option<PushMark>, early: Arrived, late: Arrived,
                              block: Measure)
    requires early.readAt <= late.readAt && NoLater(early.inSystemAt, late.inSystemAt)
    ensures
      var a := CauseOf(lastDiscard, h, base, Some(early), block);
      var b := CauseOf(lastDiscard, h, base, Some(late), block);
      && Nearness(a) >= Nearness(b)
      && (Nearness(a) == 3 || Nearness(b) == 3 ==> a == b)
  {
    CauseMeans(lastDiscard, h, base, Some(early), block);
    CauseMeans(lastDiscard, h, base, Some(late), block);
    hide CauseOf;
  }
}
