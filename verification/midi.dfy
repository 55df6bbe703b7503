/** Sample-accurate delivery of MIDI events to the plugin, sub-block by sub-block
    (jamodio-agent/src/pipeline.rs, `midi_frame_offset`, `dispatch_subblock_midi` and the drain and
    dispatch loops of `process_stage_loop`). Instants are in nanoseconds. */
module Midi {

  const U32: nat := 4_294_967_296
  const PLUGIN_BLOCK: nat := 128
  const BATCH: nat := 64

  datatype Captured<T> = Captured(at: nat, data: T)

  datatype Event<T> = Event(offset: nat, data: T)

  function Least(a: nat, b: nat): nat {
    if a < b then a else b
  }

  // ------------------------------------------------------------------ the offset of one event

  /** 32-bit arithmetic: the microseconds and their product by 48 both wrap. */
  function FrameOffset(capturedAt: nat, blockStart: nat, maxOffset: nat): (offset: nat)
    ensures offset <= maxOffset
  {
    if capturedAt < blockStart then 0 else
    var micros := (capturedAt - blockStart) / 1000 % U32;
    Least(micros * 48 % U32 / 1000, maxOffset)
  }

  lemma {:induction false} Floors(nanos: nat)
    ensures nanos / 1000 * 48 / 1000 <= nanos * 48 / 1_000_000 <= nanos / 1000 * 48 / 1000 + 1
  {
  }

  /** Up to 89 seconds after the block started nothing wraps: the offset is the delay in samples at
      48 kHz rounded down (one less at most, because the delay is cut to microseconds first),
      clamped to the block. */
  lemma {:induction false} OffsetIsTheDelay(capturedAt: nat, blockStart: nat, maxOffset: nat)
    requires blockStart <= capturedAt && (capturedAt - blockStart) / 1000 * 48 < U32
    ensures
      var offset := FrameOffset(capturedAt, blockStart, maxOffset);
      var samples := (capturedAt - blockStart) * 48 / 1_000_000;
      && (samples <= maxOffset ==> samples - 1 <= offset <= samples)
      && (samples > maxOffset ==> offset == maxOffset)
  {
    Floors(capturedAt - blockStart);
    var micros := (capturedAt - blockStart) / 1000;
    assert micros % U32 == micros && micros * 48 % U32 == micros * 48;
  }

  /** In that range a later event never gets an earlier offset. */
  lemma {:induction false} OffsetsKeepOrder(a: nat, b: nat, blockStart: nat, maxOffset: nat)
    requires a <= b && (b < blockStart || (b - blockStart) / 1000 * 48 < U32)
    ensures FrameOffset(a, blockStart, maxOffset) <= FrameOffset(b, blockStart, maxOffset)
  {
    if a >= blockStart {
      var x, y := (a - blockStart) / 1000, (b - blockStart) / 1000;
      assert x <= y && x % U32 == x && y % U32 == y;
      assert x * 48 % U32 == x * 48 && y * 48 % U32 == y * 48;
    }
  }

  // ------------------------------------------------------------------ the drain

  function Placed<T>(queue: seq<Captured<T>>, blockStart: nat, maxOffset: nat): seq<Event<T>> {
    seq(|queue|, i requires 0 <= i < |queue| => Event(FrameOffset(queue[i].at, blockStart, maxOffset), queue[i].data))
  }

  function LastFrame(frames: nat): nat {
    if frames == 0 then 0 else frames - 1
  }

  /** Takes at most 64 events; the others wait for the next block. */
  method Drain<T>(queue: seq<Captured<T>>, blockStart: nat, frames: nat) returns (batch: seq<Event<T>>, left: seq<Captured<T>>)
    ensures batch == Placed(queue[..Least(BATCH, |queue|)], blockStart, LastFrame(frames))
    ensures left == queue[Least(BATCH, |queue|)..]
  {
    var maxOffset := LastFrame(frames);
    batch, left := [], queue;
    while left != []
      invariant |batch| < BATCH && |batch| <= |queue| && left == queue[|batch|..]
      invariant batch == Placed(queue[..|batch|], blockStart, maxOffset)
      decreases |left|
    {
      batch := batch + [Event(FrameOffset(left[0].at, blockStart, maxOffset), left[0].data)];
      left := left[1..];
      if |batch| >= BATCH {
        break;
      }
    }
  }

  // ------------------------------------------------------------------ one sub-block

  predicate Inside<T>(e: Event<T>, from: nat, to: nat) {
    from <= e.offset < to
  }

  /** The events of a stretch of the block, in their order. */
  function Within<T>(events: seq<Event<T>>, from: nat, to: nat): (inside: seq<Event<T>>)
    ensures forall k :: 0 <= k < |inside| ==> Inside(inside[k], from, to)
  {
    if events == [] then [] else
    var n := |events| - 1;
    Within(events[..n], from, to) + (if Inside(events[n], from, to) then [events[n]] else [])
  }

  function Shift<T>(events: seq<Event<T>>, base: nat): (shifted: seq<Event<T>>)
    ensures |shifted| == |events|
  {
    seq(|events|, k requires 0 <= k < |events| => Event(events[k].offset + base, events[k].data))
  }

  /** What the plugin receives for one sub-block is the events of that stretch, in order, with
      offsets counted from its start and inside it. */
  method DispatchSubBlock<T>(events: seq<Event<T>>, from: nat, to: nat) returns (out: seq<Event<T>>)
    ensures Shift(out, from) == Within(events, from, to)
    ensures forall k :: 0 <= k < |out| ==> out[k].offset < to - from
  {
    out := [];
    for i := 0 to |events|
      invariant Shift(out, from) == Within(events[..i], from, to)
      invariant forall k :: 0 <= k < |out| ==> out[k].offset < to - from
    {
      var e := events[i];
      assert events[..i + 1][..i] == events[..i];
      if e.offset >= from && e.offset < to {
        ShiftGrows(out, Event(e.offset - from, e.data), from);
        out := out + [Event(e.offset - from, e.data)];
      }
    }
    assert events[..|events|] == events;
  }

  lemma {:induction false} ShiftGrows<T>(events: seq<Event<T>>, e: Event<T>, base: nat)
    ensures Shift(events + [e], base) == Shift(events, base) + [Event(e.offset + base, e.data)]
  {
  }

  // ------------------------------------------------------------------ the whole block

  /** One call of the plugin: its place in the block and the events it was given. */
  datatype Call<T> = Call(from: nat, to: nat, events: seq<Event<T>>)

  /** The calls cut the frames `[0, upTo)` in consecutive stretches of at most `PLUGIN_BLOCK`. */
  ghost predicate Covers<T>(calls: seq<Call<T>>, upTo: nat) {
    if calls == [] then upTo == 0 else
    var last := calls[|calls| - 1];
    && last.to == upTo
    && last.from < last.to <= last.from + PLUGIN_BLOCK
    && Covers(calls[..|calls| - 1], last.from)
  }

  /** All the events delivered by the calls, back at their place in the block. */
  function Delivered<T>(calls: seq<Call<T>>): seq<Event<T>> {
    if calls == [] then [] else
    var last := calls[|calls| - 1];
    Delivered(calls[..|calls| - 1]) + Shift(last.events, last.from)
  }

  ghost predicate Faithful<T>(events: seq<Event<T>>, call: Call<T>) {
    && Shift(call.events, call.from) == Within(events, call.from, call.to)
    && forall k :: 0 <= k < |call.events| ==> call.events[k].offset < call.to - call.from
  }

  method DispatchBlock<T>(events: seq<Event<T>>, frames: nat) returns (calls: seq<Call<T>>)
    ensures Covers(calls, frames)
    ensures forall k :: 0 <= k < |calls| ==> Faithful(events, calls[k])
  {
    hide Faithful;
    calls := [];
    var idx := 0;
    while idx < frames
      invariant idx <= frames && Covers(calls, idx)
      invariant forall k :: 0 <= k < |calls| ==> Faithful(events, calls[k])
    {
      var end := Least(idx + PLUGIN_BLOCK, frames);
      var call := CallFor(events, idx, end);
      assert (calls + [call])[..|calls|] == calls;
      calls := calls + [call];
      idx := end;
    }
  }

  method CallFor<T>(events: seq<Event<T>>, from: nat, to: nat) returns (call: Call<T>)
    ensures call.from == from && call.to == to && Faithful(events, call)
  {
    var out := DispatchSubBlock(events, from, to);
    call := Call(from, to, out);
  }

  lemma {:induction false} StretchesAddUp<T>(events: seq<Event<T>>, middle: nat, to: nat)
    requires middle <= to
    ensures multiset(Within(events, 0, to)) == multiset(Within(events, 0, middle)) + multiset(Within(events, middle, to))
  {
    if events != [] {
      var n := |events| - 1;
      StretchesAddUp(events[..n], middle, to);
    }
  }

  lemma {:induction false} WithinNothing<T>(events: seq<Event<T>>)
    ensures Within(events, 0, 0) == []
  {
    if events != [] {
      WithinNothing(events[..|events| - 1]);
    }
  }

  lemma {:induction false} WithinAll<T>(events: seq<Event<T>>, to: nat)
    requires forall k :: 0 <= k < |events| ==> events[k].offset < to
    ensures Within(events, 0, to) == events
  {
    if events != [] {
      WithinAll(events[..|events| - 1], to);
    }
  }

  /** The sub-blocks together deliver the events of the frames they cover, each exactly once. */
  lemma {:induction false} CallsDeliver<T>(events: seq<Event<T>>, calls: seq<Call<T>>, upTo: nat)
    requires Covers(calls, upTo)
    requires forall k :: 0 <= k < |calls| ==> Faithful(events, calls[k])
    ensures multiset(Delivered(calls)) == multiset(Within(events, 0, upTo))
    decreases |calls|
  {
    if calls == [] {
      WithinNothing(events);
    } else {
      var n := |calls| - 1;
      var last := calls[n];
      CallsDeliver(events, calls[..n], last.from);
      StretchesAddUp(events, last.from, upTo);
      assert Faithful(events, last);
    }
  }

  /** However the block is cut, the drained events and only they reach the plugin, each once, at
      its own place, exactly when the block has a frame to put them in. */
  lemma {:induction false} EveryEventOnce<T>(queue: seq<Captured<T>>, blockStart: nat, frames: nat, calls: seq<Call<T>>)
    requires Covers(calls, frames)
    requires forall k :: 0 <= k < |calls| ==> Faithful(Placed(queue, blockStart, LastFrame(frames)), calls[k])
    ensures multiset(Delivered(calls)) == multiset(Placed(queue, blockStart, LastFrame(frames))) <==>
            frames > 0 || queue == []
  {
    var events := Placed(queue, blockStart, LastFrame(frames));
    CallsDeliver(events, calls, frames);
    if frames > 0 || queue == [] {
      WithinAll(events, frames);
    } else {
      WithinNothing(events);
      assert |multiset(events)| == |events| > 0;
    }
  }

  lemma {:induction false} WithinHas<T>(events: seq<Event<T>>, e: Event<T>, from: nat, to: nat)
    ensures e in Within(events, from, to) <==> e in events && Inside(e, from, to)
  {
    if events != [] {
      WithinHas(events[..|events| - 1], e, from, to);
      assert events == events[..|events| - 1] + [events[|events| - 1]];
    }
  }

  /** The stretches follow one another, so each frame is in one and only one of them. */
  lemma {:induction false} OneStretch<T>(calls: seq<Call<T>>, upTo: nat, frame: nat) returns (k: nat)
    requires Covers(calls, upTo) && frame < upTo
    ensures k < |calls| && calls[k].from <= frame < calls[k].to
    ensures forall j :: 0 <= j < |calls| && j != k ==> !(calls[j].from <= frame < calls[j].to)
    decreases |calls|
  {
    var n := |calls| - 1;
    if calls[n].from <= frame {
      k := n;
      StretchesBelow(calls[..n], calls[n].from);
    } else {
      k := OneStretch(calls[..n], calls[n].from, frame);
    }
  }

  lemma {:induction false} StretchesBelow<T>(calls: seq<Call<T>>, upTo: nat)
    requires Covers(calls, upTo)
    ensures forall j :: 0 <= j < |calls| ==> calls[j].to <= upTo
    decreases |calls|
  {
    if calls != [] {
      var n := |calls| - 1;
      StretchesBelow(calls[..n], calls[n].from);
    }
  }

  /** Each drained event is in the call of its own stretch, at its own place, and in no other call. */
  lemma {:induction false} EventHasOneCall<T>(queue: seq<Captured<T>>, blockStart: nat, frames: nat, calls: seq<Call<T>>, e: Event<T>)
    returns (k: nat)
    requires frames > 0 && Covers(calls, frames)
    requires forall k :: 0 <= k < |calls| ==> Faithful(Placed(queue, blockStart, LastFrame(frames)), calls[k])
    requires e in Placed(queue, blockStart, LastFrame(frames))
    ensures k < |calls| && calls[k].from <= e.offset < calls[k].to && e in Shift(calls[k].events, calls[k].from)
    ensures forall j :: 0 <= j < |calls| && j != k ==> e !in Shift(calls[j].events, calls[j].from)
  {
    var events := Placed(queue, blockStart, LastFrame(frames));
    k := OneStretch(calls, frames, e.offset);
    forall j | 0 <= j < |calls|
      ensures e in Shift(calls[j].events, calls[j].from) <==> calls[j].from <= e.offset < calls[j].to
    {
      assert Faithful(events, calls[j]);
      WithinHas(events, e, calls[j].from, calls[j].to);
    }
  }
}
