/** The reception of all peers, without the sockets (jamodio-agent/src/pipeline.rs, `RxCore`):
    decode states by producer and generation, the peer streams of the mixer, the keys of the
    published statistics, the masking pass and the choice of the next sleep. */
module Reception {
  import opened Options
  import opened Conceal
  import opened Decoding

  type Producer = string

  const IDLE_SLEEP_MS: real := 100.0

  datatype CoreState = CoreState(states: map<Producer, StreamState>, mixer: set<Producer>, stats: set<Producer>)

  const EMPTY := CoreState(map[], {}, {})

  // ------------------------------------------------------------------ specification

  /** Pushes into a stream the mixer does not know answer nothing. */
  function Heard(p: Packet, known: bool): Packet {
    if known then p else p.(attempts := [], playout := None, decoded := None)
  }

  function Seen(look: Look, known: bool): Look {
    if known then look else look.(playout := None, lost := None)
  }

  function Publishes(st: StreamState, p: Packet): bool {
    p.number.Some? && (st.packets + 1) % STATS_EVERY == 0
  }

  function Deliver(c: CoreState, id: Producer, p: Packet, block: Measure): CoreState
    requires id in c.states
  {
    var st := c.states[id];
    c.(states := c.states[id := Receive(st, Heard(p, id in c.mixer), block)],
       stats := if Publishes(st, p) then c.stats + {id} else c.stats)
  }

  /** `created`: the codec of a new state could be made. */
  function OnPacket(c: CoreState, id: Producer, epoch: nat, created: bool, p: Packet, block: Measure): CoreState {
    if id in c.states && c.states[id].epoch > epoch then c
    else if id in c.states && c.states[id].epoch == epoch then Deliver(c, id, p, block)
    else
      var c1 := if id in c.states then c.(mixer := c.mixer - {id}) else c;
      if created then Deliver(c1.(states := c1.states[id := Fresh(epoch)], mixer := c1.mixer + {id}), id, p, block)
      else c1
  }

  function Remove(c: CoreState, id: Producer, epoch: nat): CoreState {
    if id in c.states && c.states[id].epoch == epoch
    then CoreState(c.states - {id}, c.mixer - {id}, c.stats - {id})
    else c
  }

  function ConcealDue(c: CoreState, now: Time, looks: Producer -> Look, block: Measure): CoreState {
    c.(states := map id | id in c.states :: Examine(c.states[id], now, Seen(looks(id), id in c.mixer), block))
  }

  function Dropped(c: CoreState): CoreState {
    CoreState(map[], c.mixer - c.states.Keys, c.stats - c.states.Keys)
  }

  /** When a stream is worth looking at again. */
  function WakeAt(st: StreamState): Option<Time> {
    if st.nextDeadline.None? then None
    else Some(if st.nextCheck.Some? then Max(st.nextCheck.value, st.nextDeadline.value) else st.nextDeadline.value)
  }

  /** `ms` is the delay to the earliest useful examination of all streams, `None` when no deadline
      is armed. */
  ghost predicate IsSoonest(c: CoreState, now: Time, ms: Option<real>) {
    && (ms.None? <==> forall id :: id in c.states ==> c.states[id].nextDeadline.None?)
    && (ms.Some? ==>
          && (exists id :: id in c.states && IsDelay(c.states[id], now, ms.value))
          && (forall id :: id in c.states ==> NotBefore(c.states[id], now, ms.value)))
  }

  ghost predicate IsDelay(st: StreamState, now: Time, ms: real) {
    WakeAt(st).Some? && ms == SaturatingSince(WakeAt(st).value, now)
  }

  ghost predicate NotBefore(st: StreamState, now: Time, ms: real) {
    WakeAt(st).Some? ==> ms <= SaturatingSince(WakeAt(st).value, now)
  }

  function SleepFor(ms: Option<real>): real {
    if ms.None? then IDLE_SLEEP_MS else SleepUntilDeadline(ms)
  }

  // ------------------------------------------------------------------ the core, updated in place

  class RxCore {
    var states: map<Producer, DecodeState>
    var mixer: set<Producer>
    var stats: set<Producer>

    ghost function Footprint(): set<object>
      reads this`states
    {
      (set id | id in states :: states[id]) + (set id | id in states :: states[id].tracker)
    }

    /** Every peer has its own decode state. */
    ghost predicate Valid()
      reads this`states
    {
      forall a, b :: a in states && b in states && a != b ==>
        states[a] != states[b] && states[a].tracker != states[b].tracker
    }

    ghost function Views(): map<Producer, StreamState>
      reads this`states, Footprint()
    {
      map id | id in states :: states[id].View()
    }

    ghost function View(): CoreState
      reads this, Footprint()
    {
      CoreState(Views(), mixer, stats)
    }

    constructor ()
      ensures Valid() && View() == EMPTY
    {
      states, mixer, stats := map[], {}, {};
    }

    /** What changes one decode state leaves the others alone. */
    twostate lemma OthersUnchanged(id: Producer)
      requires old(Valid()) && id in old(states)
      requires states == old(states)
      requires forall b :: b in states && b != id ==> unchanged(states[b]) && unchanged(states[b].tracker)
      ensures Views() == old(Views())[id := states[id].View()]
    {
    }

    lemma {:induction false} ViewsKeys()
      ensures Views().Keys == states.Keys
    {
    }

    method IsPublishing(id: Producer, p: Packet) returns (publishing: bool)
      requires id in states
      ensures publishing == Publishes(Views()[id], p)
    {
      publishing := p.number.Some? && (states[id].packets + 1) % STATS_EVERY == 0;
    }

    method EpochOf(id: Producer) returns (epoch: nat)
      requires id in states
      ensures epoch == Views()[id].epoch
    {
      epoch := states[id].epoch;
    }

    method DecodeFor(id: Producer, p: Packet, block: Measure)
      requires Valid() && id in states
      modifies states[id], states[id].tracker
      ensures Views() == old(Views())[id := Receive(old(Views())[id], p, block)]
    {
      hide Receive, DecodeState.View;
      states[id].DecodeOnePacket(p, block);
      OthersUnchanged(id);
    }

    method ExamineFor(id: Producer, now: Time, look: Look, block: Measure)
      requires Valid() && id in states
      modifies states[id], states[id].tracker
      ensures Views() == old(Views())[id := Examine(old(Views())[id], now, look, block)]
    {
      hide Examine, DecodeState.View;
      states[id].ExamineDeadline(now, look, block);
      OthersUnchanged(id);
    }

    method DeliverPacket(id: Producer, p: Packet, block: Measure)
      requires Valid() && id in states
      modifies this, Footprint()
      ensures Valid() && states == old(states)
      ensures View() == Deliver(old(View()), id, p, block)
    {
      hide Receive, DecodeState.View, Publishes;
      var publishes := IsPublishing(id, p);
      DecodeFor(id, Heard(p, id in mixer), block);
      if publishes {
        stats := stats + {id};
      }
    }

    method CreateState(id: Producer, epoch: nat)
      requires Valid()
      modifies this
      ensures Valid() && mixer == old(mixer) + {id} && stats == old(stats)
      ensures states.Keys == old(states.Keys) + {id} && fresh(states[id]) && fresh(states[id].tracker)
      ensures forall b :: b in old(states) && b != id ==> states[b] == old(states[b])
      ensures Views() == old(Views())[id := Fresh(epoch)]
    {
      hide DecodeState.View;
      var st := new DecodeState(epoch);
      mixer := mixer + {id};
      states := states[id := st];
    }

    method Packet(id: Producer, epoch: nat, created: bool, p: Packet, block: Measure)
      requires Valid()
      modifies this, Footprint()
      ensures Valid()
      ensures View() == OnPacket(old(View()), id, epoch, created, p, block)
    {
      hide DecodeState.View, Deliver, Fresh, RxCore.Views, RxCore.Valid;
      ViewsKeys();
      var needsCreate := true;
      if id in states {
        var current := EpochOf(id);
        if current == epoch {
          needsCreate := false;
        } else if current > epoch {
          return;
        } else {
          mixer := mixer - {id};
        }
      }
      if needsCreate {
        if !created {
          return;
        }
        CreateState(id, epoch);
      }
      DeliverPacket(id, p, block);
    }

    method ForgetState(id: Producer)
      requires Valid()
      modifies this`states
      ensures Valid() && Views() == old(Views()) - {id}
    {
      hide DecodeState.View;
      states := states - {id};
    }

    method RemovePeer(id: Producer, epoch: nat)
      requires Valid()
      modifies this
      ensures Valid()
      ensures View() == Remove(old(View()), id, epoch)
    {
      hide DecodeState.View, RxCore.Valid;
      ViewsKeys();
      if id !in states {
        return;
      }
      var current := EpochOf(id);
      if current == epoch {
        ForgetState(id);
        mixer := mixer - {id};
        stats := stats - {id};
      }
    }

    method ConcealPass(now: Time, looks: Producer -> Look, block: Measure)
      requires Valid()
      modifies Footprint()
      ensures Valid()
      ensures View() == ConcealDue(old(View()), now, looks, block)
    {
      hide Examine, DecodeState.View;
      var todo := states.Keys;
      while todo != {}
        invariant todo <= states.Keys
        invariant Views().Keys == old(Views()).Keys
        invariant forall id :: id in old(Views()) ==>
          Views()[id] == if id in todo then old(Views())[id]
                         else Examine(old(Views())[id], now, Seen(looks(id), id in mixer), block)
      {
        var id :| id in todo;
        ExamineFor(id, now, Seen(looks(id), id in mixer), block);
        todo := todo - {id};
      }
    }

    method WakeOf(id: Producer) returns (wake: Option<Time>)
      requires id in states
      ensures wake == WakeAt(Views()[id])
    {
      var st := states[id];
      if st.nextDeadline.None? {
        return None;
      }
      wake := Some(if st.nextCheck.Some? then Max(st.nextCheck.value, st.nextDeadline.value) else st.nextDeadline.value);
    }

    /** The unclamped delay before the next useful examination. */
    method Soonest(now: Time) returns (ms: Option<real>)
      requires Valid()
      ensures IsSoonest(View(), now, ms)
    {
      hide DecodeState.View;
      ms := None;
      var todo := states.Keys;
      while todo != {}
        invariant todo <= states.Keys
        invariant ms.None? ==> forall id :: id in Views() && id !in todo ==> Views()[id].nextDeadline.None?
        invariant ms.Some? ==> exists id :: id in Views() && IsDelay(Views()[id], now, ms.value)
        invariant ms.Some? ==> forall id :: id in Views() && id !in todo ==> NotBefore(Views()[id], now, ms.value)
      {
        var id :| id in todo;
        todo := todo - {id};
        var wake := WakeOf(id);
        if wake.Some? {
          var delay := SaturatingSince(wake.value, now);
          if ms.None? || delay < ms.value {
            assert IsDelay(Views()[id], now, delay);
            ms := Some(delay);
          }
        }
      }
    }

    /** The clamped sleep, always between its floor and the long sleep of an idle core. */
    method NextWait(now: Time) returns (sleep: real)
      requires Valid()
      ensures exists ms :: IsSoonest(View(), now, ms) && sleep == SleepFor(ms)
      ensures 0.5 <= sleep <= 100.0
      ensures (forall id :: id in View().states ==> View().states[id].nextDeadline.None?) ==> sleep == 100.0
      ensures (exists id :: id in View().states && View().states[id].nextDeadline.Some?) ==> sleep <= 5.0
    {
      var soonest := Soonest(now);
      sleep := SleepFor(soonest);
    }

    method Drop()
      requires Valid()
      modifies this
      ensures Valid() && View() == Dropped(old(View()))
    {
      mixer := mixer - states.Keys;
      stats := stats - states.Keys;
      states := map[];
    }
  }
}
