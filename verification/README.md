# Verified model of the Jamodio Audio Engine

Jamodio lets musicians play together over the network. Its Audio Engine captures, encodes and sends
one's own sound every 2.5 ms and receives, decodes and mixes that of the others; a bench measures
each version. This project states in Dafny what the hard parts of that program do and proves the
properties its comments, tests and documentation rely on.

`dafny verify dfyconfig.toml` checks the whole project.

Code that computes is modelled by functions on values. Code that changes things step by step is a
class or a method with the same branches, proved to follow a specification on values: `View()` of the
object afterwards is a function of `View()` before. The theorems are then proved about whole runs of
that specification. What the program asks of the outside (the Opus codec, the mixer's buffer, the
sockets, the sound card, the registry, the clock) comes in as arbitrary arguments, so a theorem holds
whatever they answer.

| files | what they model |
|---|---|
| `conceal.dfy`, `hole.dfy` | the decision to invent a missing frame, the cause of a hole |
| `seq_tracker.dfy` | 16-bit sequence numbers (appendix A.1 of RFC 3550) against an unbounded ledger |
| `decode_state.dfy`, `decode_runs.dfy` | one received stream: packets, deadline, budget, accounts |
| `effects.dfy`, `histories.dfy` | what one packet and one examination do; what the whole history of a stream tells |
| `judgements.dfy`, `concealments.dfy` | consumption read from positions, premature frames and who judges them, causes of holes |
| `rx_core.dfy`, `core_runs.dfy`, `core_stories.dfy` | all received streams: maps, generations, next sleep; the core seen from one producer |
| `generations.dfy`, `receiving.dfy` | control side, command queue and receive thread in every interleaving; what a request comes to |
| `framing.dfy`, `ramps.dfy`, `midi.dfy` | sending: frames, RTP numbers, fades, MIDI sub-blocks |
| `histogram.dfy` | the latency histogram and its swapping reader |
| `civil_date.dfy`, `verdict.dfy` | the bench: UTC date, tolerances, verdicts |
| `session.dfy`, `session_outcomes.dfy` | the warm driver over whole runs; what a start, a leave and a wake-up leave |
| `device_loss.dfy`, `reopening.dfy` | lost devices over whole runs; what sounds, is recorded and is told after each operation |
| `registry.dfy` | network throttling |

Some properties one may expect turn out not to hold in every case. Each has a theorem that says
exactly when it holds, and an input that breaks it or the branch that does:

* An early packet makes the tracker forget a loss (`LostIsExactUnlessEarly`, `EarlyPacketHidesALoss`).
* A newer generation whose codec cannot be made leaves a decode state without its mixer stream
  (`CoreRuns.MixerIsExact`, `SupersedeLosesTheMixer`); in the whole system this never happens
  (`Generations.MixerFollowsStates`).
* The RTP timestamp lags behind the signal once a frame could not be encoded (`TimestampIsPosition`,
  `FailedFrameShiftsTheNext`).
* A stream of the reference that is missing from the current run is not seen by the verdict
  (`VanishedStreamsAreNotSeen`).
* A start that fails once the driver is acquired leaves an idle driver that neither leaving nor the
  grace releases (`IdleParkedIff`, `LateFailureHoldsTheDriver`).
* Leaving during a wake-up leaves the encoder fed while nothing captures (`EncoderFeedsACapture`,
  `WakingInTimeFeedsACapture`, `LeavingDuringAWakeUp`).
* Choosing another output while none plays keeps the loss of the former one, whose return is then
  announced by the opening of another device (`LossIsNamed`, `WrongReturnAnnounced`).
* The chosen output can be playing again and still be recorded as lost (`FallbackIsHeard`,
  `ReturnUnnoticed`).

One more exception belongs to the model over reals and not to the program: there the smoothed gain comes
into the neutral band, and its shortcut then depends on the cuts (`CutsAreExactUnlessNeutralReached`,
`CutSkipsAGain`). In 32-bit floats, with the program's two coefficients, the glide stalls before the band.

## Model

| member | source | states |
|---|---|---|
| Conceal.SleepUntilDeadline | jamodio-audio-core/src/mixer/conceal.rs:244-261 | the wait is exact between its floor and its ceiling, the floor when unknown or shorter, the ceiling when longer |
| Conceal.PrematureMargin | jamodio-audio-core/src/mixer/conceal.rs:299-307 | an invention is premature exactly when the output had not consumed past what was left, by what was left less what was consumed |
| Conceal.RecheckIsNeverLate | jamodio-audio-core/src/mixer/conceal.rs:125-235 | sleeping for the announced delay never misses an instant at which a frame could be invented |
| Conceal.RecheckIsTight | jamodio-audio-core/src/mixer/conceal.rs:216-235 | the announced delay is not longer than needed: the grace ends exactly there and a full buffer may fail right after |
| SeqTracking.SeqTracker.Begin | jamodio-audio-core/src/net/seq.rs:195-203 | (re)starting forgets the windows and expects this number first |
| SeqTracking.SeqTracker.Packet | jamodio-audio-core/src/net/seq.rs:109-168 | the new windows, counters and answer for any 16-bit number |
| SeqTracking.SeqTracker.Conceal | jamodio-audio-core/src/net/seq.rs:181-193 | the invented frame takes the place of the next packet and is marked so |
| SeqTracking.AheadRefines | jamodio-audio-core/src/net/seq.rs:127-143 | shifting the 128-bit windows is what moving the head of an unbounded line does |
| SeqTracking.BehindRefines | jamodio-audio-core/src/net/seq.rs:144-161 | a bit of a window is the membership of its unbounded position |
| SeqTracking.ConcealRefines | jamodio-audio-core/src/net/seq.rs:181-193 | inventing marks exactly the next unbounded position |
| SeqTracking.RestartRefines | jamodio-audio-core/src/net/seq.rs:162-203 | two consecutive far numbers start a new line, an isolated one does not |
| SeqTracking.RunRefines | jamodio-audio-core/src/net/seq.rs:109-203 | over any run the answers are those of a reference that never wraps nor forgets: what is played is strictly ascending and each packet is in exactly one class |
| SeqTracking.LostIsExactUnlessEarly | jamodio-audio-core/src/net/seq.rs:68-70 | the losses published are the positions never received exactly when no packet came from before the first of its line |
| SeqTracking.EarlyPacketHidesALoss | jamodio-audio-core/src/net/seq.rs:68-70 | a run where such a packet cancels a real loss |
| Decoding.DecodeState.Report | jamodio-agent/src/pipeline.rs:5764-5867 | one hole adds one to exactly one cause, and to the holes that followed a judgement of sufficient fill; which cause is `HoleGetsItsCause` |
| Decoding.DecodeState.SettlePendingHole | jamodio-agent/src/pipeline.rs:5726-5761 | a waiting hole gets the cause known when its packet arrives (`HoleGetsItsCause`) |
| Decoding.DecodeState.NoteOnePush | jamodio-agent/src/pipeline.rs:5726-5761 | a push settles the waiting hole, then records or keeps waiting its own, against the mark of the push before |
| Decoding.DecodeState.HoldBack | jamodio-agent/src/pipeline.rs:5906-5957 | waiting never moves the deadline; past `STALE_MS` it disarms it; otherwise it sets when to look again |
| Decoding.DecodeState.InventOne | jamodio-agent/src/pipeline.rs:5959-5988 | an attempt counts whether or not the codec invents; an invented frame is remembered for judgement with its slot |
| Decoding.DecodeState.ExamineDeadline | jamodio-agent/src/pipeline.rs:5874-6008 | the whole examination of one stream |
| Decoding.DecodeState.JudgeLate | jamodio-agent/src/pipeline.rs:6150-6190 | only the packet of the very slot that was invented judges it, once |
| Decoding.DecodeState.AcceptPacket | jamodio-agent/src/pipeline.rs:6061-6077 | an accepted packet re-arms the deadline one frame after it was read and opens a new budget |
| Decoding.DecodeState.InventOnArrival | jamodio-agent/src/pipeline.rs:6120-6148 | the frames revealed missing are invented in the limit the deadline left (`PacketFillsItsGap`) |
| Decoding.DecodeState.DecodeOnePacket | jamodio-agent/src/pipeline.rs:6015-6226 | the whole treatment of one packet, accepted (`PacketFillsItsGap`) or refused (`RefusedPacketJudgesItsOwn`) |
| DecodeRuns.RunSound | jamodio-agent/src/pipeline.rs:5330-6226 | every run of packets and examinations, with every codec failure, keeps the invariant of a stream |
| DecodeRuns.SharedBudget | jamodio-agent/src/pipeline.rs:5959-6148 | between two accepted packets, frames invented at the deadline and on arrival are together at most `MAX_CONSECUTIVE` |
| DecodeRuns.HoleAccount | jamodio-agent/src/pipeline.rs:5726-5867 | the holes reported are those given a cause, in order, each against its own mark, with at most one more waiting; the six counters add up to them |
| DecodeRuns.NoHoleWaitsAfterItsPacket | jamodio-agent/src/pipeline.rs:5726-6226 | after an accepted packet a hole waits exactly when one waited before and neither its sound nor a frame its arrival reveals was pushed; it is then the same one |
| DecodeRuns.PrematureAccount | jamodio-agent/src/pipeline.rs:5964-6189 | premature frames are judged frames, judged frames are frames invented at the deadline, the one that waits not counted twice |
| Concealments.FrameIsJudgedByItsPacket | jamodio-agent/src/pipeline.rs:5964-6189 | over any run each judgement is of the last frame invented at its deadline, by the packet of the slot it took, with no acceptance and no other judgement in between; its margin is that of the buffer that frame was pushed into |
| Concealments.MarginsAddUp | jamodio-agent/src/pipeline.rs:6166-6189 | over any run the premature frames published are the judgements with a margin: their number, their sum and the largest |
| Histories.HoleGetsItsCause | jamodio-agent/src/pipeline.rs:5726-5867 | over any run each cause is that of the hole of an earlier push, settled by that push if it is of a packet, else by the first one after it that is of a packet or reports a hole; it is the cause that this packet and the last refusal mean |
| Histories.HoleWaitsForAPacket | jamodio-agent/src/pipeline.rs:5726-5761 | over any run a hole that waits is that of the last push that is of a packet or reports a hole, and that one is of an invented frame |
| Histories.WaitsAreCounted | jamodio-agent/src/pipeline.rs:5794-5915 | over any run the waits published are those made, each under its reason, and a hole follows a buffer that held when such a wait is the last one since the push before |
| Effects.PacketFillsItsGap | jamodio-agent/src/pipeline.rs:6015-6226 | an accepted packet invents as many of the frames missing, ten at most, as the three shared with the deadline allow, takes its place and is heard, in that order; the frames counted are those that could be invented, all of them when none fails |
| Effects.RefusedPacketJudgesItsOwn | jamodio-agent/src/pipeline.rs:6150-6203 | a refused packet leaves its instant, and a judgement exactly when it is late and comes for the frame that awaits it |
| Effects.GraceIsWaitedOut | jamodio-agent/src/pipeline.rs:5874-5957 | within its grace, 1 to 10 ms, a packet is waited for; the next look is due when the grace ends, neither before nor after |
| Effects.FullBufferIsWaitedOut | jamodio-agent/src/pipeline.rs:5874-5957 | past it, a buffer that holds is waited for; the next look is due when one pull may have emptied it |
| Effects.UnknownLinkIsWaitedOut | jamodio-agent/src/pipeline.rs:5874-5957 | on an unknown link nothing is invented; the next look is due one frame later |
| Effects.StaleStreamIsLeftAlone | jamodio-agent/src/pipeline.rs:5941-5949 | more than 200 ms late, a stream that would wait is never due again |
| Effects.RefillingStreamIsLeftAlone | jamodio-agent/src/pipeline.rs:5900-5923 | so is one whose buffer fills up again, uncounted |
| Effects.SpentStreamIsLeftAlone | jamodio-agent/src/pipeline.rs:5989-5997 | so is one for which three frames were invented |
| Effects.MissingFrameIsInvented | jamodio-agent/src/pipeline.rs:5959-6007 | otherwise one frame is pushed in the place of the next number and remembered with what was left before it; the next one is due a frame later, not before now; a codec that fails only costs the attempt |
| Effects.NextLookMissesNothing | jamodio-agent/src/pipeline.rs:5950-5955 | between a look that waited and the one it asked for, looking again would only wait again |
| Effects.StreamFollowsTheReference | jamodio-agent/src/pipeline.rs:6043-6203 | over any run what a packet is taken for is what the unbounded reference says, fed with every number read and every frame invented at its deadline |
| DecodeRuns.AcceptRearms | jamodio-agent/src/pipeline.rs:6061-6077 | after an accepted packet the deadline is its read time plus one frame |
| DecodeRuns.RefusalWaits | jamodio-agent/src/pipeline.rs:6150-6203 | late, doubled and far packets move no deadline and push nothing |
| DecodeRuns.LookMoves | jamodio-agent/src/pipeline.rs:5906-6006 | an examination leaves the deadline, disarms it, or moves it strictly past now at the price of one attempt |
| DecodeRuns.CheckDiesWithItsDeadline | jamodio-agent/src/pipeline.rs:5874-6203 | whatever happens, a time to look again never outlives the deadline it was set for |
| DecodeRuns.DeadlineDiscipline | jamodio-agent/src/pipeline.rs:5874-6203 | over any run without an accepted packet the deadline stays where it was until an attempt is made |
| DecodeRuns.DisarmedStays | jamodio-agent/src/pipeline.rs:5874-6203 | a disarmed stream stays so and pushes nothing until a packet is accepted |
| DecodeRuns.Quiescence | jamodio-agent/src/pipeline.rs:5874-6008 | a stream whose packets stop is disarmed after at most `MAX_CONSECUTIVE` + 1 stale examinations |
| Judgements.ConsumedIsExact | jamodio-audio-core/src/mixer/ring_buffer.rs:338-350 | stored read positions tell what was consumed, through the turn of the index, exactly when that is less than one turn |
| Judgements.PrematureIsJust | jamodio-agent/src/pipeline.rs:6166-6189 | a judged frame is premature exactly when its packet came in time and before the output had consumed the real sound left |
| Judgements.BlameFollowsThePacket | jamodio-audio-core/src/mixer/hole.rs:113-138 | a packet that was there earlier only moves the blame from network to reading to decoding |
| Judgements.CauseMeans | jamodio-audio-core/src/mixer/hole.rs:113-138 | each cause stands in its case and in no other |
| Reception.RxCore.Packet | jamodio-agent/src/pipeline.rs:5518-5560 | a packet creates, supersedes, reaches or misses a decode state according to its generation |
| Reception.RxCore.RemovePeer | jamodio-agent/src/pipeline.rs:5566-5574 | a removal takes the state, the mixer stream and the statistics of its own generation only |
| Reception.RxCore.ConcealPass | jamodio-agent/src/pipeline.rs:5584-5586 | the pass examines every stream once and touches no map (`CoreTellsEachStory`) |
| Reception.RxCore.NextWait | jamodio-agent/src/pipeline.rs:5660-5677 | the sleep is computed from the soonest wake-up of the armed streams |
| Reception.RxCore.Drop | jamodio-agent/src/pipeline.rs:5605-5618 | dropping the core removes its producers from mixer and statistics |
| CoreRuns.StepKeeps | jamodio-agent/src/pipeline.rs:5518-5618 | each step keeps the mixer and the statistics among the states, and the mixer equal to them exactly unless a superseding codec cannot be made |
| CoreRuns.MapsAgree | jamodio-agent/src/pipeline.rs:5518-5618 | inclusion in the decode states holds over any run, packets and removals in any order |
| CoreRuns.MixerIsExact | jamodio-agent/src/pipeline.rs:5518-5618 | the mixer's peers are the decode states all along a run exactly when no superseding codec fails |
| CoreRuns.SupersedeLosesTheMixer | jamodio-agent/src/pipeline.rs:5537-5544 | a run of two generations after which a decode state has no mixer stream |
| CoreRuns.DropLeavesNothing | jamodio-agent/src/pipeline.rs:5605-5618 | after any run, dropping leaves nothing in the three maps |
| CoreRuns.EpochsRise | jamodio-agent/src/pipeline.rs:5518-5574 | the generation held for a producer never goes back while it is present |
| CoreRuns.OldGenerationsAreInert | jamodio-agent/src/pipeline.rs:5518-5574 | over any run, taking out the packets and removals of generations older than the one held changes no state |
| CoreRuns.WakeUpExact | jamodio-agent/src/pipeline.rs:5660-5677 | before the computed instant no stream is due, at it one is, and with nothing armed none ever is |
| CoreStories.CoreTellsEachStory | jamodio-agent/src/pipeline.rs:5518-5586 | after any run of the core a producer is held exactly when a generation of it began and was not removed; its state is that of a fresh stream given every packet of that generation and one look for every masking pass since, in order; mixer and statistics follow |
| Generations.ReceiveControl.Remove | jamodio-agent/src/pipeline.rs:3619-3631 | a removal sends the generation it removes |
| Generations.ReceiveControl.Add | jamodio-agent/src/pipeline.rs:3510-3617 | an addition removes first, then gives a new generation exactly when it is prepared, a thread runs or starts and fewer than 32 others are received |
| Generations.AdditionMeans | jamodio-agent/src/pipeline.rs:3510-3617 | an addition that can be made is made, whether or not the producer was received: one more generation, the former one taken back before |
| Generations.RunSound | jamodio-agent/src/pipeline/recv_thread.rs:188-342 | every interleaving of control, queue, packets, masking, failures and the end of the thread keeps the invariant |
| Generations.QueueLeadsToControl | jamodio-agent/src/pipeline/recv_thread.rs:188-342 | once the queue is carried out the registrations are exactly `recv_streams` less the sockets that failed, one generation each, at most 32 |
| Receiving.AdditionIsReceived | jamodio-agent/src/pipeline.rs:3510-3617 | after any run, an addition that can be made gets a generation above all others and leaves the other producers; once the queue is carried out this very generation is registered and no other; otherwise none is |
| Receiving.RemovalIsComplete | jamodio-agent/src/pipeline.rs:3619-3631 | after any run, a removed producer has no registration and no decode state once the queue is carried out; the others are still received |
| Receiving.TeardownIsComplete | jamodio-agent/src/pipeline/recv_thread.rs:188-342 | after any run, a teardown leaves nothing to receive; the thread empties its queue, keeps nothing and ends |
| Receiving.SystemTellsEachStory | jamodio-agent/src/pipeline/recv_thread.rs:188-342 | in the whole system too, the stream of a producer is what the packets of its generation and the masking passes since make of a fresh one |
| Generations.StaleIsUnreachable | jamodio-agent/src/pipeline.rs:5518-5560 | a packet of a registered socket never meets a state of another generation |
| Generations.MixerFollowsStates | jamodio-agent/src/pipeline.rs:5518-5560 | in the whole system the mixer's peers are the decode states even when codecs fail |
| Generations.StreamsKeepTheirAccounts | jamodio-agent/src/pipeline/recv_thread.rs:188-342 | the budget and the accounts hold for every stream of every run of the whole system |
| Framing.FramesConserveTheSignal | jamodio-agent/src/pipeline.rs:4817-4892 | frames followed by the rest are the signal: nothing lost, doubled or moved |
| Framing.Feed | jamodio-agent/src/pipeline.rs:4817-4892 | the frames do not depend on how the signal is cut into blocks |
| Framing.PacketsAreNumbered | jamodio-agent/src/pipeline.rs:4822-4880 | the kth packet has sequence first + k and timestamp first + 120 k, modulo 2^16 and 2^32, and the marker when the sequence comes round to the first |
| Framing.FrameIsInItsPacket | jamodio-agent/src/pipeline.rs:4822-4892 | the packets hold the encoded frames in order |
| Framing.InstrumentPacketHoldsItsSamples | jamodio-agent/src/pipeline.rs:4817-4892 | the packet of the kth frame of an instrument holds its 240 samples |
| Framing.VoicePacketHoldsItsSamples | jamodio-agent/src/pipeline.rs:5187-5219 | the packet of the kth frame of a voice holds its 120 samples, each on both channels |
| Framing.MutedIsTheRamp | jamodio-agent/src/pipeline.rs:5187-5190 | each sample of the voice gets one step more of the mute ramp than the one before |
| Framing.TimestampIsPosition | jamodio-agent/src/pipeline.rs:4822-4892 | a timestamp is the position of its frame exactly when the frames lost to the encoder before it are whole turns of the clock |
| Framing.FailedFrameShiftsTheNext | jamodio-agent/src/pipeline.rs:4822-4892 | when the first frame fails the second one leaves with its timestamp |
| Framing.SocketChangesNoPacket | jamodio-agent/src/pipeline.rs:4842-4880 | nothing the socket answers changes a packet |
| Framing.TotalsAreExact | jamodio-agent/src/pipeline.rs:4842-4853 | the totals of the Sender Report count what left, modulo 2^32 |
| Framing.ReportOfFrame | jamodio-agent/src/pipeline.rs:4842-4853 | each frame that left has a report with its timestamp and the totals up to it |
| Framing.InstrumentEncoder.Block | jamodio-agent/src/pipeline.rs:4800-4898 | after any block the packets, totals and rest are a function of the whole signal so far, silenced where private; the burst is the packets of this block |
| Framing.InstrumentEncoder.Emit | jamodio-agent/src/pipeline.rs:4822-4892 | one frame consumed, with or without its packet |
| Framing.VoiceEncoder.Samples | jamodio-agent/src/pipeline.rs:5187-5219 | the same for the voice, muted sample by sample, left equal to right |
| Ramps.SmoothGain.ApplyMonoBlock | jamodio-audio-core/src/gain.rs:67-75 | each sample gets the gain of its place in the glide, or none in the neutral band |
| Ramps.SmoothGain.ApplyStereoBlock | jamodio-audio-core/src/gain.rs:83-102 | both channels of a frame get one gain; an orphan sample gets the current one |
| Ramps.GapStep | jamodio-audio-core/src/gain.rs:59-63 | one step closes the gap by the coefficient and never reaches the target |
| Ramps.GlideGap | jamodio-audio-core/src/gain.rs:59-63 | after n steps the gap is exactly (1 - c)^n of the first, c that of the attack to rise and of the release to fall, without overshoot |
| Ramps.GainsFollowTheRamp | jamodio-audio-core/src/gain.rs:59-75 | a neutral block is left as it is; otherwise the first sample gets one step of the ramp, each next one one step more, and the last gain is kept |
| Ramps.CutIsExactUnlessNeutralReached | jamodio-audio-core/src/gain.rs:67-75 | cutting a block in two changes no gain, unless the first part enters the neutral band |
| Ramps.CutSkipsAGain | jamodio-audio-core/src/gain.rs:67-75 | whatever the coefficients, a signal of two samples whose cut leaves the second one unscaled |
| Ramps.CutsAreExact | jamodio-audio-core/src/gain.rs:67-75 | toward any target but 1, any cuts change no gain |
| Ramps.CutsAreExactUnlessNeutralReached | jamodio-audio-core/src/gain.rs:67-75 | any number of cuts toward any target changes no gain, unless a block ends inside the band with samples still to come |
| Ramps.ApplyJoinFade | jamodio-agent/src/pipeline.rs:5635-5651 | each sample gets the gain of its absolute position, and what remains of the fade is returned |
| Ramps.JoinFadeIgnoresCuts | jamodio-agent/src/pipeline.rs:5635-5651 | the join fade of a stream cut anyhow is that of the uncut stream |
| Ramps.JoinFadeRises | jamodio-agent/src/pipeline.rs:5633-5651 | the fade starts from silence, rises by equal steps for 28 800 samples and leaves the rest as it is |
| Ramps.ApplyDryWetFade | jamodio-agent/src/pipeline.rs:4327-4348 | both channels of a frame are mixed by the gains of its absolute position |
| Ramps.DryWetFadeIgnoresCuts | jamodio-agent/src/pipeline.rs:4327-4348 | the crossfade of whole frames cut anyhow is the uncut one |
| Ramps.FadeGoesFromDryToWet | jamodio-agent/src/pipeline.rs:4317-4348 | the crossfade starts with the dry signal, gives each signal its own gain and ends with the wet one |
| Midi.OffsetIsTheDelay | jamodio-agent/src/pipeline.rs:3868-3878 | for 89 seconds the offset is the delay at 48 kHz, clamped to the block |
| Midi.OffsetsKeepOrder | jamodio-agent/src/pipeline.rs:3868-3878 | a later event never gets an earlier offset |
| Midi.Drain | jamodio-agent/src/pipeline.rs:4500-4524 | the first 64 events are taken in order, the others stay queued |
| Midi.DispatchSubBlock | jamodio-agent/src/pipeline.rs:3891-3906 | a sub-block receives the events of its stretch, in order, at offsets inside it |
| Midi.DispatchBlock | jamodio-agent/src/pipeline.rs:4573-4625 | the sub-blocks cut the block in stretches of at most 128 frames |
| Midi.EveryEventOnce | jamodio-agent/src/pipeline.rs:4500-4625 | the events that reach the plugin are the drained ones, each once and at its own place, exactly when the block has a frame |
| Midi.EventHasOneCall | jamodio-agent/src/pipeline.rs:4500-4625 | each drained event is in the call of its own stretch and in no other |
| Perfstats.OrderedIsUnique | jamodio-audio-core/src/perfstats.rs:69-93 | the figures depend on the observations, not on their order in the ring |
| Perfstats.SnapshotOrdered | jamodio-audio-core/src/perfstats.rs:69-93 | p50, p99 and max are observations in that order, and the mean lies between the extremes |
| Perfstats.SnapshotRanks | jamodio-audio-core/src/perfstats.rs:69-93 | in order, p50 is the observation of rank n / 2, p99 that of rank 99 n / 100, the maximum the last; the mean is the sum over the number; nothing observed, all zero |
| Perfstats.Histogram.Observe | jamodio-audio-core/src/perfstats.rs:46-53 | the ring holds the last observations, one more |
| Perfstats.Histogram.Reset | jamodio-audio-core/src/perfstats.rs:57-60 | the window is empty whatever the buffer still holds |
| Perfstats.Histogram.RingHoldsKept | jamodio-audio-core/src/perfstats.rs:46-60 | the valid part is, as a multiset, the kept observations; until full the write index is the count |
| Perfstats.HistogramReader.Read | jamodio-audio-core/src/perfstats.rs:116-128 | a read gives the figures of the window since the last one and leaves an empty histogram of the same capacity |
| Perfstats.Drive | jamodio-audio-core/src/perfstats.rs:46-128 | any run of observations, resets and reads answers what a plain list would |
| CivilDate.YearOfEraIsRight | jamodio-bench/src/campaign.rs:953-966 | the division formula finds the year of the 400-year era |
| CivilDate.DateIsRight | jamodio-bench/src/campaign.rs:953-966 | for every instant the date is valid and counting years and months one by one gives back its day |
| CivilDate.DatesAreDistinct | jamodio-bench/src/campaign.rs:953-966 | no two dates of the calendar have the same day number, so a day has one date only |
| CivilDate.DatesAdvance | jamodio-bench/src/campaign.rs:953-966 | the date of the next day is the calendar successor of the date of the day |
| CivilDate.RoundTrip | jamodio-bench/src/campaign.rs:953-966 | every valid date from 1970 on is the date of its own day |
| Verdicts.TolerancesFromRuns | jamodio-bench/src/campaign.rs:362-388 | every stream named in a run gets the tolerance of the spread of its measures, with its floor |
| Verdicts.ToleranceIsTwiceTheSpread | jamodio-bench/src/campaign.rs:326-388 | a tolerance is the largest of its floor (1 ms, half a hole, ten frames) and twice the gap between any two runs |
| Verdicts.CompareStream | jamodio-bench/src/campaign.rs:467-490 | what one stream adds to regressions, uncompared and improved measures |
| Verdicts.CompareScenario | jamodio-bench/src/campaign.rs:441-511 | the verdict and its three lists, both ways |
| Verdicts.FindingsMean | jamodio-bench/src/campaign.rs:466-490 | a stream the reference lacks gives its name; any other gives, for each of its three measures, whether it is beyond its tolerance on either side, gone or without a reference |
| Verdicts.FindIsFirst | jamodio-bench/src/campaign.rs:468 | the stream compared is the first one of that name |
| Verdicts.RegressionMeans | jamodio-bench/src/campaign.rs:441-511 | said exactly of a complete, like-for-like, precise comparison with a new stream, a measure beyond tolerance or gone, or a criterion lost |
| Verdicts.NoRegressionMeans | jamodio-bench/src/campaign.rs:441-511 | said exactly of a complete, like-for-like, precise comparison where every stream is within tolerance and no criterion is lost |
| Verdicts.VanishedStreamsAreNotSeen | jamodio-bench/src/campaign.rs:466-490 | whatever streams of the reference the current run lacks, taking them out of the reference changes neither a finding nor the verdict |
| Verdicts.WideningNeverRegresses | jamodio-bench/src/campaign.rs:441-511 | wider tolerances never create a regression |
| Verdicts.GroupByStream | jamodio-bench/src/report.rs:404-416 | each stream of a run has one group, with its readings in order, so a run names each stream once |
| Verdicts.NoiseIsNoRegression | jamodio-bench/src/campaign.rs:362-388 | with tolerances drawn from a set of runs, comparing any two of them finds no measure too high or too low |
| Verdicts.CompareCampaign | jamodio-bench/src/campaign.rs:514-587 | a campaign has no regression exactly when it has scenarios, all compared without one, and every planned one ran |
| Verdicts.EntryMeans | jamodio-bench/src/campaign.rs:514-560 | a scenario is free of regression exactly when it is measured, compared in the same setup and held against the figures of that scenario with its own tolerances |
| Throttling.DecimalReadsBack | jamodio-agent/src/net_throttling.rs:61-66 | decimal text reads back as its number |
| Throttling.RoundTrip | jamodio-agent/src/net_throttling.rs:59-89 | every reading survives its memorised text, with any white space around |
| Throttling.UnsignedForm | jamodio-agent/src/net_throttling.rs:73-84 | the unsigned form reads back as its value and is refused beyond 32 bits |
| Throttling.SignedForm | jamodio-agent/src/net_throttling.rs:73-84 | the signed form reads back as its two's complement and is refused below -2^31 |
| Throttling.Keys.Uninstall | jamodio-agent/src/net_throttling.rs:283-310 | the new registry and the outcome, whichever access fails |
| Throttling.Keys.InstallerStep | jamodio-agent/src/net_throttling.rs:312-323 | the exit code, and the trace of a failure |
| Throttling.OnlyOurOwnValueIsTouched | jamodio-agent/src/net_throttling.rs:117-323 | whatever fails, a value that is no longer ours is never overwritten |
| Throttling.RestoreIsExact | jamodio-agent/src/net_throttling.rs:117-323 | it succeeds exactly when the memory can be read, and then restores and erases |
| Throttling.TwiceIsOnce | jamodio-agent/src/net_throttling.rs:117-323 | after a success, uninstalling again leaves the value alone whatever fails |
| Throttling.LifeCycle | jamodio-agent/wix/network-throttling.wxs:34-82 | install on any machine, any updates and user changes, uninstall: it succeeds exactly when the origin can be read, and gives the first origin if ours is still in place, else the user's |
| Throttling.SaturationIsHarmless | jamodio-agent/src/net_throttling.rs:134-137 | saturating arithmetic changes one answer only |
| DeviceLosses.DeviceLoss.NoteInputLost | jamodio-agent/src/device_loss.rs:62-74 | a loss is recorded and announced unless it is the one already recorded |
| DeviceLosses.DeviceLoss.NoteInputBack | jamodio-agent/src/device_loss.rs:78-82 | a recorded loss is cleared and its return announced |
| DeviceLosses.DeviceLoss.OutputFellBack | jamodio-agent/src/device_loss.rs:87-96 | announced again only if the fallback changes |
| DeviceLosses.DeviceLoss.NoteOutputBack | jamodio-agent/src/device_loss.rs:108-112 | a recorded loss is cleared and its return announced |
| DeviceLosses.DeviceLoss.Forget | jamodio-agent/src/device_loss.rs:116-120 | losses and pending events are dropped in silence |
| DeviceLosses.StateIsReplay | jamodio-agent/src/device_loss.rs:60-140 | over any calls the state is the replay of the emitted events and silent transitions, and no event is emitted without its cause |
| DeviceLosses.InputReturnFollowsItsLoss | jamodio-agent/src/device_loss.rs:62-82 | a return of an input follows the recorded loss of that input |
| DeviceLosses.OutputReturnFollowsItsLoss | jamodio-agent/src/device_loss.rs:87-112 | a return of an output follows its recorded loss or fallback at opening |
| DeviceLosses.LossIsNotRepeated | jamodio-agent/src/device_loss.rs:62-96 | the same loss is never announced twice with nothing in between |
| Reopening.ChangesAreTold | jamodio-agent/src/device_loss.rs:60-140 | after a loss that loss is recorded, after a return none is, and the browser is told once of each of these changes and of nothing else |
| DeviceLosses.Playback.RestartPlayback | jamodio-agent/src/pipeline.rs:1996-2076 | chosen output, fallback of the system, or no sound, with what is recorded |
| DeviceLosses.Playback.SelectDevices | jamodio-agent/src/pipeline.rs:1978-1991 | another choice forgets the loss when something plays |
| DeviceLosses.Playback.ReturnToChosenOutput | jamodio-agent/src/pipeline.rs:3416-3422 | the restart, and the return announced if the chosen output itself opened |
| DeviceLosses.Playback.FollowOsDefault | jamodio-agent/src/pipeline.rs:2097-2107 | the restart, only while the system's default is the choice and plays in a capture |
| DeviceLosses.Playback.RebuildStreams | jamodio-agent/src/pipeline.rs:3223-3330 | recreated streams record a fallback or announce a return |
| DeviceLosses.Playback.PrepareOutput | jamodio-agent/src/pipeline.rs:2310-2497 | a new capture forgets the losses, then records a fallback in silence |
| DeviceLosses.Playback.KeepListeningWithoutInput | jamodio-agent/src/pipeline.rs:3339-3388 | the loss of the input, then the output alone: chosen, fallback if not found, or nothing |
| DeviceLosses.Playback.OpenOutputForStream | jamodio-agent/src/pipeline.rs:3586-3608 | a received stream opens the output if nothing plays and records nothing |
| DeviceLosses.ReturnIsAnnouncedOnlyByTheChosen | jamodio-agent/src/pipeline.rs:3416-3422 | a fallback reopening never announces a return |
| Reopening.SoundIsKept | jamodio-agent/src/pipeline.rs:1996-2076 | the sound is lost only when neither the chosen output nor one that may stand in for it opens |
| Reopening.OperationsKeepTheSound | jamodio-agent/src/pipeline.rs:1978-3606 | after each operation the best output that opens is heard, the one that stands in is recorded under the name of the one asked for, and the browser is told of what is new to it |
| DeviceLosses.NamedUnlessSelectedInSilence | jamodio-agent/src/pipeline.rs:1978-1991 | each operation on the output keeps the recorded loss that of the output asked for, exactly unless another is chosen while none plays |
| DeviceLosses.LossIsNamed | jamodio-agent/src/pipeline.rs:1978-3606 | over any run it stays so all along exactly when no such choice is made |
| DeviceLosses.HeardUnlessQuietlyOpened | jamodio-agent/src/pipeline.rs:3339-3606 | each operation keeps the sound on the fallback named or nowhere, exactly unless another device is opened for a received stream, to keep listening or to follow the system |
| DeviceLosses.FallbackIsHeard | jamodio-agent/src/pipeline.rs:1978-3606 | over any run it stays so all along exactly when no output is opened in these ways |
| DeviceLosses.ReturnUnnoticed | jamodio-agent/src/pipeline.rs:3339-3388 | a run after which the chosen output plays and is still recorded as lost |
| DeviceLosses.ReturnsNameTheOutputAskedFor | jamodio-agent/src/pipeline.rs:3223-3422 | over any run without a choice made in silence, a return announced names the output asked for |
| DeviceLosses.WrongReturnAnnounced | jamodio-agent/src/pipeline.rs:1978-3422 | a run from a fresh start that announces the return of an output that is not the one opened |
| DeviceLosses.InputBackNeedsARebuild | jamodio-agent/src/ws_server.rs:3003-3052 | over any run of the branch where the output outlives the input, an input is declared back only by sound delivered since a successful rebuild, after waiting at every turn in between |
| DeviceLosses.RebuildsAreSpaced | jamodio-agent/src/ws_server.rs:3008-3052 | two successful rebuilds of an input that stays silent are at least the confirmation window apart |
| Reopening.LostInputIsProbed | jamodio-agent/src/ws_server.rs:3003-3052 | a lost input is back as soon as it sounds after a rebuild; otherwise it is probed every three seconds but not within nine seconds of a rebuild |
| Reopening.ProbeStartsTheWait | jamodio-agent/src/ws_server.rs:3003-3052 | only a probe that finds and rebuilds the input starts the wait; any other probe, a return or an input not lost ends it |
| Sessions.AudioPipeline.TeardownSession | jamodio-agent/src/pipeline.rs:2155-2207 | what ends with the capture, and what ends only with the session |
| Sessions.AudioPipeline.ParkDriver | jamodio-agent/src/pipeline.rs:2238-2254 | the session ends, the driver stays open and stamped |
| Sessions.AudioPipeline.LeaveSession | jamodio-agent/src/pipeline.rs:2267-2277 | park, nothing, or full stop |
| Sessions.AudioPipeline.CloseWarmIfGraceExpired | jamodio-agent/src/pipeline.rs:2282-2301 | closes exactly a driver parked for the whole grace |
| Sessions.AudioPipeline.PrepareAudio | jamodio-agent/src/pipeline.rs:2310-2508 | reuse of the warm driver or cold opening |
| Sessions.AudioPipeline.StartCapture | jamodio-agent/src/pipeline.rs:2520-2825 | each refusal and failure with what it leaves behind |
| SessionOutcomes.AnswerMeans | jamodio-agent/src/pipeline.rs:2520-2825 | refused for its system, then for its driver, then for its rate; failed by what follows; otherwise started |
| SessionOutcomes.StartedIsLive | jamodio-agent/src/pipeline.rs:2520-2825 | a capture that starts has all that makes it live, on the warm driver that fits or on a new one, and the reception of a session that goes on |
| SessionOutcomes.FailedLeaves | jamodio-agent/src/pipeline.rs:2520-2825 | what a failure leaves: nothing fed, named or reported; encoder and self-monitor only when the thread alone is missing |
| SessionOutcomes.RefusedLeaves | jamodio-agent/src/pipeline.rs:2520-2580 | a refusal for the system changes nothing; one for the driver or its rate leaves no capture and no driver |
| SessionOutcomes.LeavingKeepsTheWarmDriver | jamodio-agent/src/pipeline.rs:2155-2277 | leaving a capture over a warm driver parks it open and stamped; otherwise the driver is closed, unless it is warm and idle |
| SessionOutcomes.WakeUpRestores | jamodio-agent/src/ws_server.rs:2945-2957 | going to sleep mutes and closes; waking up reopens the streams of a capture and feeds the encoder |
| Sessions.LeaveIsIdempotent | jamodio-agent/src/pipeline.rs:2267-2277 | leaving twice is leaving once, to the instant of parking |
| Sessions.RunKeeps | jamodio-agent/src/pipeline.rs:2155-3686 | over any run a capturing driver is not parked, a warm one is ASIO at 48 kHz, and the machine is kept awake only while capturing |
| Sessions.AudioPipeline.WakeUp | jamodio-agent/src/ws_server.rs:2951-2957 | the second half of a wake-up recreates the streams of a capture and feeds the encoder in any state |
| Sessions.EncoderFeedsACapture | jamodio-agent/src/ws_server.rs:2945-2957 | over any run the encoder is fed only while capturing exactly when each wake-up ends during a capture |
| Sessions.WakingInTimeFeedsACapture | jamodio-agent/src/ws_server.rs:2945-2957 | which holds when nobody leaves or stops between an instant of capture and the end of the wake-up |
| Sessions.LeavingDuringAWakeUp | jamodio-agent/src/ws_server.rs:2945-2957 | a run that leaves in between: parked, idle and fed |
| Sessions.CaptureIsNeverClosedByGrace | jamodio-agent/src/pipeline.rs:2282-2301 | in every run the grace never closes the driver of a capture |
| Sessions.EachGraceRecyclesOnce | jamodio-agent/src/pipeline.rs:2282-2400 | over any run each release by the grace leads to one fresh apartment, at the next cold opening |
| Sessions.LeaveReleases | jamodio-agent/src/pipeline.rs:2155-2277 | leaving releases everything exactly unless it is a no-op with something to release |
| Sessions.NewSessionStartsClean | jamodio-agent/src/pipeline.rs:2520-2825 | a new session inherits no peer, setting or thread, and keeps the machine awake exactly if it starts |
| Sessions.HotSwapKeepsReception | jamodio-agent/src/pipeline.rs:2520-2825 | changing the input, in success or failure, leaves reception as it was |
| Sessions.RejoinReopensNothing | jamodio-agent/src/pipeline.rs:2310-2376 | coming back reopens nothing exactly when the warm driver fits and the grace has not run out |
| Sessions.FailedIsLate | jamodio-agent/src/pipeline.rs:2520-2825 | a start fails after acquiring the driver exactly when it is let in, gets the driver at 48 kHz and a later step goes wrong |
| Sessions.IdleParkedIff | jamodio-agent/src/pipeline.rs:2155-2825 | each step keeps idle drivers parked exactly unless a start fails after acquiring the driver |
| Sessions.IdleDriverIsParked | jamodio-agent/src/pipeline.rs:2155-2825 | on every run where no start fails after acquiring the driver, an idle warm driver is parked |
| Sessions.IdleDriverIsReleased | jamodio-agent/src/pipeline.rs:2155-2825 | on such a run a look closes the idle driver exactly once the grace has passed since it was parked |
| Sessions.LateFailureHoldsTheDriver | jamodio-agent/src/pipeline.rs:2267-2301 | after such a failure neither leaving nor the grace closes the driver |

## Left out

- Floating point: samples, gains and durations are reals; a measure that is not finite is `None`. The
  99th percentile index is the integer formula floor(99 n / 100).
- Finiteness of the facts of a hole: `Holes.Classify` takes finite durations; only the output block may
  be unknown.
- `sin` and `cos` of the crossfade and `exp` of the filter coefficients: arbitrary curves and
  coefficients between 0 and 1.
- Opus, SRTP, sockets, sound cards, plugins and the operating system: only their outcomes, as arbitrary
  arguments; the encoder and socket of one stream are one arbitrary sequence of answers.
- The jitter and drift estimators and the mixer's own learning of late packets: their results are
  arguments of an examination or a packet.
- The fade of a new stream inside `DecodeState` is modelled apart, in `Ramps`; the sound a packet pushes
  is not followed into the mixer.
- The kind of a stream, logs, labels, publication of statistics: they decide nothing.
- The 128-bit windows of the tracker are sets of positions, and the generation number is unbounded.
- The commands of the receive thread are taken in order and a poll failure ends the thread; hole
  punching, silence reports and the order in which ready sockets are read are not modelled.
- Concurrency of the registry with other programs, and the key that may be created by a write: the
  value read is still there when it is written back.
- The text of dates, traces and verdict lines: dates are fields, verdicts are lists of findings.
- The standard library's sort is an insertion sort; only its ordered permutation matters.
- MIDI capture, the status byte of a note and the plugin's own sound, dry when it fails.
- The 32-bit product of a MIDI delay wraps, as in a build without overflow checks.
- When the liveness supervisor decides on a repair, a wake-up or a stop: what these do to the session
  (close, rebuild, mute, feed, `stop_all`) are steps a run may take at any moment.
- CutIsExactUnlessNeutralReached: over reals; in 32-bit floats, with the program's two coefficients, the
  glide stalls outside the neutral band, so the exception it describes is one of the model.
- The clock of the poll of a lost input is also moved by the check of a lost output and after a failed
  repair (jamodio-agent/src/ws_server.rs:2994 and 3218); only probes of the input move it here.
- The receive side of a session is a set of streams here; its queue and thread are in `Generations`.
- The plugin-scan guard: its end-of-thread reset is not atomic with the result.
- OffsetIsTheDelay: one sample less at most, because the delay is cut to microseconds first.
- TimestampIsPosition: stated modulo 2^32, because the clock wraps.
