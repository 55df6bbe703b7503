/** Why the output found nothing to play (jamodio-audio-core/src/mixer/hole.rs). */
module Holes {
  import opened Options

  const CONSUMPTION_TOLERANCE_BLOCKS: real := 2.0
  const UNKNOWN_BLOCK_MS: real := 2.5

  datatype Cause = Arrival | Reception | Decode | Consumption | Sequence | Unclassified

  datatype Facts = Facts(
    sinceLastPush: real,
    consumedSincePush: real,
    outputBlock: Option<real>,
    nextReceivedBeforeHole: Option<bool>,
    nextInSystemBeforeHole: Option<bool>,
    discardedBeforeHole: bool)

  function Classify(f: Facts): Cause {
    if f.sinceLastPush < 0.0 || f.consumedSincePush < 0.0 then Unclassified else
    var block := if f.outputBlock.Some? && f.outputBlock.value > 0.0 then f.outputBlock.value else UNKNOWN_BLOCK_MS;
    if f.consumedSincePush - f.sinceLastPush > CONSUMPTION_TOLERANCE_BLOCKS * block then Consumption
    else if f.discardedBeforeHole then Sequence
    else if f.nextReceivedBeforeHole == Some(true) then Decode
    else if f.nextInSystemBeforeHole == Some(true) then Reception
    else Arrival
  }
}
