/** Normalised behavioural signals (governing_brain/inputs.py). The Python
    records perform no validation: names, confidences and windows are taken as
    given, and so they are here. */
module Inputs {
  import opened Common

  datatype Signal = Signal(
    name: string,
    value: real,
    confidence: real,
    timestamp: Timestamp,
    source: Option<string>)

  datatype SignalBatch = SignalBatch(
    signals: seq<Signal>,
    windowStart: Timestamp,
    windowEnd: Timestamp)

  /** The names of a batch's signals, in batch order. */
  function Names(signals: seq<Signal>): (r: seq<string>)
    ensures |r| == |signals|
    ensures forall i :: 0 <= i < |signals| ==> r[i] == signals[i].name
  {
    seq(|signals|, i requires 0 <= i < |signals| => signals[i].name)
  }
}
