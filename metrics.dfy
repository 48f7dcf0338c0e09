/** Gauge samples and the channel they are sent on. */
module Metrics {

  /** One gauge sample: the family name (coin name + suffix), the label values in the
      order of the family's label names, and the value. Help text and the gauge kind are
      the same for every sample of a family and are not modelled. */
  datatype Sample = Sample(name: string, labels: seq<string>, value: int)

  /** The metrics channel `ch` that every collector sends on. Sends are appended in order. */
  class Sink {
    var emitted: seq<Sample>

    constructor ()
      ensures emitted == []
    {
      emitted := [];
    }

    /** `ch <- sample` */
    method Send(s: Sample)
      modifies this
      ensures emitted == old(emitted) + [s]
    {
      emitted := emitted + [s];
    }
  }
}
