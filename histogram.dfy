/**
  Values and mutable objects shared by the histogram decoder: centroids, the errors that abort
  decoding of a line, the mutable histogram value and report under construction, the frozen
  record handed to the caller and the caller's output list.
*/
module HistogramTypes {

  datatype Option<+T> = None | Some(value: T)

  /** A centroid: the mean of a cluster of samples and the number of samples in it. */
  datatype Centroid = Centroid(mean: real, count: int)

  /** The only value kind this decoder produces. */
  datatype HistogramType = TDigest

  /** The failures that abort the decoding of one line. */
  datatype DecodeError =
    | ParseError(binType: string)     // a bin literal other than !M, !H, !D
    | MalformedLine                   // the line grammar rejected the line
    | TooManyCentroids(max: int)      // more centroids than the context allows
    | UnsupportedOperation            // the entry point without customer context

  /** Whether a call returned normally or threw. */
  datatype Outcome = Pass | Fail(error: DecodeError)

  datatype Result<+T> = Success(value: T) | Failure(error: DecodeError)

  /** Every adjacent pair of means is strictly increasing. */
  predicate StrictlyAscending(means: seq<real>) {
    forall i :: 0 < i < |means| ==> means[i - 1] < means[i]
  }

  /** Some count is below 1. */
  predicate HasBogusCount(counts: seq<int>) {
    exists i :: 0 <= i < |counts| && counts[i] < 1
  }

  function MeansOf(cs: seq<Centroid>): seq<real> {
    seq(|cs|, i requires 0 <= i < |cs| => cs[i].mean)
  }

  function CountsOf(cs: seq<Centroid>): seq<int> {
    seq(|cs|, i requires 0 <= i < |cs| => cs[i].count)
  }

  /** The storage form: strictly ascending means, every count at least 1. */
  predicate Canonical(cs: seq<Centroid>) {
    StrictlyAscending(MeansOf(cs)) && !HasBogusCount(CountsOf(cs))
  }

  /** The histogram value of a report: bin duration, kind, and the parallel lists of means
      (called bins) and counts, which are rewritten in place. */
  class Histogram {
    var duration: int
    var kind: HistogramType
    var bins: seq<real>
    var counts: seq<int>

    constructor (duration: int)
      ensures this.duration == duration && kind == TDigest
      ensures bins == [] && counts == []
    {
      this.duration := duration;
      kind := TDigest;
      bins := [];
      counts := [];
    }
  }

  /** The immutable record emitted for one decoded line. */
  datatype HistogramRecord = HistogramRecord(
    timestamp: int,
    metric: string,
    host: string,
    customer: string,
    annotations: map<string, string>,
    duration: int,
    kind: HistogramType,
    bins: seq<real>,
    counts: seq<int>)

  /** A histogram report under construction: the line grammar's setters fill it field by
      field, and the decoder adjusts it before freezing a copy. */
  class ReportHistogram {
    var timestamp: int
    var metric: string
    var host: string
    var customer: string
    var annotations: map<string, string>
    var value: Histogram?

    constructor ()
      ensures value == null
    {
      timestamp := 0;
      metric := "";
      host := "";
      customer := "";
      annotations := map[];
      value := null;
    }

    /** The frozen copy of the report and its histogram value. */
    function Snapshot(): HistogramRecord
      reads this, value
      requires value != null
    {
      HistogramRecord(timestamp, metric, host, customer, annotations,
                      value.duration, value.kind, value.bins, value.counts)
    }
  }

  /** The caller-owned list that decoded records are appended to. */
  class ReportList {
    var items: seq<HistogramRecord>

    method Add(r: HistogramRecord)
      modifies this
      ensures items == old(items) + [r]
    {
      items := items + [r];
    }
  }
}
