/**
  Bin-type resolution: the case-sensitive literals !M, !H and !D select a bin of one minute,
  one hour or one day, and the report's value becomes an empty T-Digest histogram of that
  duration. Every other literal is a parse error.
*/
module BinType {
  import opened HistogramTypes

  // The DateUtils constants the durations are taken from.
  const MillisPerSecond: int := 1000
  const MillisPerMinute: int := 60 * MillisPerSecond
  const MillisPerHour: int := 60 * MillisPerMinute
  const MillisPerDay: int := 24 * MillisPerHour

  /** Largest value of a Java int: the durations are cast to int. */
  const IntMax: int := 0x7fff_ffff

  /** The three bin durations, in milliseconds. */
  predicate IsBinDuration(d: int) {
    d == MillisPerMinute || d == MillisPerHour || d == MillisPerDay
  }

  /** The bin duration, in milliseconds, that a bin literal selects. */
  function BinDuration(binType: string): (r: Result<int>)
    ensures binType == "!M" ==> r == Success(60000)
    ensures binType == "!H" ==> r == Success(3600000)
    ensures binType == "!D" ==> r == Success(86400000)
    ensures r.Failure? <==> binType != "!M" && binType != "!H" && binType != "!D"
    ensures r.Failure? ==> r.error == ParseError(binType)
    ensures r.Success? ==> IsBinDuration(r.value) && 0 < r.value <= IntMax
  {
    if binType == "!M" then Success(MillisPerMinute)
    else if binType == "!H" then Success(MillisPerHour)
    else if binType == "!D" then Success(MillisPerDay)
    else Failure(ParseError(binType))
  }

  /** The literal that selects a given bin duration. */
  function BinLiteral(duration: int): string {
    if duration == MillisPerMinute then "!M"
    else if duration == MillisPerHour then "!H"
    else if duration == MillisPerDay then "!D"
    else ""
  }

  /** A recognised literal is recovered from its duration, so no two literals share a bin. */
  lemma BinLiteralRoundTrip(binType: string)
    requires BinDuration(binType).Success?
    ensures BinLiteral(BinDuration(binType).value) == binType
  {
  }

  /** Resolves the bin literal and gives `target` a fresh, empty T-Digest value of that
      duration; on an unknown literal it fails before touching `target`. */
  method SetBinType(target: ReportHistogram, binType: string) returns (outcome: Outcome)
    modifies target`value
    ensures outcome.Pass? <==> BinDuration(binType).Success?
    ensures outcome.Fail? ==> outcome.error == BinDuration(binType).error
    ensures outcome.Fail? ==> target.value == old(target.value)
    ensures outcome.Pass? ==>
      && target.value != null && fresh(target.value)
      && target.value.duration == BinDuration(binType).value
      && target.value.kind == TDigest
      && target.value.bins == [] && target.value.counts == []
  {
    var durationMillis := BinDuration(binType);
    if durationMillis.Failure? {
      return Fail(durationMillis.error);
    }
    var histogram := new Histogram(durationMillis.value);
    target.value := histogram;
    return Pass;
  }
}
