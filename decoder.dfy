/**
  Decoding of one histogram line of the form

      [BinType] [Timestamp] [Centroids] [Metric] [Annotations]

  into a report record appended to the caller's list. The line grammar is a collaborator that
  is not modelled: it either does not recognise the line as a histogram, rejects it as
  malformed, or yields its fields. The bin literal, which the grammar hands to its bin-type
  callback, is resolved right after the parse; then the decoder enforces the
  centroid ceiling and the storage optimisation of the ingestion context, aligns the timestamp
  to its bin and only then emits the record, so a line that fails emits nothing.
*/
module ReportHistogramDecoder {
  import opened HistogramTypes
  import opened BinType
  import opened BinTimestamp
  import opened CentroidNormalizer

  /** The fields the line grammar extracts: the bin literal, the timestamp (the grammar's
      default when the line has none), the centroid lists, the metric, the host (the default
      host name when the line names none), the customer and the annotations. */
  datatype ParsedLine = ParsedLine(
    binType: string,
    timestamp: int,
    means: seq<real>,
    counts: seq<int>,
    metric: string,
    host: string,
    customer: string,
    annotations: map<string, string>)

  datatype GrammarResult = NotHistogram | Malformed | Parsed(line: ParsedLine)

  /** The line grammar, applied to the message, the default host name, the customer id and
      the ingestion context. */
  type Grammar = (string, string, string, Option<IngesterContext>) -> GrammarResult

  /** The options of the ingestion context that the decoder consults. */
  datatype IngesterContext = IngesterContext(
    histogramCentroidsLimit: int,
    optimizeHistograms: bool,
    targetHistogramAccuracy: int)

  /** What the decoder is wired to: the grammar, the default host name the host supplier
      yields, the digest, and the oversize ratio of the ingestion context. */
  datatype Collaborators = Collaborators(
    grammar: Grammar,
    defaultHostName: string,
    compress: Compressor,
    compressLimitRatio: real)

  /** The centroid lists of a parsed line after the context's optional storage optimisation. */
  function CentroidsFor(line: ParsedLine, ctx: Option<IngesterContext>, env: Collaborators)
    : (seq<real>, seq<int>)
  {
    if ctx.Some? && ctx.value.optimizeHistograms
    then Optimized(line.means, line.counts, |line.counts|, ctx.value.targetHistogramAccuracy,
                   env.compressLimitRatio, env.compress)
    else (line.means, line.counts)
  }

  /** The result of decoding one line: no record, the record, or the error that aborts it. */
  function DecodeLine(msg: string, customerId: string, ctx: Option<IngesterContext>,
                      env: Collaborators): Result<Option<HistogramRecord>>
  {
    match env.grammar(msg, env.defaultHostName, customerId, ctx)
    case NotHistogram => Success(None)
    case Malformed => Failure(MalformedLine)
    case Parsed(line) =>
      match BinDuration(line.binType)
      case Failure(e) => Failure(e)
      case Success(duration) =>
        if ctx.Some? && |line.counts| > ctx.value.histogramCentroidsLimit
        then Failure(TooManyCentroids(ctx.value.histogramCentroidsLimit))
        else
          var (bins, counts) := CentroidsFor(line, ctx, env);
          Success(Some(HistogramRecord(BinStart(line.timestamp, duration), line.metric,
                                       line.host, line.customer, line.annotations,
                                       duration, TDigest, bins, counts)))
  }

  /** The records a decode result appends to the output list. */
  function Emitted(r: Result<Option<HistogramRecord>>): seq<HistogramRecord> {
    if r.Success? && r.value.Some? then [r.value.value] else []
  }

  /** Whether a decode result returns normally or throws. */
  function OutcomeOf(r: Result<Option<HistogramRecord>>): Outcome {
    if r.Success? then Pass else Fail(r.error)
  }

  /** Decodes `msg` and appends the record, if any, to `out`; `out` is only touched as the
      last step, after every check has passed. */
  method Decode(msg: string, out: ReportList, customerId: string, ctx: Option<IngesterContext>,
                env: Collaborators) returns (outcome: Outcome)
    modifies out
    ensures outcome == OutcomeOf(DecodeLine(msg, customerId, ctx, env))
    ensures out.items == old(out.items) + Emitted(DecodeLine(msg, customerId, ctx, env))
  {
    var parsed := env.grammar(msg, env.defaultHostName, customerId, ctx);
    if parsed.NotHistogram? {
      return Pass;
    }
    if parsed.Malformed? {
      return Fail(MalformedLine);
    }
    var line := parsed.line;

    // The grammar's setters, in the order of the line: bin type first.
    var histogram := new ReportHistogram();
    var binOutcome := SetBinType(histogram, line.binType);
    if binOutcome.Fail? {
      return binOutcome;
    }
    histogram.timestamp := line.timestamp;
    var value := histogram.value;
    value.bins := line.means;
    value.counts := line.counts;
    histogram.metric := line.metric;
    histogram.host := line.host;
    histogram.customer := line.customer;
    histogram.annotations := line.annotations;

    if ctx.Some? {
      if |value.counts| > ctx.value.histogramCentroidsLimit {
        return Fail(TooManyCentroids(ctx.value.histogramCentroidsLimit));
      }
      if ctx.value.optimizeHistograms {
        OptimizeForStorage(value, |value.counts|, ctx.value.targetHistogramAccuracy,
                           env.compressLimitRatio, env.compress);
      }
    }
    // adjust the timestamp to the start of its bin
    var duration := value.duration;
    histogram.timestamp := BinStart(histogram.timestamp, duration);
    out.Add(histogram.Snapshot());
    return Pass;
  }

  /** The entry point without customer context is unsupported: it always fails, and having no
      modifies clause it cannot touch `out`. */
  method DecodeWithoutContext(msg: string, out: ReportList) returns (outcome: Outcome)
    ensures outcome == Fail(UnsupportedOperation)
  {
    return Fail(UnsupportedOperation);
  }

  /** A line fails exactly when the grammar rejects it, its bin literal is unknown, or a
      context is present and the line has more centroids than the context's ceiling; the
      error names the cause. */
  lemma DecodeFailsExactlyWhen(msg: string, customerId: string, ctx: Option<IngesterContext>,
                               env: Collaborators)
    ensures var parsed := env.grammar(msg, env.defaultHostName, customerId, ctx);
      var r := DecodeLine(msg, customerId, ctx, env);
      && (parsed.NotHistogram? ==> r == Success(None))
      && (parsed.Malformed? ==> r == Failure(MalformedLine))
      && (parsed.Parsed? ==>
            && (r.Failure? <==>
                  || BinDuration(parsed.line.binType).Failure?
                  || (ctx.Some? && |parsed.line.counts| > ctx.value.histogramCentroidsLimit))
            && (BinDuration(parsed.line.binType).Failure? ==>
                  r == Failure(ParseError(parsed.line.binType)))
            && (BinDuration(parsed.line.binType).Success? && ctx.Some? &&
                |parsed.line.counts| > ctx.value.histogramCentroidsLimit ==>
                  r == Failure(TooManyCentroids(ctx.value.histogramCentroidsLimit)))
            && (r.Success? ==> r.value.Some?))
  {
  }

  /** A decoded record is a T-Digest of one of the three bin durations, carries the line's
      metric, host, customer and annotations, and its timestamp is the line's timestamp
      aligned to the bin with Java's truncating division: for a non-negative timestamp the
      start of the bin containing it, for a negative one the nearest multiple of the duration
      toward zero. */
  lemma DecodedRecordAligned(msg: string, customerId: string, ctx: Option<IngesterContext>,
                             env: Collaborators)
    requires DecodeLine(msg, customerId, ctx, env).Success?
    requires DecodeLine(msg, customerId, ctx, env).value.Some?
    ensures var parsed := env.grammar(msg, env.defaultHostName, customerId, ctx);
      var rec := DecodeLine(msg, customerId, ctx, env).value.value;
      && parsed.Parsed?
      && rec.kind == TDigest
      && BinDuration(parsed.line.binType) == Success(rec.duration)
      && IsBinDuration(rec.duration)
      && rec.metric == parsed.line.metric && rec.host == parsed.line.host
      && rec.customer == parsed.line.customer && rec.annotations == parsed.line.annotations
      && rec.timestamp == BinStart(parsed.line.timestamp, rec.duration)
      && rec.timestamp % rec.duration == 0
      && (parsed.line.timestamp >= 0 ==>
            0 <= rec.timestamp <= parsed.line.timestamp &&
            parsed.line.timestamp - rec.timestamp < rec.duration)
      && (parsed.line.timestamp < 0 ==>
            parsed.line.timestamp <= rec.timestamp <= 0 &&
            rec.timestamp - parsed.line.timestamp < rec.duration)
  {
    var line := env.grammar(msg, env.defaultHostName, customerId, ctx).line;
    var duration := BinDuration(line.binType).value;
    if line.timestamp >= 0 {
      BinStartOfNonNegative(line.timestamp, duration);
    } else {
      BinStartOfNegative(line.timestamp, duration);
    }
  }

  /** Without a context, or with one that does not ask for optimisation, the centroids pass
      through exactly as the grammar produced them. */
  lemma DecodeWithoutOptimisationKeepsCentroids(msg: string, customerId: string,
                                                ctx: Option<IngesterContext>, env: Collaborators)
    requires ctx.None? || !ctx.value.optimizeHistograms
    requires DecodeLine(msg, customerId, ctx, env).Success?
    requires DecodeLine(msg, customerId, ctx, env).value.Some?
    ensures var line := env.grammar(msg, env.defaultHostName, customerId, ctx).line;
      var rec := DecodeLine(msg, customerId, ctx, env).value.value;
      rec.bins == line.means && rec.counts == line.counts
  {
  }

  /** Without a context no ceiling applies: a line with a known bin literal always decodes. */
  lemma DecodeWithoutContextHasNoCeiling(msg: string, customerId: string, env: Collaborators)
    requires env.grammar(msg, env.defaultHostName, customerId, None).Parsed?
    requires BinDuration(env.grammar(msg, env.defaultHostName, customerId, None).line.binType).Success?
    ensures DecodeLine(msg, customerId, None, env).Success?
    ensures DecodeLine(msg, customerId, None, env).value.Some?
  {
  }

  /** With optimisation on and a digest that keeps its contract, a decoded record with
      centroids has strictly ascending means and counts of at least 1; when the line was
      already in storage form within the budget its centroids are kept unchanged. */
  lemma DecodeOptimisedIsOrdered(msg: string, customerId: string, ctx: Option<IngesterContext>,
                                 env: Collaborators)
    requires ctx.Some? && ctx.value.optimizeHistograms
    requires DigestSound(env.compress, ctx.value.targetHistogramAccuracy)
    requires DecodeLine(msg, customerId, ctx, env).Success?
    requires DecodeLine(msg, customerId, ctx, env).value.Some?
    ensures var line := env.grammar(msg, env.defaultHostName, customerId, ctx).line;
      var rec := DecodeLine(msg, customerId, ctx, env).value.value;
      && (|line.means| > 0 && |line.counts| > 0 ==>
            StrictlyAscending(rec.bins) && !HasBogusCount(rec.counts))
      && (!RewriteTriggered(line.means, line.counts, |line.counts|,
                            ctx.value.targetHistogramAccuracy, env.compressLimitRatio) ==>
            rec.bins == line.means && rec.counts == line.counts)
  {
    var line := env.grammar(msg, env.defaultHostName, customerId, ctx).line;
    var accuracy := ctx.value.targetHistogramAccuracy;
    if |line.means| > 0 && |line.counts| > 0 {
      OptimizedIsOrdered(line.means, line.counts, |line.counts|, accuracy,
                         env.compressLimitRatio, env.compress);
    }
    if !RewriteTriggered(line.means, line.counts, |line.counts|, accuracy, env.compressLimitRatio) {
      OptimizeLeavesCanonicalAlone(line.means, line.counts, |line.counts|, accuracy,
                                   env.compressLimitRatio, env.compress);
    }
  }
}
