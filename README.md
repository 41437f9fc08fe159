# Histogram line decoder — verified Dafny model

This project models the decoder that turns one histogram line of the Wavefront ingestion
format into a histogram report. A line has the form

    [BinType] [Timestamp] [Centroids] [Metric] [Annotations]

The model covers the decoder's own logic:

- **Bin-type resolution** (`BinType`). The literals `!M`, `!H` and `!D` select a bin of one
  minute, one hour or one day (60000, 3600000 and 86400000 ms). The report's value becomes an
  empty T-Digest of that duration. Any other literal is a parse error.
- **Timestamp alignment** (`BinTimestamp`). The timestamp is aligned with `(t / d) * d`, using
  Java's long division, which truncates toward zero.
- **Storage optimisation** (`CentroidNormalizer`). The parallel lists of means and counts are
  rewritten through a T-Digest when one of three things holds:
  - there are more centroids than the oversize ratio times the target accuracy;
  - some count is below 1;
  - the means are not strictly ascending.

  A rewrite feeds the digest the pairs of positive count, up to the shorter list and in index
  order. It then replaces both lists wholesale with the digest's centroids.
- **Decoding** (`ReportHistogramDecoder`). The decoder runs the steps in this order:
  1. Run the line grammar. A non-histogram line is skipped.
  2. Resolve the bin type. In the source the grammar calls `setBinType` as a callback on the
     line's first token, while it is still parsing. The model calls it as soon as the complete
     parse is back.
  3. If there is an ingestion context, enforce its centroid ceiling and, when it asks for
     optimisation, run it.
  4. Align the timestamp.
  5. Append a frozen copy of the report to the caller's list.

  Emission is the last step, so a line that fails appends nothing.

The model keeps the source's imperative shape, and each mutating method is proved against a
pure function of the old state:

- `Histogram` is a class whose `bins` and `counts` fields `Rewrite` and `OptimizeForStorage`
  reassign in place. They are proved against `Rewritten` and `Optimized`.
- `ReportHistogram` is the report under construction. `SetBinType` gives it its value.
- `ReportList` is the caller's output list. `Decode` appends to it, and is proved against
  `DecodeLine`.
- `StrictlyIncreasingLength` is the ordering scan, written as a loop.

The two collaborators are parameters:

- **The line grammar** is a function from the message, the default host name, the customer
  id and the optional ingestion context to `NotHistogram`, `Malformed` or the parsed fields.
- **The digest** is a `Digest` object that records the pairs added to it. A function
  `compress(accuracy, added)` stands for compressing the digest and listing its centroids.
  The digest's contract is the predicate `DigestSound`: an empty digest has no centroids, and
  every digest's centroids are strictly ascending with counts of at least 1. Only the lemmas
  that need this contract require it.

Behaviour of the code worth noting:

- The timestamp is divided with Java's division, which truncates toward zero. A negative
  timestamp is therefore rounded up, not down (`BinStartOfNegative`).
- With a context present, the centroid ceiling is always enforced. Only the optimisation
  depends on the context's flag.
- The oversize test uses the size of the counts list. The bogus-count test reads the whole
  counts list and the ordering scan reads the whole means list, even when their lengths
  differ. Only the rewrite stops at the shorter list.
- The oversize rewrite is not exclusive. The count and order checks run again on the
  rewritten lists. Because the ordering scan starts at index 1, it always calls an empty list
  unordered. So an oversize rewrite that leaves no centroids is followed by a second rewrite
  of the empty lists. Under the digest contract that second rewrite changes nothing
  (`OptimizePolicy`).

## Model

| member | source | states |
|---|---|---|
| `BinType.BinDuration` | java-lib/src/main/java/com/wavefront/ingester/ReportHistogramDecoder.java:84-96 | `!M`, `!H` and `!D` give 60000, 3600000 and 86400000 ms. Every other literal fails with a parse error naming it. Every duration is positive and fits the `int` cast. |
| `BinType.BinLiteralRoundTrip` | java-lib/src/main/java/com/wavefront/ingester/ReportHistogramDecoder.java:84-96 | An added sanity property, not a promise of the source: a recognised literal can be recovered from its duration, so no two of the three literals share a bin. |
| `BinType.SetBinType` | java-lib/src/main/java/com/wavefront/ingester/ReportHistogramDecoder.java:82-101 | It fails exactly on an unknown literal, and then leaves the target's value as it was. On success the target gets a fresh, empty T-Digest value of the literal's duration. |
| `BinTimestamp.BinStartOfNonNegative` | java-lib/src/main/java/com/wavefront/ingester/ReportHistogramDecoder.java:71-72 | For `t >= 0`, `(t / d) * d` is a multiple of `d`, lies in `[0, t]`, and is less than `d` below `t`. |
| `BinTimestamp.BinStartOfNegative` | java-lib/src/main/java/com/wavefront/ingester/ReportHistogramDecoder.java:71-72 | For `t < 0`, Java's truncating division gives a multiple of `d` in `[t, 0]` that is less than `d` above `t`, so the timestamp is rounded up. |
| `BinTimestamp.BinStartIdempotent` | java-lib/src/main/java/com/wavefront/ingester/ReportHistogramDecoder.java:71-72 | Aligning an aligned timestamp again leaves it unchanged. |
| `BinTimestamp.BinStartInLongRange` | java-lib/src/main/java/com/wavefront/ingester/ReportHistogramDecoder.java:71-72 | The long multiplication cannot overflow: a timestamp in the long range aligns to a value in the long range. |
| `CentroidNormalizer.PositiveIndicesExactly` | java-lib/src/main/java/com/wavefront/ingester/ReportHistogramDecoder.java:143-149 | The indices the rewrite loop keeps are exactly those below the bound with positive count, in strictly increasing order. |
| `CentroidNormalizer.FedAtPositiveIndices` | java-lib/src/main/java/com/wavefront/ingester/ReportHistogramDecoder.java:143-149 | The k-th pair handed to the digest is `(means[i], counts[i])` for the k-th kept index `i`. The digest receives those pairs, in index order, and nothing else. |
| `CentroidNormalizer.FedCountsPositive` | java-lib/src/main/java/com/wavefront/ingester/ReportHistogramDecoder.java:145-148 | Every pair handed to the digest has a positive count. Pairs with a non-positive count are dropped, not clamped. |
| `CentroidNormalizer.FedWeight` | java-lib/src/main/java/com/wavefront/ingester/ReportHistogramDecoder.java:143-149 | The total count handed to the digest equals the sum of the positive counts up to the shorter list. |
| `CentroidNormalizer.Rewrite` | java-lib/src/main/java/com/wavefront/ingester/ReportHistogramDecoder.java:141-158 | Afterwards the two lists are the means and the counts of the digest's centroids. That digest has the given accuracy and was fed the positive-count pairs in order. None of the old content is kept. |
| `CentroidNormalizer.RewrittenIsCanonical` | java-lib/src/main/java/com/wavefront/ingester/ReportHistogramDecoder.java:150-157 | Under the digest contract, a rewrite leaves two lists of equal length with strictly ascending means and counts of at least 1. |
| `CentroidNormalizer.StrictlyIncreasingLength` | java-lib/src/main/java/com/wavefront/ingester/ReportHistogramDecoder.java:123-128 | The scan stops at the first `n` with `means[n-1] >= means[n]`, and every earlier pair ascends. It is 1 for an empty list. It returns the list's length exactly when the list is non-empty and strictly ascending. |
| `CentroidNormalizer.OptimizeForStorage` | java-lib/src/main/java/com/wavefront/ingester/ReportHistogramDecoder.java:109-133 | The new lists are those of `Optimized`: no change for empty input, an oversize rewrite first, then one more rewrite if the resulting lists have a bogus count or are not strictly ascending. |
| `CentroidNormalizer.OptimizeLeavesCanonicalAlone` | java-lib/src/main/java/com/wavefront/ingester/ReportHistogramDecoder.java:112-132 | Empty lists are left exactly as they are. So are lists that are within the budget, have all counts at least 1 and strictly ascending means, whatever the digest does. |
| `CentroidNormalizer.OptimizeWithinBudget` | java-lib/src/main/java/com/wavefront/ingester/ReportHistogramDecoder.java:120-131 | Within the budget, whatever the digest does, exactly one rewrite happens when some count is below 1 or the means are out of order, and none otherwise. |
| `CentroidNormalizer.OptimizePolicy` | java-lib/src/main/java/com/wavefront/ingester/ReportHistogramDecoder.java:116-131 | Under the digest contract, the sequential checks amount to the declared policy. The result is one rewrite of the original lists exactly when the lists are oversize, have a count below 1, or are not strictly ascending. Otherwise the input is returned. |
| `CentroidNormalizer.OptimizedIsOrdered` | java-lib/src/main/java/com/wavefront/ingester/ReportHistogramDecoder.java:116-131 | Under the digest contract, optimised non-empty lists always have strictly ascending means and counts of at least 1. |
| `ReportHistogramDecoder.Decode` | java-lib/src/main/java/com/wavefront/ingester/ReportHistogramDecoder.java:55-75 | The outcome is that of `DecodeLine`. The output list is the old list plus the decoded record when there is one, and exactly the old list when the line is skipped or fails. |
| `ReportHistogramDecoder.DecodeWithoutContext` | java-lib/src/main/java/com/wavefront/ingester/ReportHistogramDecoder.java:77-80 | It always fails with an unsupported-operation error. It has no modifies clause, so it cannot change the output list. |
| `ReportHistogramDecoder.DecodeFailsExactlyWhen` | java-lib/src/main/java/com/wavefront/ingester/ReportHistogramDecoder.java:57-64 | A non-histogram line gives no record and no error. A line fails exactly when the grammar rejects it, its bin literal is unknown, or a context is present and the line has more centroids than the ceiling. Each failure carries its cause, and the too-many-centroids error carries the ceiling. |
| `ReportHistogramDecoder.DecodedRecordAligned` | java-lib/src/main/java/com/wavefront/ingester/ReportHistogramDecoder.java:70-73 | A decoded record is a T-Digest whose duration is the one its literal selects. It keeps the line's metric, host, customer and annotations. Its timestamp is `(t / d) * d` with Java's truncating division, a multiple of the duration. For a non-negative timestamp it is the start of the bin containing it. For a negative one it is the nearest multiple toward zero, at most one duration above `t`. |
| `ReportHistogramDecoder.DecodeWithoutOptimisationKeepsCentroids` | java-lib/src/main/java/com/wavefront/ingester/ReportHistogramDecoder.java:60-69 | With no context, or with optimisation off, the record's centroids are exactly the grammar's. |
| `ReportHistogramDecoder.DecodeWithoutContextHasNoCeiling` | java-lib/src/main/java/com/wavefront/ingester/ReportHistogramDecoder.java:60-64 | With no context, a parsed line with a known literal always decodes to a record, however many centroids it has. |
| `ReportHistogramDecoder.DecodeOptimisedIsOrdered` | java-lib/src/main/java/com/wavefront/ingester/ReportHistogramDecoder.java:65-68 | With optimisation on and a digest that keeps its contract, the centroids of a record built from non-empty lists are ordered and positive. A line already in storage form within the budget keeps its centroids unchanged. |

## Left out

- The line grammar and its builder (bin-literal list, optional timestamp, centroids, text,
  annotation list) are an external collaborator. They are a parameter of the model returning
  `NotHistogram`, `Malformed` or the parsed fields. The timestamp default for a line without
  one belongs to the grammar.
- Bin-type resolution runs after the whole parse, not as a callback during it. So for a line
  that has an unknown bin literal and is also malformed further on, the model reports the
  malformed line, while the source may report whichever failure its grammar meets first.
- The T-Digest's merge, compression and accuracy bound are not modelled. So weight
  conservation through the digest, and the total count of a rewritten list, are not proved.
  Only the weight handed to the digest is proved (`FedWeight`).
- Means are `real`: floating-point rounding and NaN comparisons are not modelled. The source
  only compares means with `>=`.
- The oversize ratio is a constant of the ingestion context whose value is not part of this
  model. It is a parameter, and the test `size > ratio * accuracy` is evaluated in reals.
- Null means or counts lists are not modelled. The decoder reads the size of the counts list
  first, and the optimisation treats a null list like an empty one (no change).
- The default-host supplier is reduced to the value it yields. The three constructors,
  exception messages, and the builder copy made on emission (modelled as a snapshot value)
  are plumbing.
- `DecodeWithoutContext`: that it leaves the output list alone follows from its empty
  modifies clause, not from an ensures clause.
- `BinTimestamp.BinStartOfNonNegative`, `BinTimestamp.BinStartOfNegative`,
  `BinTimestamp.BinStartIdempotent`, `BinTimestamp.BinStartInLongRange`: these are stated for
  the three bin durations only, the only divisors the decoder can use, rather than for every
  positive divisor.
