/**
  Alignment of a report's timestamp to the start of its bin: the timestamp is divided by the
  bin duration with Java's long division, which truncates toward zero, and multiplied back.
*/
module BinTimestamp {
  import opened BinType

  const LongMin: int := -0x8000_0000_0000_0000
  const LongMax: int := 0x7fff_ffff_ffff_ffff

  /** Java's integer division for a positive divisor: the quotient is truncated toward zero
      (Dafny's own division rounds toward negative infinity for a negative dividend). */
  function JavaDiv(a: int, b: int): int
    requires b > 0
  {
    if a >= 0 then a / b else -((-a) / b)
  }

  /** The timestamp `t` aligned to a bin of `d` milliseconds, as `(t / d) * d` in Java. */
  function BinStart(t: int, d: int): int
    requires d > 0
  {
    JavaDiv(t, d) * d
  }

  /** For a non-negative timestamp the bin start is the largest multiple of `d` not above `t`. */
  lemma BinStartOfNonNegative(t: int, d: int)
    requires IsBinDuration(d) && t >= 0
    ensures BinStart(t, d) % d == 0
    ensures 0 <= BinStart(t, d) <= t
    ensures t - BinStart(t, d) < d
  {
    if d == MillisPerMinute {
      assert BinStart(t, d) == (t / 60000) * 60000;
    } else if d == MillisPerHour {
      assert BinStart(t, d) == (t / 3600000) * 3600000;
    } else {
      assert BinStart(t, d) == (t / 86400000) * 86400000;
    }
  }

  /** Truncation toward zero rounds a negative timestamp up: the result is the smallest
      multiple of `d` not below `t`, not the start of the bin that contains `t`. */
  lemma BinStartOfNegative(t: int, d: int)
    requires IsBinDuration(d) && t < 0
    ensures BinStart(t, d) % d == 0
    ensures t <= BinStart(t, d) <= 0
    ensures BinStart(t, d) - t < d
  {
    var u := -t;
    var q := u / d;
    assert u - d < q * d <= u;
    assert BinStart(t, d) == (-q) * d;
    if d == MillisPerMinute {
      assert BinStart(t, d) == (-q) * 60000;
    } else if d == MillisPerHour {
      assert BinStart(t, d) == (-q) * 3600000;
    } else {
      assert BinStart(t, d) == (-q) * 86400000;
    }
  }

  /** Aligning an aligned timestamp again changes nothing. */
  lemma BinStartIdempotent(t: int, d: int)
    requires IsBinDuration(d)
    ensures BinStart(BinStart(t, d), d) == BinStart(t, d)
  {
    var q := JavaDiv(t, d);
    if d == MillisPerMinute {
      assert BinStart(t, d) == q * 60000;
    } else if d == MillisPerHour {
      assert BinStart(t, d) == q * 3600000;
    } else {
      assert BinStart(t, d) == q * 86400000;
    }
  }

  /** The multiplication cannot overflow a long: the result is no farther from zero than `t`. */
  lemma BinStartInLongRange(t: int, d: int)
    requires IsBinDuration(d) && LongMin <= t <= LongMax
    ensures LongMin <= BinStart(t, d) <= LongMax
  {
    if t >= 0 {
      BinStartOfNonNegative(t, d);
    } else {
      BinStartOfNegative(t, d);
    }
  }
}
