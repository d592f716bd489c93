/** The timestamp and millisecond offset stamped on every record, computed from the wall clock
    (milliseconds since the Unix epoch, a Java `long`). */
module Clock {
  import opened JavaTypes

  const MILLIS_PER_SECOND := 1000

  /** The seconds field as the source computes it: the cast `(int)` applies to the millisecond
      count before the division, so the clock is cut to 32 bits first. */
  function TruncatedSeconds(millis: Int64): Int32
  {
    Quot(ToInt32(millis), MILLIS_PER_SECOND)
  }

  /** The seconds field as evidently intended: whole seconds since the epoch, cast to `int`. */
  function EpochSeconds(millis: Int64): Int32
  {
    ToInt32(Quot(millis, MILLIS_PER_SECOND))
  }

  /** The offset field, `(short) (millis % 1000)`: the milliseconds past the second. */
  function MillisOffset(millis: Int64): (r: Int16)
    ensures millis >= 0 ==> 0 <= r < MILLIS_PER_SECOND
    ensures millis < 0 ==> -MILLIS_PER_SECOND < r <= 0
  {
    ToInt16(Rem(millis, MILLIS_PER_SECOND))
  }

  /** Until 2038 the corrected seconds field and the offset, taken from the same clock reading,
      give that reading back exactly. */
  lemma EpochSecondsRecombine(millis: Int64)
    requires 0 <= millis < 0x8000_0000 * MILLIS_PER_SECOND
    ensures EpochSeconds(millis) as int * MILLIS_PER_SECOND + MillisOffset(millis) as int == millis
    ensures EpochSeconds(millis) == millis / MILLIS_PER_SECOND
  {
    var q := Quot(millis, MILLIS_PER_SECOND);
    assert q * MILLIS_PER_SECOND <= millis;
    assert q < 0x8000_0000;
  }

  /** As written, the seconds field can never exceed 2147483 in magnitude: no instant later than
      25 days after the epoch can be represented. */
  lemma TruncatedSecondsBounded(millis: Int64)
    ensures -2147483 <= TruncatedSeconds(millis) <= 2147483
  {
    var m := ToInt32(millis);
    var q := Quot(m, MILLIS_PER_SECOND);
    if m >= 0 {
      assert q * 1000 <= m < 0x8000_0000;
    } else {
      assert q * 1000 - 1000 < m;
    }
  }

  /** The instant 1500000000000 ms (14 July 2017) is stamped as second 1056413 instead of
      second 1500000000. */
  lemma TruncatedSecondsExample()
    ensures TruncatedSeconds(1_500_000_000_000) == 1_056_413
    ensures EpochSeconds(1_500_000_000_000) == 1_500_000_000
  {
    assert ToInt32(1_500_000_000_000) == 1_056_413_696;
  }
}
