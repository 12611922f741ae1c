/** Times in microseconds with the two infinities; rates in bits per second; sizes in bytes. */
module Units {

  const MICROS_PER_SECOND := 1_000_000

  datatype Timestamp = MinusInfinity | At(us: int) | PlusInfinity {
    predicate IsInfinite() {
      !At?
    }

    /** The order of times: minus infinity first, plus infinity last. */
    predicate LessThan(other: Timestamp) {
      match this
      case MinusInfinity => other != MinusInfinity
      case At(us) => other.PlusInfinity? || (other.At? && us < other.us)
      case PlusInfinity => false
    }

    predicate AtMost(other: Timestamp) {
      this == other || LessThan(other)
    }
  }

  /** Time to send `bytes` at `bps`, rounded down to a microsecond. */
  function SendTime(bytes: nat, bps: int): nat
    requires bps > 0
  {
    bytes * 8 * MICROS_PER_SECOND / bps
  }

  /** Bytes sent in `us` microseconds at `bps`, rounded down. */
  function BytesDuring(bps: nat, us: nat): nat {
    ScaledNonNegative(bps, us);
    bps * us / (8 * MICROS_PER_SECOND)
  }

  /** The rate that sends `bytes` in `us` microseconds, rounded down. */
  function RateFor(bytes: nat, us: int): nat
    requires us > 0
  {
    bytes * 8 * MICROS_PER_SECOND / us
  }

  /** The rate sends the bytes in the time, and a bit per second more would send more. */
  lemma RateForMeans(bytes: nat, us: int)
    requires us > 0
    ensures RateFor(bytes, us) * us <= bytes * 8 * MICROS_PER_SECOND < (RateFor(bytes, us) + 1) * us
  {
  }

  /** In the time the rate sends no more than the bytes, and a microsecond later it sent more. */
  lemma SendTimeMeans(bytes: nat, bps: int)
    requires bps > 0
    ensures SendTime(bytes, bps) * bps <= bytes * 8 * MICROS_PER_SECOND < (SendTime(bytes, bps) + 1) * bps
  {
  }

  /** The bytes are sent within the time at the rate, and one more would not be. */
  lemma BytesDuringMeans(bps: nat, us: nat)
    ensures BytesDuring(bps, us) * 8 * MICROS_PER_SECOND <= bps * us < (BytesDuring(bps, us) + 1) * 8 * MICROS_PER_SECOND
  {
    ScaledNonNegative(bps, us);
  }

  lemma ScaledNonNegative(a: nat, b: nat)
    ensures a * b >= 0
  {
  }
}
