/** Keeping a reported position inside the media. Lengths and positions are
    unsigned 64-bit milliseconds; a length of zero means "unknown". */
module Positions {
  import opened EchoTypes

  /** The position is past the end, or within its last second. */
  predicate Exceeds(length: UInt64, position: UInt64) {
    || (length >= 1000 && position >= length - 1000)
    || (length < 1000 && length != 0)
  }

  function Clamp(length: UInt64, position: UInt64): UInt64 {
    if Exceeds(length, position) then length else position
  }

  /** What a reported position promises a reader: the length is unknown, or the
      report is exactly the end, or at least a second is still to come. The sum
      is taken over the integers, where it cannot wrap. */
  predicate Reportable(length: UInt64, position: UInt64) {
    length == 0 || position == length || position as int + 1000 < length as int
  }

  /** A play at this position has at least a second of known media before it. */
  predicate Playable(length: UInt64, position: UInt64) {
    length == 0 || position as int + 1000 < length as int
  }

  /** The unsigned test, written to avoid a subtraction below zero, is the
      integer comparison it stands for. */
  lemma ExceedsMeaning(length: UInt64, position: UInt64)
    ensures Exceeds(length, position) <==> !Playable(length, position)
  {
    if length >= 1000 {
      assert (length - 1000) as int == length as int - 1000;
    }
  }

  /** Clamping yields a reportable position, changes nothing that already was one,
      is idempotent, never moves a position past a known end, and keeps order. */
  lemma ClampLaws(length: UInt64, p: UInt64, q: UInt64)
    ensures Reportable(length, Clamp(length, p))
    ensures Reportable(length, p) <==> Clamp(length, p) == p
    ensures Clamp(length, Clamp(length, p)) == Clamp(length, p)
    ensures length != 0 ==> Clamp(length, p) <= length
    ensures p <= q ==> Clamp(length, p) <= Clamp(length, q)
  {
    ExceedsMeaning(length, p);
    ExceedsMeaning(length, q);
    ExceedsMeaning(length, length);
  }

  lemma ClampMeaning(length: UInt64, position: UInt64)
    ensures Clamp(length, position) == if Reportable(length, position) then position else length
  {
    ClampLaws(length, position, position);
  }

  // ---- timestamps ------------------------------------------------------------

  /** Seconds whose milliseconds, cut towards zero, are an unsigned 64-bit number. */
  predicate FitsMillis(seconds: real) {
    -1.0 < seconds * 1000.0 < 0x1_0000_0000_0000_0000 as real
  }

  function Millis(seconds: real): (n: UInt64)
    requires FitsMillis(seconds)
    ensures seconds >= 0.0 ==> n as real <= seconds * 1000.0 < n as real + 1.0
    ensures seconds < 0.0 ==> n == 0
  {
    if seconds < 0.0 then 0 else (seconds * 1000.0).Floor as UInt64
  }
}
