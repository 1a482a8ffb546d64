/**
 * Byte buffers shared by the upload probe of the speed-test hook and the
 * download branch of the speed-test route: a `Uint8Array` of a fixed size
 * in which only every `step`-th byte is written with noise and every other
 * byte keeps the zero it was created with.
 */
module Bytes {

  /** One element of a `Uint8Array`. */
  type byte = x: int | 0 <= x < 256

  /** A value returned by `Math.random()`: a number in [0, 1). */
  type Random = r: real | 0.0 <= r < 1.0

  /**
   * ECMAScript ToUint8 for a finite, non-negative number: truncate toward
   * zero, then reduce modulo 2^8. This is what storing a number into a
   * `Uint8Array` element does.
   */
  function ToUint8(x: real): (b: byte)
    requires x >= 0.0
    ensures x < 256.0 ==> b as real <= x < b as real + 1.0
  {
    x.Floor % 256
  }

  /** How many indices `0, step, 2*step, ...` lie below `size`: the writes a `for (i = 0; i < size; i += step)` loop makes. */
  function Writes(size: nat, step: nat): (n: nat)
    requires step > 0
    ensures forall i :: 0 <= i < size && i % step == 0 ==> i / step < n
    ensures n > 0 ==> (n - 1) * step < size
  {
    (size + step - 1) / step
  }

  /**
   * The contents of a buffer of `size` bytes, created zero-filled, in which
   * the loop wrote `values[k]` at index `k * step` for every `k`.
   */
  function Sparse(size: nat, step: nat, values: seq<byte>): (s: seq<byte>)
    requires step > 0 && |values| == Writes(size, step)
    ensures |s| == size
    ensures forall i :: 0 <= i < size && i % step != 0 ==> s[i] == 0
    ensures forall k :: 0 <= k < |values| ==> s[k * step] == values[k]
  {
    WritesLandOnSteps(size, step);
    seq(size, i requires 0 <= i < size => if i % step == 0 then values[i / step] else 0)
  }

  /** The k-th of `Writes(size, step)` writes lands inside the buffer, on a multiple of `step` whose quotient is k. */
  lemma WritesLandOnSteps(size: nat, step: nat)
    requires step > 0
    ensures forall k :: 0 <= k < Writes(size, step) ==>
      k * step < size && (k * step) % step == 0 && (k * step) / step == k
  {
    var n := Writes(size, step);
    forall k | 0 <= k < n ensures k * step < size && (k * step) % step == 0 && (k * step) / step == k {
      WrittenIndex(k, step, n);
    }
  }

  /** A positive factor `a` scales `b` to at least `b`; a negative one to at most `-b`. */
  lemma ProductSign(a: int, b: int)
    requires b >= 0
    ensures a >= 1 ==> a * b >= b
    ensures a <= -1 ==> a * b <= -b
    ensures a >= 0 ==> a * b >= 0
  {
  }

  /** The k-th write of a stepping loop lands on a multiple of `step`, no further than the last write. */
  lemma WrittenIndex(k: nat, step: nat, n: nat)
    requires step > 0 && k < n
    ensures k * step <= (n - 1) * step
    ensures (k * step) % step == 0 && (k * step) / step == k
  {
    var q, r := (k * step) / step, (k * step) % step;
    assert k * step == q * step + r && 0 <= r < step;
    assert (k - q) * step == r;
    ProductSign(k - q, step);
    ProductSign(n - 1 - k, step);
  }
}
