/** Machine words as sequences of bits, lowest bit first. */
module Bits {
  type Bitmap = seq<bool>

  function TrailingOnes(b: Bitmap): (n: nat)
    ensures n <= |b| && (n < |b| ==> !b[n])
    ensures forall i :: 0 <= i < n ==> b[i]
  {
    if b == [] || !b[0] then 0 else 1 + TrailingOnes(b[1..])
  }

  function TrailingZeros(b: Bitmap): (n: nat)
    ensures n <= |b| && (n < |b| ==> b[n])
    ensures forall i :: 0 <= i < n ==> !b[i]
  {
    if b == [] || b[0] then 0 else 1 + TrailingZeros(b[1..])
  }

  function CountOnes(b: Bitmap): (n: nat)
    ensures n <= |b|
  {
    if b == [] then 0 else CountOnes(b[..|b| - 1]) + if b[|b| - 1] then 1 else 0
  }

  function Not(b: Bitmap): (r: Bitmap)
    ensures |r| == |b| && forall i :: 0 <= i < |b| ==> r[i] == !b[i]
  {
    seq(|b|, i requires 0 <= i < |b| => !b[i])
  }

  function And(a: Bitmap, b: Bitmap): (r: Bitmap)
    requires |a| == |b|
    ensures |r| == |b| && forall i :: 0 <= i < |b| ==> r[i] == (a[i] && b[i])
  {
    seq(|b|, i requires 0 <= i < |b| => a[i] && b[i])
  }

  function Zeros(n: nat): (r: Bitmap)
    ensures |r| == n && forall i :: 0 <= i < n ==> !r[i]
  {
    seq(n, _ => false)
  }

  /** Without its lowest `n` bits. */
  function DropLow(b: Bitmap, n: nat): (r: Bitmap)
    ensures |r| == |b| && forall i :: 0 <= i < |b| ==> r[i] == (i >= n && b[i])
  {
    seq(|b|, i requires 0 <= i < |b| => i >= n && b[i])
  }

  /** `wrapping_shr`: the shift amount is taken modulo the width. */
  function WrappingShr(b: Bitmap, shift: nat): (r: Bitmap)
    requires b != []
    ensures |r| == |b|
    ensures forall i :: 0 <= i < |b| ==> r[i] == (i + shift % |b| < |b| && b[i + shift % |b|])
  {
    b[shift % |b|..] + Zeros(shift % |b|)
  }
}
