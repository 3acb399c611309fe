/** Bits<N>: a byte buffer read and written bit by bit, in place. */
module BitBuffer {
  function Mask(k: int): bv8
    requires 0 <= k < 8
  {
    if k == 0 then 1 else if k == 1 then 2 else if k == 2 then 4 else if k == 3 then 8
    else if k == 4 then 16 else if k == 5 then 32 else if k == 6 then 64 else 128
  }

  predicate BitAt(c: bv8, k: int)
    requires 0 <= k < 8
  {
    c & Mask(k) != 0
  }

  function Set(c: bv8, k: int, on: bool): bv8
    requires 0 <= k < 8
  {
    (c & !Mask(k)) | if on then Mask(k) else 0
  }

  /** Setting a bit of a byte sets that bit and no other. */
  lemma SetOneBit(c: bv8, k: int, on: bool, j: int)
    requires 0 <= k < 8 && 0 <= j < 8
    ensures BitAt(Set(c, k, on), j) == if j == k then on else BitAt(c, j)
  {
    MasksApart(k, j);
    SetUnder(c, Mask(k), on, Mask(j));
  }

  lemma MasksApart(k: int, j: int)
    requires 0 <= k < 8 && 0 <= j < 8
    ensures Mask(k) != 0 && (if j == k then Mask(k) == Mask(j) else Mask(k) & Mask(j) == 0)
  {
  }

  lemma SetUnder(c: bv8, m: bv8, on: bool, n: bv8)
    requires m != 0 && (m == n || m & n == 0)
    ensures (((c & !m) | if on then m else 0) & n != 0) == if m == n then on else c & n != 0
  {
  }

  /** Two bits of one byte or of two, or'ed: one bit or the other. */
  lemma OrOneBit(a: bv8, b: bv8, k: int)
    requires 0 <= k < 8
    ensures BitAt(a | b, k) == (BitAt(a, k) || BitAt(b, k))
  {
  }

  class Bits {
    const data: array<bv8>

    constructor (bytes: nat)
      ensures fresh(data) && data.Length == bytes && forall n | 0 <= n < 8 * bytes :: !Read(n)
    {
      data := new bv8[bytes](_ => 0);
    }

    predicate Read(n: int)
      requires 0 <= n < 8 * data.Length
      reads this, data
    {
      BitAt(data[n / 8], n % 8)
    }

    method Write(n: int, on: bool)
      requires 0 <= n < 8 * data.Length
      modifies data
      ensures forall m | 0 <= m < 8 * data.Length :: Read(m) == if m == n then on else old(Read(m))
    {
      data[n / 8] := Set(data[n / 8], n % 8, on);
      forall m | 0 <= m < 8 * data.Length ensures Read(m) == if m == n then on else old(Read(m)) {
        SetOneBit(old(data[n / 8]), n % 8, on, m % 8);
      }
    }

    method Clear()
      modifies data
      ensures forall m | 0 <= m < 8 * data.Length :: !Read(m)
    {
      forall i | 0 <= i < data.Length { data[i] := 0; }
    }

    /** operator|=. */
    method Or(b: Bits)
      requires b.data.Length == data.Length
      modifies data
      ensures forall m | 0 <= m < 8 * data.Length :: Read(m) == (old(Read(m)) || old(b.Read(m)))
    {
      for i := 0 to data.Length
        invariant forall j | 0 <= j < i :: data[j] == old(data[j]) | old(b.data[j])
        invariant forall j | i <= j < data.Length :: data[j] == old(data[j]) && b.data[j] == old(b.data[j])
      {
        data[i] := data[i] | b.data[i];
      }
      forall m | 0 <= m < 8 * data.Length ensures Read(m) == (old(Read(m)) || old(b.Read(m))) {
        OrOneBit(old(data[m / 8]), old(b.data[m / 8]), m % 8);
      }
    }
  }
}
