/** Byte strings as the source's `ethers.utils` helpers handle them: a hex
    string `0x…` is a sequence of bytes (`0x` is the empty sequence), and a
    quantity is written big-endian. */
module HexBytes {
  import opened Common

  newtype uint8 = x: int | 0 <= x < 256

  /** 256^n: the number of values that fit in n bytes. */
  function Pow256(n: nat): (p: nat)
    ensures p >= 1
  {
    if n == 0 then 1 else 256 * Pow256(n - 1)
  }

  /** `n` can be written in `len` bytes: dropping one low byte per byte of
      room leaves nothing. */
  predicate FitsIn(n: nat, len: nat) {
    if len == 0 then n == 0 else FitsIn(n / 256, len - 1)
  }

  /** `FitsIn` is the bound `n < 256^len`. */
  lemma {:induction false} FitsInBound(n: nat, len: nat)
    ensures FitsIn(n, len) <==> n < Pow256(len)
  {
    if len > 0 {
      FitsInBound(n / 256, len - 1);
    }
  }

  /** Room for a quantity in `a` bytes is room for it in any `b >= a` bytes. */
  lemma FitsInMonotone(n: nat, a: nat, b: nat)
    requires a <= b && FitsIn(n, a)
    ensures FitsIn(n, b)
  {
    FitsInBound(n, a);
    FitsInBound(n, b);
    Pow256Monotone(a, b);
  }

  lemma {:induction false} Pow256Monotone(a: nat, b: nat)
    requires a <= b
    ensures Pow256(a) <= Pow256(b)
  {
    if a < b {
      Pow256Monotone(a, b - 1);
    }
  }

  /** 256^16 = 2^128, the bound of a 16-byte field. */
  lemma Pow256Sixteen()
    ensures Pow256(16) == 0x1_0000_0000_0000_0000_0000_0000_0000_0000
  {
    assert Pow256(1) == 0x100;
    assert Pow256(2) == 0x1_0000;
    assert Pow256(3) == 0x100_0000;
    assert Pow256(4) == 0x1_0000_0000;
    assert Pow256(5) == 0x100_0000_0000;
    assert Pow256(6) == 0x1_0000_0000_0000;
    assert Pow256(7) == 0x100_0000_0000_0000;
    assert Pow256(8) == 0x1_0000_0000_0000_0000;
    assert Pow256(9) == 0x100_0000_0000_0000_0000;
    assert Pow256(10) == 0x1_0000_0000_0000_0000_0000;
    assert Pow256(11) == 0x100_0000_0000_0000_0000_0000;
    assert Pow256(12) == 0x1_0000_0000_0000_0000_0000_0000;
    assert Pow256(13) == 0x100_0000_0000_0000_0000_0000_0000;
    assert Pow256(14) == 0x1_0000_0000_0000_0000_0000_0000_0000;
    assert Pow256(15) == 0x100_0000_0000_0000_0000_0000_0000_0000;
  }

  /** A 16-byte field holds exactly the unsigned 128-bit quantities. */
  lemma Uint128Field(n: nat)
    ensures FitsIn(n, 16) <==> n < 0x1_0000_0000_0000_0000_0000_0000_0000_0000
  {
    FitsInBound(n, 16);
    Pow256Sixteen();
  }

  /** The quantity a big-endian byte string denotes. */
  function ToNat(s: seq<uint8>): nat {
    if |s| == 0 then 0 else ToNat(s[..|s| - 1]) * 256 + s[|s| - 1] as nat
  }

  /** The `len`-byte big-endian encoding of `n`. */
  function FromNat(n: nat, len: nat): (s: seq<uint8>)
    requires FitsIn(n, len)
    ensures |s| == len && ToNat(s) == n
  {
    if len == 0 then []
    else
      var s := FromNat(n / 256, len - 1) + [(n % 256) as uint8];
      assert s[..len - 1] == FromNat(n / 256, len - 1);
      s
  }

  /** A string of `len` bytes denotes a quantity that fits in `len` bytes. */
  lemma {:induction false} ToNatBound(s: seq<uint8>)
    ensures FitsIn(ToNat(s), |s|)
  {
    if |s| > 0 {
      ToNatBound(s[..|s| - 1]);
      assert ToNat(s) / 256 == ToNat(s[..|s| - 1]);
    }
  }

  lemma ShiftStep(h: nat, p: nat, t: nat, last: nat)
    ensures (h * p + t) * 256 + last == h * (256 * p) + (t * 256 + last)
  {
    calc {
      (h * p + t) * 256 + last;
      h * p * 256 + t * 256 + last;
      h * (256 * p) + (t * 256 + last);
    }
  }

  lemma ToNatSnoc(s: seq<uint8>)
    requires |s| > 0
    ensures ToNat(s) == ToNat(s[..|s| - 1]) * 256 + s[|s| - 1] as nat
  {
  }

  /** hexConcat: the value of a concatenation is the high part shifted
      past the low part. */
  lemma {:induction false} ToNatConcat(hi: seq<uint8>, lo: seq<uint8>)
    ensures ToNat(hi + lo) == ToNat(hi) * Pow256(|lo|) + ToNat(lo)
  {
    if |lo| > 0 {
      var s, init := hi + lo, lo[..|lo| - 1];
      assert s[..|s| - 1] == hi + init;
      assert s[|s| - 1] == lo[|lo| - 1];
      ToNatSnoc(s);
      ToNatSnoc(lo);
      ToNatConcat(hi, init);
      ShiftStep(ToNat(hi), Pow256(|init|), ToNat(init), lo[|lo| - 1] as nat);
    } else {
      assert hi + lo == hi;
    }
  }

  /** Two byte strings of one length that denote the same quantity are equal. */
  lemma {:induction false} ToNatInjective(a: seq<uint8>, b: seq<uint8>)
    requires |a| == |b| && ToNat(a) == ToNat(b)
    ensures a == b
  {
    if |a| > 0 {
      var n := |a| - 1;
      assert a[n] == b[n] && ToNat(a[..n]) == ToNat(b[..n]);
      ToNatInjective(a[..n], b[..n]);
      assert a == a[..n] + [a[n]] && b == b[..n] + [b[n]];
    }
  }

  /** Decoding then re-encoding at the same width gives the bytes back. */
  lemma FromNatToNat(s: seq<uint8>)
    ensures FitsIn(ToNat(s), |s|) && FromNat(ToNat(s), |s|) == s
  {
    ToNatBound(s);
    ToNatInjective(FromNat(ToNat(s), |s|), s);
  }

  /** The reasons ethers gives when `hexZeroPad` rejects its argument. Its
      error message starts with the reason and goes on with the argument and
      the library version, which the model leaves out. */
  const InvalidHexString: string := "invalid hex string"
  const ValueOutOfRange: string := "value out of range"

  /** `ethers.utils.hexZeroPad(BigNumber.from(n).toHexString(), len)`: a
      negative quantity prints as `-0x…`, which is not a hex string; a
      quantity wider than `len` bytes is out of range, and so is every
      quantity when `len` is 0, since even zero prints as the one byte
      `0x00`; otherwise the minimal big-endian bytes are left-padded with
      zeros to exactly `len` bytes. */
  function ZeroPad(n: int, len: nat): (r: Result<seq<uint8>>)
    ensures r.Success? <==> n >= 0 && len > 0 && FitsIn(n, len)
    ensures r.Success? ==> |r.value| == len && ToNat(r.value) == n
    ensures n < 0 ==> r.Failure? && StartsWith(r.error, InvalidHexString)
    ensures n >= 0 && (len == 0 || !FitsIn(n, len)) ==> r.Failure? && StartsWith(r.error, ValueOutOfRange)
  {
    if n < 0 then Failure(InvalidHexString)
    else if len == 0 || !FitsIn(n, len) then Failure(ValueOutOfRange)
    else Success(FromNat(n, len))
  }

  /** `ethers.constants.HashZero` as bytes. */
  function ZeroBytes(len: nat): (s: seq<uint8>)
    ensures |s| == len && forall i :: 0 <= i < len ==> s[i] == 0
  {
    seq(len, i => 0 as uint8)
  }

  lemma {:induction false} ToNatZeros(len: nat)
    ensures ToNat(ZeroBytes(len)) == 0
  {
    if len > 0 {
      assert ZeroBytes(len)[..len - 1] == ZeroBytes(len - 1);
      ToNatZeros(len - 1);
    }
  }

  /** `hexConcat` of four byte strings: each part can be sliced back out. */
  lemma ConcatSlices(a: seq<uint8>, b: seq<uint8>, c: seq<uint8>, d: seq<uint8>)
    ensures var s := a + b + c + d;
      && s[..|a|] == a
      && s[|a|..|a| + |b|] == b
      && s[|a| + |b|..|a| + |b| + |c|] == c
      && s[|a| + |b| + |c|..] == d
  {
    var s := a + b + c + d;
    assert s[..|a|] == a;
    assert s[|a|..|a| + |b|] == b;
    assert s[|a| + |b|..|a| + |b| + |c|] == c;
  }

  /** `ethers.utils.hexZeroPad` applied to a byte string: left-pads it with
      zero bytes to `len` bytes, and throws when it is already longer. */
  function PadLeft(b: seq<uint8>, len: nat): (r: Result<seq<uint8>>)
    ensures r.Success? <==> |b| <= len
    ensures r.Success? ==> |r.value| == len && r.value[len - |b|..] == b && ToNat(r.value) == ToNat(b)
    ensures |b| == len ==> r == Success(b)
    ensures |b| > len ==> r.Failure? && StartsWith(r.error, ValueOutOfRange)
  {
    if |b| > len then Failure(ValueOutOfRange)
    else
      var padded := ZeroBytes(len - |b|) + b;
      ToNatConcat(ZeroBytes(len - |b|), b);
      ToNatZeros(len - |b|);
      assert |b| == len ==> padded == b;
      Success(padded)
  }
}
