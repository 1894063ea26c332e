/** The checksum of both QRIS implementations: CRC-16 with polynomial 0x1021 and start 0xFFFF.
    Machine words are written out bit by bit, the lowest bit first. */
module QrisCrc {
  type Word = seq<bool>

  function Xor(a: Word, b: Word): (w: Word)
    requires |a| == |b|
    ensures |w| == |a| && forall i :: 0 <= i < |a| ==> w[i] == (a[i] != b[i])
  {
    seq(|a|, i requires 0 <= i < |a| => a[i] != b[i])
  }

  function ShiftLeft(a: Word): (w: Word)
    ensures |w| == |a| && forall i :: 0 <= i < |a| ==> w[i] == (i > 0 && a[i - 1])
  {
    seq(|a|, i requires 0 <= i < |a| => i > 0 && a[i - 1])
  }

  /** 0x1021. */
  function Polynomial(width: nat): (w: Word)
    ensures |w| == width && forall i :: 0 <= i < width ==> w[i] == (i == 0 || i == 5 || i == 12)
  {
    seq(width, i => i == 0 || i == 5 || i == 12)
  }

  /** 0xFFFF. */
  function Ones(width: nat): (w: Word)
    ensures |w| == width && forall i :: 0 <= i < width ==> w[i] == (i < 16)
  {
    seq(width, i => i < 16)
  }

  /** `& 0xFFFF`. */
  function Masked(a: Word): (w: Word)
    ensures |w| == |a| && forall i :: 0 <= i < |a| ==> w[i] == (i < 16 && a[i])
  {
    seq(|a|, i requires 0 <= i < |a| => i < 16 && a[i])
  }

  /** A 16-bit code unit shifted left by 8 within a word; bits beyond its width are lost. */
  function Lifted(unit: Word, width: nat): (w: Word)
    requires |unit| == 16
    ensures |w| == width && forall i :: 0 <= i < width ==> w[i] == (8 <= i < 24 && unit[i - 8])
  {
    seq(width, i requires 0 <= i < width => 8 <= i < 24 && unit[i - 8])
  }

  /** One pass of the inner loop in 16-bit arithmetic, as the backend runs it. */
  function BitStep(crc: Word): (w: Word)
    requires |crc| == 16
    ensures |w| == 16
  {
    if crc[15] then Xor(ShiftLeft(crc), Polynomial(16)) else ShiftLeft(crc)
  }

  /** One pass of the inner loop in 32-bit arithmetic, as the app runs it. */
  function WideBitStep(crc: Word): (w: Word)
    requires |crc| == 32
    ensures |w| == 32
  {
    if crc[15] then Masked(Xor(ShiftLeft(crc), Polynomial(32))) else Masked(ShiftLeft(crc))
  }

  function Steps(crc: Word, n: nat): (w: Word)
    requires |crc| == 16
    ensures |w| == 16
  {
    if n == 0 then crc else BitStep(Steps(crc, n - 1))
  }

  function ByteStep(crc: Word, unit: Word): (w: Word)
    requires |crc| == 16 && |unit| == 16
    ensures |w| == 16
  {
    Steps(Xor(crc, Lifted(unit, 16)), 8)
  }

  predicate Units(units: seq<Word>) {
    forall i :: 0 <= i < |units| ==> |units[i]| == 16
  }

  function Crc(units: seq<Word>): (w: Word)
    requires Units(units)
    ensures |w| == 16
    decreases |units|
  {
    if units == [] then Ones(16) else ByteStep(Crc(units[..|units| - 1]), units[|units| - 1])
  }

  lemma WideStepIsStep(wide: Word)
    requires |wide| == 32
    ensures WideBitStep(wide)[..16] == BitStep(wide[..16])
    ensures WideBitStep(wide) == Masked(WideBitStep(wide))
  {
  }

  /** The app's loops compute the same checksum as the backend's, although a code unit above 255
      makes the 32-bit value longer than 16 bits for one bit step. */
  method CalculateQrisCrc(units: seq<Word>) returns (crc: Word)
    requires Units(units)
    ensures |crc| == 32 && crc == Masked(crc) && crc[..16] == Crc(units)
  {
    crc := Ones(32);
    assert crc[..16] == Ones(16);
    for index := 0 to |units|
      invariant |crc| == 32 && crc == Masked(crc) && crc[..16] == Crc(units[..index])
    {
      ghost var before := crc;
      crc := Xor(crc, Lifted(units[index], 32));
      ghost var mixed := crc[..16];
      assert mixed == Xor(before[..16], Lifted(units[index], 16));
      for bit := 0 to 8
        invariant |crc| == 32 && crc[..16] == Steps(mixed, bit)
        invariant bit > 0 ==> crc == Masked(crc)
      {
        WideStepIsStep(crc);
        crc := if crc[15] then Masked(Xor(ShiftLeft(crc), Polynomial(32))) else Masked(ShiftLeft(crc));
      }
      assert units[..index + 1][..index] == units[..index];
    }
    assert units[..|units|] == units;
  }

  method BackendCrc(bytes: seq<Word>) returns (crc: Word)
    requires Units(bytes)
    ensures crc == Crc(bytes)
  {
    crc := Ones(16);
    for index := 0 to |bytes|
      invariant crc == Crc(bytes[..index])
    {
      crc := Xor(crc, Lifted(bytes[index], 16));
      ghost var mixed := crc;
      for bit := 0 to 8
        invariant crc == Steps(mixed, bit)
      {
        if crc[15] {
          crc := Xor(ShiftLeft(crc), Polynomial(16));
        } else {
          crc := ShiftLeft(crc);
        }
      }
      assert bytes[..index + 1][..index] == bytes[..index];
    }
    assert bytes[..|bytes|] == bytes;
  }

  // ----- strength -----

  /** The bit step loses nothing: the bit that falls out can be read back from the lowest bit. */
  function UndoBitStep(crc: Word): (w: Word)
    requires |crc| == 16
    ensures |w| == 16
  {
    var shifted := if crc[0] then Xor(crc, Polynomial(16)) else crc;
    shifted[1..] + [crc[0]]
  }

  lemma BitStepUndone(crc: Word)
    requires |crc| == 16
    ensures UndoBitStep(BitStep(crc)) == crc
  {
    assert BitStep(crc)[0] == crc[15];
    var shifted := if BitStep(crc)[0] then Xor(BitStep(crc), Polynomial(16)) else BitStep(crc);
    assert shifted == ShiftLeft(crc);
  }

  lemma {:induction false} StepsInjective(a: Word, b: Word, n: nat)
    requires |a| == |b| == 16 && Steps(a, n) == Steps(b, n)
    ensures a == b
  {
    if n > 0 {
      BitStepUndone(Steps(a, n - 1));
      BitStepUndone(Steps(b, n - 1));
      StepsInjective(a, b, n - 1);
    }
  }

  function ShiftedBy(y: Word, n: nat): (w: Word)
    ensures |w| == |y| && forall i :: 0 <= i < |y| ==> w[i] == (i >= n && y[i - n])
  {
    seq(|y|, i requires 0 <= i < |y| => i >= n && y[i - n])
  }

  /** Bits that have not reached the top are only shifted. */
  lemma StepCarries(x: Word, y: Word)
    requires |x| == |y| == 16 && !y[15]
    ensures BitStep(Xor(x, y)) == Xor(BitStep(x), ShiftLeft(y))
  {
  }

  lemma {:induction false} StepsCarry(x: Word, y: Word, n: nat)
    requires |x| == |y| == 16 && n <= 8 && forall i :: 8 <= i < 16 ==> !y[i]
    ensures Steps(Xor(x, y), n) == Xor(Steps(x, n), ShiftedBy(y, n))
  {
    if n == 0 {
      assert ShiftedBy(y, 0) == y;
    } else {
      StepsCarry(x, y, n - 1);
      StepCarries(Steps(x, n - 1), ShiftedBy(y, n - 1));
      assert ShiftLeft(ShiftedBy(y, n - 1)) == ShiftedBy(y, n);
    }
  }

  predicate IsByte(unit: Word) {
    |unit| == 16 && forall i :: 8 <= i < 16 ==> !unit[i]
  }

  /** Two bytes in a row enter the checksum as one 16-bit value. */
  lemma TwoBytesJoin(crc: Word, a: Word, b: Word)
    requires |crc| == 16 && IsByte(a) && IsByte(b)
    ensures ByteStep(ByteStep(crc, a), b) == Steps(Steps(Xor(Xor(crc, Lifted(a, 16)), b), 8), 8)
  {
    StepsCarry(Xor(crc, Lifted(a, 16)), b, 8);
    assert ShiftedBy(b, 8) == Lifted(b, 16);
  }

  lemma JoinedInjective(crc: Word, a: Word, b: Word, c: Word, d: Word)
    requires |crc| == 16 && IsByte(a) && IsByte(b) && IsByte(c) && IsByte(d)
    requires Xor(Xor(crc, Lifted(a, 16)), b) == Xor(Xor(crc, Lifted(c, 16)), d)
    ensures a == c && b == d
  {
    var left, right := Xor(Xor(crc, Lifted(a, 16)), b), Xor(Xor(crc, Lifted(c, 16)), d);
    forall i | 0 <= i < 8 ensures a[i] == c[i] && b[i] == d[i] {
      assert left[i] == right[i] && left[i + 8] == right[i + 8];
    }
  }

  lemma TwoBytesInjective(crc: Word, a: Word, b: Word, c: Word, d: Word)
    requires |crc| == 16 && IsByte(a) && IsByte(b) && IsByte(c) && IsByte(d)
    requires ByteStep(ByteStep(crc, a), b) == ByteStep(ByteStep(crc, c), d)
    ensures a == c && b == d
  {
    TwoBytesJoin(crc, a, b);
    TwoBytesJoin(crc, c, d);
    var left, right := Xor(Xor(crc, Lifted(a, 16)), b), Xor(Xor(crc, Lifted(c, 16)), d);
    StepsInjective(Steps(left, 8), Steps(right, 8), 8);
    StepsInjective(left, right, 8);
    JoinedInjective(crc, a, b, c, d);
  }

  /** One step is injective in the checksum and in the byte. */
  lemma ByteStepInjective(x: Word, a: Word, y: Word, b: Word)
    requires |x| == |y| == 16 && IsByte(a) && IsByte(b) && ByteStep(x, a) == ByteStep(y, b)
    ensures a == b ==> x == y
    ensures x == y ==> a == b
  {
    var left, right := Xor(x, Lifted(a, 16)), Xor(y, Lifted(b, 16));
    StepsInjective(left, right, 8);
    assert forall i :: 0 <= i < 16 ==> left[i] == right[i];
    if x == y {
      forall i | 0 <= i < 8 ensures a[i] == b[i] { assert left[i + 8] == right[i + 8]; }
    }
  }

  predicate Bytes(units: seq<Word>) {
    forall i :: 0 <= i < |units| ==> IsByte(units[i])
  }

  /** The two byte strings agree outside positions `at` and `at + 1`. */
  predicate DifferWithin<T(==)>(p: seq<T>, q: seq<T>, at: nat) {
    |p| == |q| && forall i :: 0 <= i < |p| && i != at && i != at + 1 ==> p[i] == q[i]
  }

  lemma {:induction false} SuffixKeeps(p: seq<Word>, q: seq<Word>, n: nat)
    requires Bytes(p) && Bytes(q) && n <= |p| == |q|
    requires forall i :: n <= i < |p| ==> p[i] == q[i]
    requires Crc(p) == Crc(q)
    ensures Crc(p[..n]) == Crc(q[..n])
    decreases |p|
  {
    if n == |p| {
      assert p[..n] == p && q[..n] == q;
    } else {
      var cut := |p| - 1;
      ByteStepInjective(Crc(p[..cut]), p[cut], Crc(q[..cut]), q[cut]);
      SuffixKeeps(p[..cut], q[..cut], n);
      assert p[..cut][..n] == p[..n] && q[..cut][..n] == q[..n];
    }
  }

  lemma CrcStep(p: seq<Word>, n: nat)
    requires Units(p) && n < |p|
    ensures Crc(p[..n + 1]) == ByteStep(Crc(p[..n]), p[n])
  {
    assert p[..n + 1][..n] == p[..n];
  }

  /** Two byte strings of one length that differ only within two adjacent bytes have the same
      checksum only when they are equal, whatever their length and wherever the difference is. */
  lemma AdjacentChangeIsDetected(p: seq<Word>, q: seq<Word>, at: nat)
    requires Bytes(p) && Bytes(q) && DifferWithin(p, q, at)
    ensures Crc(p) == Crc(q) <==> p == q
  {
    if Crc(p) == Crc(q) {
      if at + 2 <= |p| {
        SuffixKeeps(p, q, at + 2);
        assert p[..at] == q[..at];
        CrcStep(p, at);
        CrcStep(p, at + 1);
        CrcStep(q, at);
        CrcStep(q, at + 1);
        TwoBytesInjective(Crc(p[..at]), p[at], p[at + 1], q[at], q[at + 1]);
      } else if at < |p| {
        assert p[..at] == q[..at] && p[..at + 1] == p && q[..at + 1] == q;
        CrcStep(p, at);
        CrcStep(q, at);
        ByteStepInjective(Crc(p[..at]), p[at], Crc(q[..at]), q[at]);
      }
      assert p == q;
    }
  }
}
