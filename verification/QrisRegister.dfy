/** The checksum on a register of four hexadecimal digits, four passes of the inner loop at a time. It
    follows the loops, and with it the checksum of a given payload can be worked out. */
module QrisRegister {
  import opened QrisCrc
  import opened QrisText

  datatype Digit = Digit(b3: bool, b2: bool, b1: bool, b0: bool)

  datatype Register = Register(d3: Digit, d2: Digit, d1: Digit, d0: Digit)

  const X0 := Digit(false, false, false, false)
  const X1 := Digit(false, false, false, true)
  const X2 := Digit(false, false, true, false)
  const X3 := Digit(false, false, true, true)
  const X4 := Digit(false, true, false, false)
  const X5 := Digit(false, true, false, true)
  const X6 := Digit(false, true, true, false)
  const X7 := Digit(false, true, true, true)
  const X8 := Digit(true, false, false, false)
  const X9 := Digit(true, false, false, true)
  const XA := Digit(true, false, true, false)
  const XB := Digit(true, false, true, true)
  const XC := Digit(true, true, false, false)
  const XD := Digit(true, true, false, true)
  const XE := Digit(true, true, true, false)
  const XF := Digit(true, true, true, true)

  predicate HoldsDigit(d: Digit, w: Word, from: nat)
    requires from + 4 <= |w|
  {
    w[from] == d.b0 && w[from + 1] == d.b1 && w[from + 2] == d.b2 && w[from + 3] == d.b3
  }

  /** The register holds the word. */
  predicate Holds(r: Register, w: Word) {
    |w| == 16 && HoldsDigit(r.d0, w, 0) && HoldsDigit(r.d1, w, 4) && HoldsDigit(r.d2, w, 8) && HoldsDigit(r.d3, w, 12)
  }

  /** The two digits are the lower byte of the code unit. */
  predicate Codes(high: Digit, low: Digit, unit: Word) {
    |unit| == 16 && HoldsDigit(low, unit, 0) && HoldsDigit(high, unit, 4)
  }

  function XorDigit(a: Digit, b: Digit): Digit { Digit(a.b3 != b.b3, a.b2 != b.b2, a.b1 != b.b1, a.b0 != b.b0) }

  function Mixed(r: Register, high: Digit, low: Digit): Register {
    r.(d3 := XorDigit(r.d3, high), d2 := XorDigit(r.d2, low))
  }

  /** Four passes at once: the top digit leaves and comes back at the taps. */
  function FourSteps(r: Register): Register {
    var top := r.d3;
    Register(
      XorDigit(r.d2, top),
      XorDigit(r.d1, Digit(false, false, false, top.b3)),
      XorDigit(r.d0, Digit(top.b2, top.b1, top.b0, false)),
      top)
  }

  function CodeStep(r: Register, high: Digit, low: Digit): Register { FourSteps(FourSteps(Mixed(r, high, low))) }

  function OneStep(r: Register): Register {
    var top := r.d3.b3;
    Register(
      Digit(r.d3.b2, r.d3.b1, r.d3.b0, r.d2.b3 != top),
      Digit(r.d2.b2, r.d2.b1, r.d2.b0, r.d1.b3),
      Digit(r.d1.b2, r.d1.b1, r.d1.b0 != top, r.d0.b3),
      Digit(r.d0.b2, r.d0.b1, r.d0.b0, top))
  }

  /** Where the bits of a word go in one pass. */
  predicate Moved(w: Word, s: Word) {
    && |w| == |s| == 16
    && s[0] == w[15] && s[1] == w[0] && s[2] == w[1] && s[3] == w[2] && s[4] == w[3]
    && s[5] == (w[4] != w[15]) && s[6] == w[5] && s[7] == w[6] && s[8] == w[7] && s[9] == w[8]
    && s[10] == w[9] && s[11] == w[10] && s[12] == (w[11] != w[15]) && s[13] == w[12] && s[14] == w[13]
       && s[15] == w[14]
  }

  lemma StepMoves(w: Word)
    requires |w| == 16
    ensures Moved(w, BitStep(w))
  {
  }

  lemma MovedHolds(r: Register, w: Word, s: Word)
    requires Holds(r, w) && Moved(w, s)
    ensures Holds(OneStep(r), s)
  {
  }

  lemma OneStepHolds(r: Register, w: Word)
    requires Holds(r, w)
    ensures Holds(OneStep(r), BitStep(w))
  {
    StepMoves(w);
    MovedHolds(r, w, BitStep(w));
  }

  lemma FourAreFour(r: Register)
    ensures OneStep(OneStep(OneStep(OneStep(r)))) == FourSteps(r)
  {
  }

  lemma FourStepsHold(r: Register, w: Word, n: nat)
    requires |w| == 16 && Holds(r, Steps(w, n))
    ensures Holds(FourSteps(r), Steps(w, n + 4))
  {
    var one, two, three := OneStep(r), OneStep(OneStep(r)), OneStep(OneStep(OneStep(r)));
    OneStepHolds(r, Steps(w, n));
    OneStepHolds(one, Steps(w, n + 1));
    OneStepHolds(two, Steps(w, n + 2));
    OneStepHolds(three, Steps(w, n + 3));
    FourAreFour(r);
  }

  lemma MixedHolds(r: Register, w: Word, high: Digit, low: Digit, unit: Word)
    requires Holds(r, w) && Codes(high, low, unit)
    ensures Holds(Mixed(r, high, low), Xor(w, Lifted(unit, 16)))
  {
  }

  /** The register follows the loops, whatever it holds. */
  lemma RegisterFollows(r: Register, w: Word, high: Digit, low: Digit, unit: Word)
    requires Holds(r, w) && Codes(high, low, unit)
    ensures Holds(CodeStep(r, high, low), ByteStep(w, unit))
  {
    var mixed := Xor(w, Lifted(unit, 16));
    MixedHolds(r, w, high, low, unit);
    assert Steps(mixed, 0) == mixed;
    FourStepsHold(Mixed(r, high, low), mixed, 0);
    FourStepsHold(FourSteps(Mixed(r, high, low)), mixed, 4);
  }

  // ----- texts -----

  /** The checksum after a text, from a checksum before it. */
  function Fed(crc: Word, s: string): (w: Word)
    requires |crc| == 16
    ensures |w| == 16
    decreases |s|
  {
    if s == "" then crc else Fed(ByteStep(crc, UnitOf(s[0])), s[1..])
  }

  lemma {:induction false} FedJoin(crc: Word, a: string, b: string)
    requires |crc| == 16
    ensures Fed(crc, a + b) == Fed(Fed(crc, a), b)
    decreases |a|
  {
    if a == "" {
      assert a + b == b;
    } else {
      assert (a + b)[1..] == a[1..] + b;
      FedJoin(ByteStep(crc, UnitOf(a[0])), a[1..], b);
    }
  }

  lemma {:induction false} CrcIsFed(s: string)
    ensures Crc(UnitsOf(s)) == Fed(Ones(16), s)
    decreases |s|
  {
    if s != "" {
      var cut := |s| - 1;
      var last := [s[cut]];
      CrcIsFed(s[..cut]);
      assert UnitsOf(s)[..cut] == UnitsOf(s[..cut]);
      assert s == s[..cut] + last;
      FedJoin(Ones(16), s[..cut], last);
      assert last[1..] == "";
      assert Fed(Crc(UnitsOf(s[..cut])), last) == Fed(ByteStep(Crc(UnitsOf(s[..cut])), UnitOf(s[cut])), "");
    }
  }

  // ----- characters -----

  function Weight(bit: bool, weight: nat): nat { if bit then weight else 0 }

  lemma HalfBit(n: nat, low: bool, half: nat, i: nat)
    requires n == 2 * half + Weight(low, 1)
    ensures Bit(n, i) == if i == 0 then low else Bit(half, i - 1)
  {
    assert n / 2 == half;
  }

  lemma FourBits(n: nat, b3: bool, b2: bool, b1: bool, b0: bool, high: nat)
    requires n == 16 * high + Weight(b3, 8) + Weight(b2, 4) + Weight(b1, 2) + Weight(b0, 1)
    ensures Bit(n, 0) == b0 && Bit(n, 1) == b1 && Bit(n, 2) == b2 && Bit(n, 3) == b3
    ensures forall i: nat :: i >= 4 ==> Bit(n, i) == Bit(high, i - 4)
    ensures Bit(n, 4) == Bit(high, 0) && Bit(n, 5) == Bit(high, 1) && Bit(n, 6) == Bit(high, 2)
      && Bit(n, 7) == Bit(high, 3)
  {
    var n3 := 2 * high + Weight(b3, 1);
    var n2 := 2 * n3 + Weight(b2, 1);
    var n1 := 2 * n2 + Weight(b1, 1);
    HalfBit(n, b0, n1, 0);
    HalfBit(n, b0, n1, 1);
    HalfBit(n, b0, n1, 2);
    HalfBit(n, b0, n1, 3);
    HalfBit(n1, b1, n2, 0);
    HalfBit(n1, b1, n2, 1);
    HalfBit(n1, b1, n2, 2);
    HalfBit(n2, b2, n3, 0);
    HalfBit(n2, b2, n3, 1);
    HalfBit(n3, b3, high, 0);
    forall i: nat | i >= 4 ensures Bit(n, i) == Bit(high, i - 4) {
      HalfBit(n, b0, n1, i);
      HalfBit(n1, b1, n2, i - 1);
      HalfBit(n2, b2, n3, i - 2);
      HalfBit(n3, b3, high, i - 3);
    }
  }

  function DigitValue(d: Digit): nat { Weight(d.b3, 8) + Weight(d.b2, 4) + Weight(d.b1, 2) + Weight(d.b0, 1) }

  lemma CodeBits(n: nat, high: Digit, low: Digit)
    requires n == 16 * DigitValue(high) + DigitValue(low)
    ensures Bit(n, 0) == low.b0 && Bit(n, 1) == low.b1 && Bit(n, 2) == low.b2 && Bit(n, 3) == low.b3
    ensures Bit(n, 4) == high.b0 && Bit(n, 5) == high.b1 && Bit(n, 6) == high.b2 && Bit(n, 7) == high.b3
  {
    FourBits(DigitValue(high), high.b3, high.b2, high.b1, high.b0, 0);
    FourBits(n, low.b3, low.b2, low.b1, low.b0, DigitValue(high));
  }

  lemma CodeOf(c: char, high: Digit, low: Digit)
    requires c as int == 16 * DigitValue(high) + DigitValue(low)
    ensures Codes(high, low, UnitOf(c))
  {
    CodeBits(c as int, high, low);
  }

  const START := Register(XF, XF, XF, XF)

  lemma StartHoldsOnes()
    ensures Holds(START, Ones(16))
  {
  }

  // ----- reading texts -----

  /** From one register to the other by reading a text. */
  ghost predicate Reads(r: Register, s: string, after: Register) {
    forall w: Word :: Holds(r, w) ==> Holds(after, Fed(w, s))
  }

  lemma ReadsMore(r: Register, s: string, mid: Register, t: string, after: Register)
    requires Reads(r, s, mid) && Reads(mid, t, after)
    ensures Reads(r, s + t, after)
  {
    forall w: Word | Holds(r, w) ensures Holds(after, Fed(w, s + t)) { FedJoin(w, s, t); }
  }

  /** One character, given by the digits of its code. */
  lemma ReadsOne(r: Register, s: string, high: Digit, low: Digit)
    requires |s| == 1 && s[0] as int == 16 * DigitValue(high) + DigitValue(low)
    ensures Reads(r, s, CodeStep(r, high, low))
  {
    CodeOf(s[0], high, low);
    forall w: Word | Holds(r, w) ensures Holds(CodeStep(r, high, low), Fed(w, s)) {
      RegisterFollows(r, w, high, low, UnitOf(s[0]));
      assert Fed(w, s) == Fed(ByteStep(w, UnitOf(s[0])), s[1..]);
    }
  }

  lemma ReadsTwo(r: Register, s: string, high: Digit, low: Digit, nextHigh: Digit, nextLow: Digit, after: Register)
    requires |s| == 2
    requires s[0] as int == 16 * DigitValue(high) + DigitValue(low)
    requires s[1] as int == 16 * DigitValue(nextHigh) + DigitValue(nextLow)
    requires CodeStep(CodeStep(r, high, low), nextHigh, nextLow) == after
    ensures Reads(r, s, after)
  {
    var mid := CodeStep(r, high, low);
    ReadsOne(r, s[..1], high, low);
    ReadsOne(mid, s[1..], nextHigh, nextLow);
    ReadsMore(r, s[..1], mid, s[1..], after);
    assert s[..1] + s[1..] == s;
  }
}
