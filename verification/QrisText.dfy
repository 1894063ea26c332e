/** Characters and numbers as QRIS payloads write them. */
module QrisText {
  import opened QrisCrc

  /** The white space that JavaScript's trim removes. */
  predicate IsSpace(c: char) {
    var n := c as int;
    9 <= n <= 13 || n == 32 || n == 0xA0 || n == 0x1680 || 0x2000 <= n <= 0x200A || n == 0x2028 || n == 0x2029
      || n == 0x202F
    || n == 0x205F || n == 0x3000 || n == 0xFEFF
  }

  function TrimStart(s: string): string {
    if s != "" && IsSpace(s[0]) then TrimStart(s[1..]) else s
  }

  function TrimEnd(s: string): string {
    if s != "" && IsSpace(s[|s| - 1]) then TrimEnd(s[..|s| - 1]) else s
  }

  function Trim(s: string): string { TrimEnd(TrimStart(s)) }

  predicate Trimmed(s: string) { s != "" ==> !IsSpace(s[0]) && !IsSpace(s[|s| - 1]) }

  lemma {:induction false} TrimEndsTrimmed(s: string)
    ensures TrimEnd(s) != "" ==> TrimEnd(s)[0] == s[0] && !IsSpace(TrimEnd(s)[|TrimEnd(s)| - 1])
  {
    if s != "" && IsSpace(s[|s| - 1]) { TrimEndsTrimmed(s[..|s| - 1]); }
  }

  lemma {:induction false} TrimStartsTrimmed(s: string)
    ensures TrimStart(s) != "" ==> !IsSpace(TrimStart(s)[0])
  {
    if s != "" && IsSpace(s[0]) { TrimStartsTrimmed(s[1..]); }
  }

  /** What was trimmed is trimmed, and exactly that is left alone. */
  lemma TrimIsTrimmed(s: string)
    ensures Trimmed(Trim(s))
    ensures Trim(s) == s <==> Trimmed(s)
  {
    TrimStartsTrimmed(s);
    TrimEndsTrimmed(TrimStart(s));
  }

  predicate AllSpace(s: string) { forall i :: 0 <= i < |s| ==> IsSpace(s[i]) }

  lemma {:induction false} TrimEndCuts(s: string) returns (after: string)
    ensures s == TrimEnd(s) + after && AllSpace(after)
    decreases |s|
  {
    after := "";
    if s != "" && IsSpace(s[|s| - 1]) {
      var cut := TrimEndCuts(s[..|s| - 1]);
      after := cut + [s[|s| - 1]];
      assert s == s[..|s| - 1] + [s[|s| - 1]];
    } else {
      assert s == s + "";
    }
  }

  lemma {:induction false} TrimStartCuts(s: string) returns (before: string)
    ensures s == before + TrimStart(s) && AllSpace(before)
    decreases |s|
  {
    before := "";
    if s != "" && IsSpace(s[0]) {
      var cut := TrimStartCuts(s[1..]);
      before := [s[0]] + cut;
      assert s == [s[0]] + s[1..];
    } else {
      assert s == "" + s;
    }
  }

  /** Trimming takes away white space at both ends, all of it and nothing else. */
  lemma TrimTakesSpace(s: string) returns (before: string, after: string)
    ensures s == before + Trim(s) + after && AllSpace(before) && AllSpace(after) && Trimmed(Trim(s))
  {
    before := TrimStartCuts(s);
    after := TrimEndCuts(TrimStart(s));
    TrimIsTrimmed(s);
    assert before + (Trim(s) + after) == before + Trim(s) + after;
  }

  predicate Blank(s: string) { Trim(s) == "" }

  predicate Printable(s: string) {
    forall i :: 0 <= i < |s| ==> 32 <= s[i] as int <= 126
  }

  function UpperChar(c: char): char {
    if 'a' <= c <= 'z' then ((c as int) - 32) as char else c
  }

  function Upper(s: string): (u: string)
    ensures |u| == |s| && forall i :: 0 <= i < |s| ==> u[i] == UpperChar(s[i])
  {
    seq(|s|, i requires 0 <= i < |s| => UpperChar(s[i]))
  }

  /** Checksums are compared in capitals: the six letters become capitals and digits stay. */
  lemma UpperOfHex()
    ensures Upper("0123456789abcdef") == "0123456789ABCDEF"
  {
  }

  // ----- code units and checksums -----

  function Bit(n: nat, i: nat): bool {
    if i == 0 then n % 2 == 1 else Bit(n / 2, i - 1)
  }

  function UnitOf(c: char): (unit: Word)
    ensures |unit| == 16
  {
    seq(16, i requires 0 <= i < 16 => Bit(c as int, i))
  }

  function UnitsOf(s: string): (units: seq<Word>)
    ensures |units| == |s| && Units(units) && forall i :: 0 <= i < |s| ==> units[i] == UnitOf(s[i])
  {
    seq(|s|, i requires 0 <= i < |s| => UnitOf(s[i]))
  }

  lemma {:induction false} SmallBits(n: nat, limit: nat, i: nat)
    requires n < Power(limit) && limit <= i
    ensures !Bit(n, i)
    decreases i
  {
    if i > 0 {
      if limit == 0 { SmallBits(n / 2, 0, i - 1); } else { SmallBits(n / 2, limit - 1, i - 1); }
    }
  }

  function Power(n: nat): nat { if n == 0 then 1 else 2 * Power(n - 1) }

  lemma {:induction false} BitsDecide(a: nat, b: nat, limit: nat)
    requires a < Power(limit) && b < Power(limit) && forall i :: 0 <= i < limit ==> Bit(a, i) == Bit(b, i)
    ensures a == b
  {
    if limit > 0 {
      assert Bit(a, 0) == Bit(b, 0);
      forall i | 0 <= i < limit - 1 ensures Bit(a / 2, i) == Bit(b / 2, i) {
        assert Bit(a, i + 1) == Bit(b, i + 1);
      }
      BitsDecide(a / 2, b / 2, limit - 1);
    }
  }

  lemma PrintableUnits(s: string)
    requires Printable(s)
    ensures Bytes(UnitsOf(s))
  {
    assert Power(8) == 256 by { assert Power(4) == 16; }
    forall k | 0 <= k < |s| ensures IsByte(UnitOf(s[k])) {
      forall i | 8 <= i < 16 ensures !UnitOf(s[k])[i] { SmallBits(s[k] as int, 8, i); }
    }
  }

  lemma UnitsDecide(c: char, d: char)
    requires c as int < 256 && d as int < 256 && UnitOf(c) == UnitOf(d)
    ensures c == d
  {
    assert Power(8) == 256 by { assert Power(4) == 16; }
    var m: nat, n: nat := c as int, d as int;
    forall i | 0 <= i < 8 ensures Bit(m, i) == Bit(n, i) {
      assert UnitOf(c)[i] == UnitOf(d)[i];
    }
    BitsDecide(m, n, 8);
  }

  function HexDigit(b3: bool, b2: bool, b1: bool, b0: bool): (c: char)
    ensures !IsSpace(c) && 32 < c as int < 127 && UpperChar(c) == c
  {
    var n := (if b3 then 8 else 0) + (if b2 then 4 else 0) + (if b1 then 2 else 0) + (if b0 then 1 else 0);
    if n < 10 then (('0' as int) + n) as char else (('A' as int) + n - 10) as char
  }

  function Nibble(w: Word, n: nat): (c: char)
    requires |w| == 16 && n < 4
    ensures !IsSpace(c) && 32 < c as int < 127 && UpperChar(c) == c
  {
    HexDigit(w[4 * n + 3], w[4 * n + 2], w[4 * n + 1], w[4 * n])
  }

  /** toString(16).toUpperCase().padStart(4, "0"), as well as %04X. */
  function Hex(w: Word): (s: string)
    requires |w| == 16
    ensures |s| == 4 && Upper(s) == s && Printable(s) && !IsSpace(s[3])
  {
    [Nibble(w, 3), Nibble(w, 2), Nibble(w, 1), Nibble(w, 0)]
  }

  lemma HexDecides(a: Word, b: Word)
    requires |a| == |b| == 16 && Hex(a) == Hex(b)
    ensures a == b
  {
    assert Hex(a)[0] == Hex(b)[0] && Hex(a)[1] == Hex(b)[1] && Hex(a)[2] == Hex(b)[2] && Hex(a)[3] == Hex(b)[3];
    forall i | 0 <= i < 16 ensures a[i] == b[i] { NibbleDecides(a, b, i / 4); }
  }

  lemma NibbleDecides(a: Word, b: Word, n: nat)
    requires |a| == |b| == 16 && n < 4 && Nibble(a, n) == Nibble(b, n)
    ensures forall i :: 4 * n <= i < 4 * n + 4 ==> a[i] == b[i]
  {
    HexDigitDecides(a[4 * n + 3], a[4 * n + 2], a[4 * n + 1], a[4 * n], b[4 * n + 3], b[4 * n + 2], b[4 * n + 1],
      b[4 * n]);
  }

  lemma HexDigitDecides(a3: bool, a2: bool, a1: bool, a0: bool, b3: bool, b2: bool, b1: bool, b0: bool)
    ensures HexDigit(a3, a2, a1, a0) == HexDigit(b3, b2, b1, b0) ==> a3 == b3 && a2 == b2 && a1 == b1 && a0 == b0
  {
  }

  function Checksum(s: string): (hex: string)
    ensures |hex| == 4 && Upper(hex) == hex && Printable(hex) && !IsSpace(hex[3])
  {
    Hex(Crc(UnitsOf(s)))
  }

  /** Two printable texts that differ only within two adjacent characters have different checksums. */
  lemma ChecksumDetects(p: string, q: string, at: nat)
    requires Printable(p) && Printable(q) && DifferWithin(p, q, at)
    ensures Checksum(p) == Checksum(q) <==> p == q
  {
    if Checksum(p) == Checksum(q) {
      HexDecides(Crc(UnitsOf(p)), Crc(UnitsOf(q)));
      PrintableUnits(p);
      PrintableUnits(q);
      AdjacentChangeIsDetected(UnitsOf(p), UnitsOf(q), at);
      forall i | 0 <= i < |p| ensures p[i] == q[i] {
        assert UnitsOf(p)[i] == UnitsOf(q)[i];
        UnitsDecide(p[i], q[i]);
      }
    }
  }
}
