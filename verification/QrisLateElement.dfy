/** A payload with an element after its checksum: the backend accepts it, the app does not. */
module QrisLateElement {
  import opened LocalTables
  import opened Qris
  import opened QrisCrc
  import opened QrisDynamic
  import opened QrisPayload
  import opened QrisRegister
  import opened QrisSamples
  import opened QrisText
  import opened Tlv

  // the last element, cut before the last four characters of the payload
  const LATE := Element("64", "063040000")
  const LATE_START := "640906304"
  const LATE_END := "0000"

  // ----- the checksum, element by element -----

  lemma EncodeOne(element: Element)
    requires |element.value| <= 99
    ensures Encode([element]) == EncodeElement(element)
  {
    assert [element][1..] == [];
    assert EncodeElement(element) + "" == EncodeElement(element);
  }

  lemma LastEncoded(body: seq<Element>, last: Element)
    requires AllWellFormed(body) && WellFormed(last)
    ensures AllWellFormed(body + [last]) && Encode(body + [last]) == Encode(body) + EncodeElement(last)
  {
    EncodeAppend(body, [last]);
    EncodeOne(last);
  }

  lemma EncodeOfTwo(elements: seq<Element>, a: Element, b: Element)
    requires elements == [a, b] && |a.value| <= 99 && |b.value| <= 99
    ensures Encode(elements) == EncodeElement(a) + EncodeElement(b)
  {
    assert elements[1..] == [b];
    EncodeOne(b);
  }

  lemma EncodeOfThree(elements: seq<Element>, a: Element, b: Element, c: Element)
    requires elements == [a, b, c] && |a.value| <= 99 && |b.value| <= 99 && |c.value| <= 99
    ensures Encode(elements) == EncodeElement(a) + (EncodeElement(b) + EncodeElement(c))
  {
    EncodeOfTwo(elements[1..], b, c);
  }

  ghost predicate ReadsElement(r: Register, element: Element, after: Register) {
    |element.value| <= 99 && Reads(r, EncodeElement(element), after)
  }

  lemma ElementRead(r: Register, element: Element, a: Register, size: string, b: Register, after: Register)
    requires |element.value| <= 99 && Padded(|element.value|) == size
    requires Reads(r, element.tag, a) && Reads(a, size, b) && Reads(b, element.value, after)
    ensures ReadsElement(r, element, after)
  {
    ReadsMore(r, element.tag, a, size, b);
    ReadsMore(r, element.tag + size, b, element.value, after);
  }

  lemma ReadsFormat()
    ensures ReadsElement(Register(XF, XF, XF, XF), Element("00", "01"), Register(X8, X9, XB, X9))
  {
    ReadsTwo(Register(XF, XF, XF, XF), "00", X3, X0, X3, X0, Register(X2, XE, XC, X9));
    ReadsTwo(Register(X2, XE, XC, X9), "02", X3, X0, X3, X2, Register(X7, XE, X0, X8));
    ReadsTwo(Register(X7, XE, X0, X8), "01", X3, X0, X3, X1, Register(X8, X9, XB, X9));
    ElementRead(
      Register(XF, XF, XF, XF), Element("00", "01"), Register(X2, XE, XC, X9), "02", Register(X7, XE, X0, X8),
        Register(X8, X9, XB, X9));
  }

  lemma ReadsInitiation()
    ensures ReadsElement(Register(X8, X9, XB, X9), Element("01", "11"), Register(X0, X4, X4, X9))
  {
    ReadsTwo(Register(X8, X9, XB, X9), "01", X3, X0, X3, X1, Register(XB, X4, X1, X5));
    ReadsTwo(Register(XB, X4, X1, X5), "02", X3, X0, X3, X2, Register(X8, X3, XD, X9));
    ReadsTwo(Register(X8, X3, XD, X9), "11", X3, X1, X3, X1, Register(X0, X4, X4, X9));
    ElementRead(
      Register(X8, X9, XB, X9), Element("01", "11"), Register(XB, X4, X1, X5), "02", Register(X8, X3, XD, X9),
        Register(X0, X4, X4, X9));
  }

  lemma ReadsMerchant()
    ensures ReadsElement(Register(X0, X4, X4, X9), Element("26", "0002ID"), Register(X4, X8, X8, X5))
  {
    ReadsTwo(Register(X0, X4, X4, X9), "26", X3, X2, X3, X6, Register(X2, X0, X4, XB));
    ReadsTwo(Register(X2, X0, X4, XB), "06", X3, X0, X3, X6, Register(XA, XC, X4, X9));
    ReadsTwo(Register(XA, XC, X4, X9), "00", X3, X0, X3, X0, Register(XB, X2, X3, X8));
    ReadsTwo(Register(XB, X2, X3, X8), "02", X3, X0, X3, X2, Register(XD, XC, XB, X0));
    ReadsMore(Register(XA, XC, X4, X9), "00", Register(XB, X2, X3, X8), "02", Register(XD, XC, XB, X0));
    assert "00" + "02" == "0002";
    ReadsTwo(Register(XD, XC, XB, X0), "ID", X4, X9, X4, X4, Register(X4, X8, X8, X5));
    ReadsMore(Register(XA, XC, X4, X9), "0002", Register(XD, XC, XB, X0), "ID", Register(X4, X8, X8, X5));
    assert "0002" + "ID" == "0002ID";
    ElementRead(
      Register(X0, X4, X4, X9), Element("26", "0002ID"), Register(X2, X0, X4, XB), "06", Register(XA, XC, X4, X9),
        Register(X4, X8, X8, X5));
  }

  lemma ReadsCategory()
    ensures ReadsElement(Register(X4, X8, X8, X5), Element("52", "5999"), Register(X7, X4, XD, X3))
  {
    ReadsTwo(Register(X4, X8, X8, X5), "52", X3, X5, X3, X2, Register(XA, X9, X3, X9));
    ReadsTwo(Register(XA, X9, X3, X9), "04", X3, X0, X3, X4, Register(X7, X3, XD, XE));
    ReadsTwo(Register(X7, X3, XD, XE), "59", X3, X5, X3, X9, Register(X2, XA, XA, X3));
    ReadsTwo(Register(X2, XA, XA, X3), "99", X3, X9, X3, X9, Register(X7, X4, XD, X3));
    ReadsMore(Register(X7, X3, XD, XE), "59", Register(X2, XA, XA, X3), "99", Register(X7, X4, XD, X3));
    assert "59" + "99" == "5999";
    ElementRead(
      Register(X4, X8, X8, X5), Element("52", "5999"), Register(XA, X9, X3, X9), "04", Register(X7, X3, XD, XE),
        Register(X7, X4, XD, X3));
  }

  lemma ReadsCurrency()
    ensures ReadsElement(Register(X7, X4, XD, X3), Element("53", "360"), Register(X5, X0, XF, XB))
  {
    ReadsTwo(Register(X7, X4, XD, X3), "53", X3, X5, X3, X3, Register(XC, X3, XD, X3));
    ReadsTwo(Register(XC, X3, XD, X3), "03", X3, X0, X3, X3, Register(XB, XB, XB, XC));
    ReadsTwo(Register(XB, XB, XB, XC), "36", X3, X3, X3, X6, Register(XA, X2, XF, X3));
    ReadsOne(Register(XA, X2, XF, X3), "0", X3, X0);
    ReadsMore(Register(XB, XB, XB, XC), "36", Register(XA, X2, XF, X3), "0", Register(X5, X0, XF, XB));
    assert "36" + "0" == "360";
    ElementRead(
      Register(X7, X4, XD, X3), Element("53", "360"), Register(XC, X3, XD, X3), "03", Register(XB, XB, XB, XC),
        Register(X5, X0, XF, XB));
  }

  lemma ReadsCountry()
    ensures ReadsElement(Register(X5, X0, XF, XB), Element("58", "ID"), Register(XF, X9, X4, XB))
  {
    ReadsTwo(Register(X5, X0, XF, XB), "58", X3, X5, X3, X8, Register(X1, XD, XF, X0));
    ReadsTwo(Register(X1, XD, XF, X0), "02", X3, X0, X3, X2, Register(X8, X9, XB, X4));
    ReadsTwo(Register(X8, X9, XB, X4), "ID", X4, X9, X4, X4, Register(XF, X9, X4, XB));
    ElementRead(
      Register(X5, X0, XF, XB), Element("58", "ID"), Register(X1, XD, XF, X0), "02", Register(X8, X9, XB, X4),
        Register(XF, X9, X4, XB));
  }

  lemma ReadsName()
    ensures ReadsElement(Register(XF, X9, X4, XB), Element("59", "A"), Register(XB, XC, X6, XA))
  {
    ReadsTwo(Register(XF, X9, X4, XB), "59", X3, X5, X3, X9, Register(X0, XD, XE, XC));
    ReadsTwo(Register(X0, XD, XE, XC), "01", X3, X0, X3, X1, Register(X6, X9, X1, X9));
    ReadsOne(Register(X6, X9, X1, X9), "A", X4, X1);
    ElementRead(
      Register(XF, X9, X4, XB), Element("59", "A"), Register(X0, XD, XE, XC), "01", Register(X6, X9, X1, X9),
        Register(XB, XC, X6, XA));
  }

  lemma ReadsCity()
    ensures ReadsElement(Register(XB, XC, X6, XA), Element("60", "B"), Register(XE, X2, X6, X9))
  {
    ReadsTwo(Register(XB, XC, X6, XA), "60", X3, X6, X3, X0, Register(X0, XF, XE, XC));
    ReadsTwo(Register(X0, XF, XE, XC), "01", X3, X0, X3, X1, Register(X0, XF, X7, XB));
    ReadsOne(Register(X0, XF, X7, XB), "B", X4, X2);
    ElementRead(
      Register(XB, XC, X6, XA), Element("60", "B"), Register(X0, XF, XE, XC), "01", Register(X0, XF, X7, XB),
        Register(XE, X2, X6, X9));
  }

  lemma ReadsSeal()
    ensures ReadsElement(Register(XE, X2, X6, X9), Element("63", "21DE"), Register(X6, X0, X4, X8))
  {
    ReadsTwo(Register(XE, X2, X6, X9), "63", X3, X6, X3, X3, Register(X2, X2, X5, XC));
    ReadsTwo(Register(X2, X2, X5, XC), "04", X3, X0, X3, X4, Register(X8, X8, XB, XF));
    ReadsTwo(Register(X8, X8, XB, XF), "21", X3, X2, X3, X1, Register(X8, X1, X8, X0));
    ReadsTwo(Register(X8, X1, X8, X0), "DE", X4, X4, X4, X5, Register(X6, X0, X4, X8));
    ReadsMore(Register(X8, X8, XB, XF), "21", Register(X8, X1, X8, X0), "DE", Register(X6, X0, X4, X8));
    assert "21" + "DE" == "21DE";
    ElementRead(
      Register(XE, X2, X6, X9), Element("63", "21DE"), Register(X2, X2, X5, XC), "04", Register(X8, X8, XB, XF),
        Register(X6, X0, X4, X8));
  }

  /** The last element up to its last four characters. */
  lemma ReadsLate()
    ensures Reads(Register(X6, X0, X4, X8), LATE_START, Register(X2, X1, XD, XE))
  {
    ReadsTwo(Register(X6, X0, X4, X8), "64", X3, X6, X3, X4, Register(X1, XB, X0, X2));
    ReadsTwo(Register(X1, XB, X0, X2), "09", X3, X0, X3, X9, Register(X5, XD, X2, X4));
    ReadsMore(Register(X6, X0, X4, X8), "64", Register(X1, XB, X0, X2), "09", Register(X5, XD, X2, X4));
    assert "64" + "09" == "6409";
    ReadsTwo(Register(X5, XD, X2, X4), "06", X3, X0, X3, X6, Register(X4, XF, X0, X5));
    ReadsMore(Register(X6, X0, X4, X8), "6409", Register(X5, XD, X2, X4), "06", Register(X4, XF, X0, X5));
    assert "6409" + "06" == "640906";
    ReadsTwo(Register(X4, XF, X0, X5), "30", X3, X3, X3, X0, Register(X2, XB, XC, X2));
    ReadsMore(Register(X6, X0, X4, X8), "640906", Register(X4, XF, X0, X5), "30", Register(X2, XB, XC, X2));
    assert "640906" + "30" == "64090630";
    ReadsOne(Register(X2, XB, XC, X2), "4", X3, X4);
    ReadsMore(Register(X6, X0, X4, X8), "64090630", Register(X2, XB, XC, X2), "4", Register(X2, X1, XD, XE));
    assert "64090630" + "4" == "640906304";
  }

  lemma ThreeRead(r: Register, a: Element, afterA: Register, b: Element, afterB: Register, c: Element, after: Register)
    requires ReadsElement(r, a, afterA) && ReadsElement(afterA, b, afterB) && ReadsElement(afterB, c, after)
    ensures Reads(r, EncodeElement(a) + (EncodeElement(b) + EncodeElement(c)), after)
  {
    ReadsMore(afterA, EncodeElement(b), afterB, EncodeElement(c), after);
    ReadsMore(r, EncodeElement(a), afterA, EncodeElement(b) + EncodeElement(c), after);
  }

  lemma FirstReads()
    ensures AllWellFormed(FIRST) && Reads(START, Encode(FIRST), Register(X4, X8, X8, X5))
  {
    FirstTags();
    ReadsFormat();
    ReadsInitiation();
    ReadsMerchant();
    EncodeOfThree(FIRST, FIRST[0], FIRST[1], FIRST[2]);
    ThreeRead(START, FIRST[0], Register(X8, X9, XB, X9), FIRST[1], Register(X0, X4, X4, X9), FIRST[2],
      Register(X4, X8, X8, X5));
  }

  lemma TwoRead(r: Register, a: Element, afterA: Register, b: Element, after: Register)
    requires ReadsElement(r, a, afterA) && ReadsElement(afterA, b, after)
    ensures Reads(r, EncodeElement(a) + EncodeElement(b), after)
  {
    ReadsMore(r, EncodeElement(a), afterA, EncodeElement(b), after);
  }

  lemma RestReads()
    ensures AllWellFormed(REST) && Reads(Register(X4, X8, X8, X5), Encode(REST), Register(XE, X2, X6, X9))
  {
    RestTags();
    ReadsCategory();
    ReadsCurrency();
    ReadsCountry();
    ReadsName();
    ReadsCity();
    EncodeOfThree(REST[..3], REST[0], REST[1], REST[2]);
    EncodeOfTwo(REST[3..], REST[3], REST[4]);
    ThreeRead(
      Register(X4, X8, X8, X5), REST[0], Register(X7, X4, XD, X3), REST[1], Register(X5, X0, XF, XB), REST[2],
      Register(XF, X9, X4, XB));
    TwoRead(Register(XF, X9, X4, XB), REST[3], Register(XB, XC, X6, XA), REST[4], Register(XE, X2, X6, X9));
    JoinedRead(Register(X4, X8, X8, X5), REST[..3], Register(XF, X9, X4, XB), REST[3..], Register(XE, X2, X6, X9));
    assert REST[..3] + REST[3..] == REST;
  }

  lemma JoinedRead(r: Register, first: seq<Element>, mid: Register, second: seq<Element>, after: Register)
    requires AllWellFormed(first) && AllWellFormed(second)
    requires Reads(r, Encode(first), mid) && Reads(mid, Encode(second), after)
    ensures Reads(r, Encode(first + second), after)
  {
    EncodeAppend(first, second);
    ReadsMore(r, Encode(first), mid, Encode(second), after);
  }

  /** The elements up to the checksum element. */
  function Sealed21DE(): seq<Element> { Whole([], "21DE") }

  lemma SealedReads()
    ensures AllWellFormed(Sealed21DE()) && Reads(START, Encode(Sealed21DE()), Register(X6, X0, X4, X8))
  {
    FirstReads();
    RestReads();
    ReadsSeal();
    WholeIncreases([], "21DE");
    var seal := Element("63", "21DE");
    JoinedRead(START, FIRST, Register(X4, X8, X8, X5), REST, Register(XE, X2, X6, X9));
    assert AllWellFormed([seal]) by { TemplateTag(seal); }
    EncodeOne(seal);
    JoinedRead(START, FIRST + REST, Register(XE, X2, X6, X9), [seal], Register(X6, X0, X4, X8));
    assert Sealed21DE() == FIRST + REST + [seal];
  }

  // ----- the payload -----

  function LateElements(): seq<Element> { Sealed21DE() + [LATE] }

  lemma LateTag()
    ensures WellFormed(LATE) && TagNumber(LATE) == 64 && LATE.tag == "64" && Printable(LATE.value)
    ensures EncodeElement(LATE) == LATE_START + LATE_END
  {
    assert Padded(9) == "09";
  }

  lemma LateIncreases()
    ensures AllWellFormed(LateElements()) && Increasing(LateElements())
  {
    WholeIncreases([], "21DE");
    LateTag();
    WholeBelow([], "21DE");
    TagsJoin(Sealed21DE(), [LATE], 0, 64, 65);
  }

  /** 00020101021126060002ID5204599953033605802ID5901A6001B630421DE6409063040000 */
  function LatePayload(): string {
    LateIncreases();
    Encode(LateElements())
  }

  lemma CutLast(payload: string, head: string, start: string, end: string)
    requires payload == head + (start + end)
    ensures payload == (head + start) + end
  {
  }

  lemma LateSplits()
    ensures AllWellFormed(Sealed21DE()) && LatePayload() == (Encode(Sealed21DE()) + LATE_START) + LATE_END
  {
    WholeIncreases([], "21DE");
    LateTag();
    LastEncoded(Sealed21DE(), LATE);
    CutLast(LatePayload(), Encode(Sealed21DE()), LATE_START, LATE_END);
  }

  lemma LateChecksum()
    ensures AllWellFormed(Sealed21DE()) && Checksum(Encode(Sealed21DE()) + LATE_START) == "21DE"
  {
    SealedReads();
    ReadsLate();
    var text := Encode(Sealed21DE()) + LATE_START;
    ReadsMore(START, Encode(Sealed21DE()), Register(X6, X0, X4, X8), LATE_START, Register(X2, X1, XD, XE));
    StartHoldsOnes();
    CrcIsFed(text);
    RegisterIsHex(Crc(UnitsOf(text)));
  }

  lemma RegisterIsHex(w: Word)
    requires QrisRegister.Holds(Register(X2, X1, XD, XE), w)
    ensures Hex(w) == "21DE"
  {
  }

  lemma ElementTexts()
    ensures EncodeElement(FIRST[0]) == "000201" && EncodeElement(FIRST[1]) == "010211"
    ensures EncodeElement(FIRST[2]) == "26060002ID" && EncodeElement(REST[0]) == "52045999"
    ensures EncodeElement(REST[1]) == "5303360" && EncodeElement(REST[2]) == "5802ID"
    ensures EncodeElement(REST[3]) == "5901A" && EncodeElement(REST[4]) == "6001B"
    ensures EncodeElement(Element("63", "21DE")) == "630421DE"
  {
    assert Padded(1) == "01" && Padded(2) == "02" && Padded(3) == "03" && Padded(4) == "04" && Padded(6) == "06";
  }

  lemma Regroup(a: string, b: string, c: string, d: string, e: string, f: string, g: string, h: string, i: string)
    ensures ((a + (b + c)) + ((d + (e + f)) + (g + h))) + i == a + b + c + d + e + f + g + h + i
  {
    assert (d + (e + f)) + (g + h) == d + (e + f + g + h);
    assert (a + (b + c)) + (d + (e + f + g + h)) == (a + b + c) + (d + (e + f + g + h));
    assert (a + b + c) + (d + (e + f + g + h)) == (a + b + c + d) + (e + f + g + h);
    assert (a + b + c + d) + (e + f + g + h) == a + b + c + d + e + f + g + h;
  }

  lemma RestText()
    ensures AllWellFormed(REST)
    ensures Encode(REST) == (EncodeElement(REST[0]) + (EncodeElement(REST[1]) + EncodeElement(REST[2])))
                            + (EncodeElement(REST[3]) + EncodeElement(REST[4]))
  {
    RestTags();
    EncodeOfThree(REST[..3], REST[0], REST[1], REST[2]);
    EncodeOfTwo(REST[3..], REST[3], REST[4]);
    EncodeAppend(REST[..3], REST[3..]);
    assert REST[..3] + REST[3..] == REST;
  }

  lemma ThreeParts(first: seq<Element>, rest: seq<Element>, last: Element)
    requires AllWellFormed(first) && AllWellFormed(rest) && WellFormed(last)
    ensures AllWellFormed(first + rest) && AllWellFormed((first + rest) + [last])
    ensures Encode((first + rest) + [last]) == (Encode(first) + Encode(rest)) + EncodeElement(last)
  {
    EncodeAppend(first, rest);
    LastEncoded(first + rest, last);
  }

  lemma SealedText()
    ensures AllWellFormed(FIRST) && AllWellFormed(REST) && AllWellFormed(Sealed21DE())
    ensures Encode(Sealed21DE()) == (Encode(FIRST) + Encode(REST)) + EncodeElement(Element("63", "21DE"))
  {
    FirstTags();
    RestTags();
    TemplateTag(Element("63", "21DE"));
    ThreeParts(FIRST, REST, Element("63", "21DE"));
    assert Sealed21DE() == FIRST + REST + [Element("63", "21DE")];
  }

  /** The payload, element by element. */
  lemma LateText()
    ensures LatePayload()
            == "000201" + "010211" + "26060002ID" + "52045999" + "5303360" + "5802ID" + "5901A" + "6001B" + "630421DE"
               + LATE_START + LATE_END
  {
    LateSplits();
    SealedText();
    EncodeOfThree(FIRST, FIRST[0], FIRST[1], FIRST[2]);
    RestText();
    ElementTexts();
    Regroup("000201", "010211", "26060002ID", "52045999", "5303360", "5802ID", "5901A", "6001B", "630421DE");
  }

  // ----- what the two validators make of it -----

  lemma LateValue(tag: string)
    requires tag != "64"
    ensures Value(LateElements(), tag) == Value(Sealed21DE(), tag)
  {
    ValueAppend(Sealed21DE(), [LATE], tag);
    assert [LATE][1..] == [];
  }

  lemma LateFields()
    ensures MerchantFields(LateElements()) && Value(LateElements(), "01") == Some("11")
      && !HasTransactionTag(LateElements())
  {
    SampleFields([], "21DE");
    LateValue("00");
    LateValue("01");
    LateValue("52");
    LateValue("53");
    LateValue("58");
    LateValue("59");
    LateValue("60");
    ScanAppend(Sealed21DE(), [LATE]);
    LateTransactionTags();
  }

  lemma LateTransactionTags()
    ensures !HasTransactionTag(LateElements())
  {
    SampleHasNo([], "21DE", "54");
    SampleHasNo([], "21DE", "55");
    SampleHasNo([], "21DE", "56");
    SampleHasNo([], "21DE", "57");
    LateValue("54");
    LateValue("55");
    LateValue("56");
    LateValue("57");
  }

  lemma LateParses()
    ensures Parse(LatePayload()) == Elements(LateElements())
    ensures |LateElements()| == 10 && LateElements()[9] == LATE && LATE.tag != "63"
  {
    LateIncreases();
    ParseInvertsEncode(LatePayload(), LateElements());
  }

  lemma TailStands(payload: string, head: string, start: string, end: string)
    requires payload == (head + start) + end && |start| >= 4 && |end| == 4
    ensures |payload| >= 8 && payload[..|payload| - 4] == head + start
    ensures payload[|payload| - 8..|payload| - 4] == start[|start| - 4..]
  {
    assert payload[..|payload| - 4] == head + start;
    assert payload[|payload| - 8..|payload| - 4] == (head + start)[|head + start| - 4..];
  }

  lemma LateSeal()
    ensures |LatePayload()| >= 12 && BackendSeal(LatePayload(), "21DE")
  {
    LateSplits();
    LateChecksum();
    TailStands(LatePayload(), Encode(Sealed21DE()), LATE_START, LATE_END);
    assert LATE_START[|LATE_START| - 4..] == CRC_TAG_PREFIX;
    assert Upper("21DE") == "21DE";
  }

  lemma LateLookup()
    ensures Lookup(LateElements(), "63") == "21DE"
  {
    WholeIncreases([], "21DE");
    OnlyValue(Sealed21DE(), 8);
    LateValue("63");
  }

  lemma LateValuesPrint()
    ensures |LateElements()| == 10 && forall i :: 0 <= i < 10 ==> Printable(LateElements()[i].value)
  {
    BodyIsSound([]);
    LateTag();
    forall i | 0 <= i < 10 ensures Printable(LateElements()[i].value) {
      if i < 8 {
        assert LateElements()[i] == Body([])[i];
      } else if i == 8 {
        assert LateElements()[i].value == "21DE";
      } else {
        assert LateElements()[i] == LATE;
      }
    }
  }

  lemma LatePrints()
    ensures Printable(LatePayload()) && |LatePayload()| <= 2048
  {
    LateIncreases();
    LateValuesPrint();
    PrintableEncode(LateElements());
    EncodeIsShort(LateElements());
  }

  lemma LateTemplates()
    ensures forall i :: 0 <= i < |LateElements()| && IsTemplate(LateElements()[i]) ==> InOrder(LateElements()[i].value)
  {
    FirstTags();
    RestTags();
    SampleTemplate();
    LateTag();
    TemplateTag(Element("63", "21DE"));
    forall i | 0 <= i < 10 ensures IsTemplate(LateElements()[i]) ==> InOrder(LateElements()[i].value) {
      if i < 3 {
        assert LateElements()[i] == FIRST[i];
      } else if i < 8 {
        assert LateElements()[i] == REST[i - 3];
      } else if i == 8 {
        assert LateElements()[i] == Element("63", "21DE");
      } else {
        assert LateElements()[i] == LATE;
      }
    }
  }

  lemma AcceptedFrom(payload: string, elements: seq<Element>, crc: string)
    requires Parse(payload) == Elements(elements) && Increasing(elements) && AllWellFormed(elements)
    requires forall i :: 0 <= i < |elements| && IsTemplate(elements[i]) ==> InOrder(elements[i].value)
    requires MerchantFields(elements) && Value(elements, "01") == Some("11") && !HasTransactionTag(elements)
    requires Printable(payload) && 12 <= |payload| <= 2048 && Lookup(elements, "63") == crc && BackendSeal(payload, crc)
    ensures BackendAccepts(payload)
  {
    FieldsAgree(elements);
  }

  lemma BackendAcceptsLate()
    ensures BackendAccepts(LatePayload())
  {
    LateIncreases();
    LateParses();
    LateTemplates();
    LateFields();
    LatePrints();
    LateLookup();
    LateSeal();
    AcceptedFrom(LatePayload(), LateElements(), "21DE");
  }

  lemma JoinedIsTrimmed(payload: string, body: seq<Element>, start: string, end: string)
    requires AllWellFormed(body) && body != [] && payload == (Encode(body) + start) + end
    requires end != "" && !IsSpace(end[|end| - 1])
    ensures Trimmed(payload)
  {
    assert Encode(body) == EncodeElement(body[0]) + Encode(body[1..]);
    assert payload[0] == body[0].tag[0];
    assert payload[|payload| - 1] == end[|end| - 1];
  }

  lemma LateIsTrimmed()
    ensures Trimmed(LatePayload())
  {
    LateSplits();
    JoinedIsTrimmed(LatePayload(), Sealed21DE(), LATE_START, LATE_END);
  }

  lemma AppRefusesLate(payload: string, elements: seq<Element>)
    requires Parse(payload) == Elements(elements) && elements != [] && elements[|elements| - 1].tag != "63"
    requires Trimmed(payload)
    ensures !EndsWithSeal(payload) && ValidateStaticQris(payload).None?
  {
    TrimIsTrimmed(payload);
    assert !Accepted(payload, elements);
  }

  /** The backend accepts a payload whose checksum element is not the last one; the app refuses it. */
  lemma LateElementIsAccepted()
    ensures BackendAccepts(LatePayload()) && !EndsWithSeal(LatePayload()) && ValidateStaticQris(LatePayload()).None?
  {
    BackendAcceptsLate();
    LateParses();
    LateIsTrimmed();
    AppRefusesLate(LatePayload(), LateElements());
  }
}
