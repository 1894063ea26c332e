/** What the conversion of a static payload to a dynamic one guarantees. */
module QrisDynamic {
  import opened LocalTables
  import opened Numerals
  import opened Tlv
  import opened QrisText
  import opened Qris

  /** A body, closed by the checksum element. */
  function Sealed(body: seq<Element>): seq<Element>
    requires AllWellFormed(body)
  {
    body + [Element("63", Checksum(Encode(body) + CRC_TAG_PREFIX))]
  }

  function Seal(body: seq<Element>): string
    requires AllWellFormed(body)
  {
    Encode(body) + CRC_TAG_PREFIX + Checksum(Encode(body) + CRC_TAG_PREFIX)
  }

  lemma EncodeLast(body: seq<Element>, crc: string)
    requires AllWellFormed(body) && |crc| == 4
    ensures Encode(body + [Element("63", crc)]) == Encode(body) + CRC_TAG_PREFIX + crc
  {
    var last := Element("63", crc);
    EncodeAppend(body, [last]);
    assert Encode([last]) == EncodeElement(last) + Encode([]);
    assert Padded(4) == "04";
    assert EncodeElement(last) == CRC_TAG_PREFIX + crc;
  }

  lemma SealParses(body: seq<Element>)
    requires AllWellFormed(body)
    ensures Parse(Seal(body)) == Elements(Sealed(body)) && AllWellFormed(Sealed(body))
  {
    EncodeLast(body, Checksum(Encode(body) + CRC_TAG_PREFIX));
    ParseInvertsEncode(Seal(body), Sealed(body));
  }

  lemma CutTail(whole: string, head: string, tail: string)
    requires whole == head + tail
    ensures whole[..|whole| - |tail|] == head && whole[|whole| - |tail|..] == tail
  {
  }

  /** An accepted payload is its body, the checksum tag and the checksum of both, in either case. */
  lemma AcceptedShape(payload: string, elements: seq<Element>)
    requires Parse(payload) == Elements(elements) && Accepted(payload, elements)
    ensures AllWellFormed(elements)
    ensures var body := elements[..|elements| - 1];
      && Encode(body) + CRC_TAG_PREFIX == payload[..|payload| - 4]
      && Upper(payload[|payload| - 4..]) == Checksum(Encode(body) + CRC_TAG_PREFIX)
  {
    ParseInvertsEncode(payload, elements);
    var body, crc := elements[..|elements| - 1], elements[|elements| - 1].value;
    EncodeWhole(elements, body, crc);
    CutTail(payload, Encode(body) + CRC_TAG_PREFIX, crc);
  }

  lemma EncodeWhole(elements: seq<Element>, body: seq<Element>, crc: string)
    requires AllWellFormed(elements) && elements != [] && body == elements[..|elements| - 1]
    requires elements[|elements| - 1] == Element("63", crc) && |crc| == 4
    ensures Encode(elements) == (Encode(body) + CRC_TAG_PREFIX) + crc
  {
    assert elements == body + [Element("63", crc)];
    EncodeLast(body, crc);
  }

  lemma SealIsTrimmed(body: seq<Element>)
    requires AllWellFormed(body) && body != []
    ensures Trimmed(Seal(body))
  {
    assert Seal(body)[0] == Encode(body)[0] == body[0].tag[0];
    var crc := Checksum(Encode(body) + CRC_TAG_PREFIX);
    assert Seal(body)[|Seal(body)| - 1] == crc[3];
  }

  lemma SealIsPrintable(body: seq<Element>)
    requires AllWellFormed(body) && forall i :: 0 <= i < |body| ==> Printable(body[i].value)
    ensures Printable(Seal(body))
  {
    PrintableEncode(body);
    PrintableJoin(Encode(body), CRC_TAG_PREFIX);
    PrintableJoin(Encode(body) + CRC_TAG_PREFIX, Checksum(Encode(body) + CRC_TAG_PREFIX));
  }

  lemma MoreThanSeal(elements: seq<Element>)
    requires elements != [] && elements[|elements| - 1].tag == "63" && HasTag(elements, "00")
    ensures |elements| >= 2
  {
    ValueAt(elements, "00");
  }

  /** A sealed body is accepted as soon as its tags and merchant fields are, whatever it holds. */
  lemma SealIsAccepted(body: seq<Element>)
    requires AllWellFormed(body) && Increasing(Sealed(body)) && MerchantFields(Sealed(body))
    requires forall i :: 0 <= i < |body| ==> Printable(body[i].value)
    ensures ParseQris(Seal(body)).Some? <==> |Seal(body)| <= MAX_PAYLOAD
    ensures ParseQris(Seal(body)).Some? ==>
      var parsed := ParseQris(Seal(body)).value;
      && parsed.payload == Seal(body)
      && parsed.isStatic == (Value(Sealed(body), "01") == Some("11")) && parsed.amount == Value(Sealed(body), "54")
      && parsed.merchantName == Trim(Value(Sealed(body), "59").value)
         && parsed.merchantCity == Trim(Value(Sealed(body), "60").value)
  {
    MoreThanSeal(Sealed(body));
    SealIsTrimmed(body);
    SealIsPrintable(body);
    TrimIsTrimmed(Seal(body));
    SealParses(body);
    assert Seal(body)[..|Seal(body)| - 4] == Encode(body) + CRC_TAG_PREFIX;
  }

  // ----- the converted body -----

  function RenewOne(element: Element): Element {
    if element.tag == "01" then Element("01", "12") else element
  }

  function Renew(elements: seq<Element>): (renewed: seq<Element>)
    ensures |renewed| == |elements| && forall i :: 0 <= i < |elements| ==> renewed[i] == RenewOne(elements[i])
  {
    seq(|elements|, i requires 0 <= i < |elements| => RenewOne(elements[i]))
  }

  predicate Plain(elements: seq<Element>) {
    forall i :: 0 <= i < |elements| ==> !IsTransactionTag(elements[i].tag)
  }

  predicate Lacks(elements: seq<Element>, tag: string) {
    forall i :: 0 <= i < |elements| ==> elements[i].tag != tag
  }

  lemma {:induction false} ConvertPlain(elements: seq<Element>, amount: string, inserted: bool)
    requires Plain(elements) && (inserted || Lacks(elements, "58"))
    ensures Convert(elements, amount, inserted) == Renew(elements)
  {
    if elements != [] {
      assert elements[0].tag != "58" || inserted;
      ConvertPlain(elements[1..], amount, inserted || elements[0].tag == "58");
      assert Renew(elements) == [RenewOne(elements[0])] + Renew(elements[1..]);
    }
  }

  function Converted(body: seq<Element>, k: nat, amount: string): seq<Element>
    requires k < |body|
  {
    Renew(body[..k]) + [Element("54", amount)] + body[k..]
  }

  lemma AroundCountry(body: seq<Element>, k: nat)
    requires AllWellFormed(body) && Increasing(body) && k < |body| && body[k].tag == "58"
    ensures Lacks(body[..k], "58") && Lacks(body[k..], "01")
  {
    forall i | 0 <= i < k ensures body[i].tag != "58" { TagsAreNumbers(body[i], body[k]); }
    forall i | k <= i < |body| ensures body[i].tag != "01" { TagsAreNumbers(body[i], Element("01", "")); }
  }

  lemma ConvertFromCountry(high: seq<Element>, amount: string)
    requires Plain(high) && high != [] && high[0].tag == "58" && Lacks(high, "01")
    ensures Convert(high, amount, false) == [Element("54", amount)] + high
  {
    ConvertPlain(high[1..], amount, true);
    assert Renew(high[1..]) == high[1..];
    assert high == [high[0]] + high[1..];
  }

  /** The amount stands right before tag 58, the rest is unchanged but for the initiation method. */
  lemma ConvertShape(body: seq<Element>, k: nat, amount: string)
    requires AllWellFormed(body) && Increasing(body) && Plain(body) && k < |body| && body[k].tag == "58"
    ensures Convert(body, amount, false) == Converted(body, k, amount)
  {
    var low, high := body[..k], body[k..];
    assert body == low + high;
    AroundCountry(body, k);
    ConvertAppend(low, high, amount, false);
    ConvertPlain(low, amount, false);
    ValueAt(low, "58");
    ConvertFromCountry(high, amount);
  }

  lemma {:induction false} RenewKeeps(elements: seq<Element>, tag: string)
    ensures Value(Renew(elements), tag) == if tag == "01" && HasTag(elements, "01") then Some("12")
      else Value(elements, tag)
    ensures (forall i :: 0 <= i < |elements| ==> TwoDigits(elements[i].tag)) ==>
      ScanTemplates(Renew(elements)) == ScanTemplates(elements)
  {
    if elements != [] {
      assert Renew(elements)[1..] == Renew(elements[1..]);
      RenewKeeps(elements[1..], tag);
    }
  }

  lemma {:induction false} RenewLength(elements: seq<Element>)
    requires AllWellFormed(elements) && forall i :: 0 <= i < |elements| && elements[i].tag == "01" ==>
      |elements[i].value| == 2
    ensures AllWellFormed(Renew(elements)) && |Encode(Renew(elements))| == |Encode(elements)|
  {
    if elements != [] {
      assert Renew(elements)[1..] == Renew(elements[1..]);
      RenewLength(elements[1..]);
    }
  }

  // ----- the converted payload -----

  lemma LacksHasNot(elements: seq<Element>, tag: string)
    requires Lacks(elements, tag)
    ensures !HasTag(elements, tag)
  {
    ValueAt(elements, tag);
  }

  lemma ConvertedValue(body: seq<Element>, k: nat, amount: string, tag: string)
    requires AllWellFormed(body) && Increasing(body) && Plain(body) && k < |body| && body[k].tag == "58"
    ensures Value(Converted(body, k, amount), tag)
            == if tag == "54" then Some(amount) else if tag == "01" && HasTag(body, "01") then Some("12")
              else Value(body, tag)
  {
    var low, middle, high := body[..k], [Element("54", amount)], body[k..];
    assert body == low + high;
    AroundCountry(body, k);
    ValueAppend(low, high, tag);
    ValueAppend(Renew(low) + middle, high, tag);
    ValueAppend(Renew(low), middle, tag);
    RenewKeeps(low, tag);
    LacksHasNot(high, "01");
    LacksHasNot(body, "54");
    LacksHasNot(low, "54");
    assert middle[1..] == [];
    assert Value(middle, tag) == if tag == "54" then Some(amount) else None;
  }

  lemma ConvertedScan(body: seq<Element>, k: nat, amount: string)
    requires AllWellFormed(body) && k < |body|
    ensures ScanTemplates(Converted(body, k, amount)) == ScanTemplates(body)
  {
    var low, middle, high := body[..k], [Element("54", amount)], body[k..];
    assert body == low + high;
    ScanAppend(low, high);
    ScanAppend(Renew(low) + middle, high);
    ScanAppend(Renew(low), middle);
    RenewKeeps(low, "");
    assert middle[1..] == [] && TagNumber(middle[0]) == 54;
  }

  /** Tags 54 to 57 are absent, so the amount fits between tag 53 and tag 58. */
  lemma ConvertedIncreases(body: seq<Element>, k: nat, amount: string, crc: string)
    requires AllWellFormed(body) && Increasing(body + [Element("63", crc)]) && Plain(body) && k < |body|
      && body[k].tag == "58"
    ensures Increasing(Converted(body, k, amount) + [Element("63", crc)])
  {
    var before, after := body + [Element("63", crc)], Converted(body, k, amount) + [Element("63", crc)];
    forall i | 0 <= i < |after|
      ensures i < k ==> TagNumber(after[i]) == TagNumber(before[i]) < 54
      ensures i == k ==> TagNumber(after[i]) == 54
      ensures i > k ==> after[i] == before[i - 1] && TagNumber(before[i - 1]) >= 58
    {
      if i < k {
        assert before[i] == body[i] && before[k] == body[k];
        assert TagNumber(before[i]) < TagNumber(before[k]) == 58;
        BelowCountry(body[i]);
      } else if i > k {
        assert i - 1 > k ==> TagNumber(before[k]) < TagNumber(before[i - 1]);
      }
    }
    forall i, j | 0 <= i < j < |after| ensures TagNumber(after[i]) < TagNumber(after[j]) {
      if j < k {
        assert TagNumber(before[i]) < TagNumber(before[j]);
        assert TagNumber(after[i]) == TagNumber(before[i]) && TagNumber(after[j]) == TagNumber(before[j]);
      } else if k < i {
        assert TagNumber(before[i - 1]) < TagNumber(before[j - 1]);
        assert after[i] == before[i - 1] && after[j] == before[j - 1];
      } else {
        assert i <= k <= j;
        assert j > k ==> TagNumber(after[j]) == TagNumber(before[j - 1]) >= 58;
        assert i < k ==> TagNumber(after[i]) == TagNumber(before[i]) < 54;
      }
    }
  }

  lemma BelowCountry(element: Element)
    requires WellFormed(element) && !IsTransactionTag(element.tag) && TagNumber(element) < 58
    ensures TagNumber(element) < 54
  {
    TagsAreNumbers(element, Element("54", ""));
    TagsAreNumbers(element, Element("55", ""));
    TagsAreNumbers(element, Element("56", ""));
    TagsAreNumbers(element, Element("57", ""));
  }

  lemma ConvertedLength(body: seq<Element>, k: nat, amount: string)
    requires AllWellFormed(body) && k < |body| && |amount| <= 99
    requires forall i :: 0 <= i < |body| && body[i].tag == "01" ==> |body[i].value| == 2
    ensures AllWellFormed(Converted(body, k, amount))
    ensures |Encode(Converted(body, k, amount))| == |Encode(body)| + 4 + |amount|
  {
    var low, middle, high := body[..k], [Element("54", amount)], body[k..];
    assert body == low + high;
    EncodeAppend(low, high);
    RenewLength(low);
    EncodeAppend(Renew(low) + middle, high);
    EncodeAppend(Renew(low), middle);
    assert middle[1..] == [] && Encode(middle) == EncodeElement(middle[0]) + "";
  }

  // ----- back to the static payload -----

  function RestoreOne(element: Element): seq<Element> {
    if element.tag == "54" || element.tag == "63" then [] else if element.tag == "01" then [Element("01", "11")]
      else [element]
  }

  /** Tag 54 and the checksum removed, tag 01 set back. */
  function Restore(elements: seq<Element>): seq<Element> {
    if elements == [] then [] else RestoreOne(elements[0]) + Restore(elements[1..])
  }

  lemma {:induction false} RestoreAppend(first: seq<Element>, second: seq<Element>)
    ensures Restore(first + second) == Restore(first) + Restore(second)
  {
    if first == [] {
      assert first + second == second;
    } else {
      assert (first + second)[1..] == first[1..] + second;
      RestoreAppend(first[1..], second);
    }
  }

  lemma {:induction false} RestoreRenewed(elements: seq<Element>)
    requires Restorable(elements)
    ensures Restore(Renew(elements)) == elements && Restore(elements) == elements
  {
    if elements != [] {
      assert Renew(elements)[1..] == Renew(elements[1..]);
      RestoreRenewed(elements[1..]);
      assert elements == [elements[0]] + elements[1..];
    }
  }

  lemma RestoreParts(a: seq<Element>, b: seq<Element>, c: seq<Element>, d: seq<Element>)
    requires Restore(b) == [] && Restore(d) == []
    ensures Restore(a + b + c + d) == Restore(a) + Restore(c)
  {
    RestoreAppend(a + b + c, d);
    RestoreAppend(a + b, c);
    RestoreAppend(a, b);
    assert Restore(a) + [] == Restore(a);
    assert Restore(a + b + c) + [] == Restore(a + b + c);
  }

  lemma RestoreDropped(value: string)
    ensures Restore([Element("54", value)]) == [] && Restore([Element("63", value)]) == []
  {
    assert [Element("54", value)][1..] == [] && [Element("63", value)][1..] == [];
  }

  predicate Restorable(elements: seq<Element>) {
    Plain(elements) && forall i :: 0 <= i < |elements| && elements[i].tag == "01" ==> elements[i].value == "11"
  }

  lemma RestoreConverted(body: seq<Element>, k: nat, amount: string, crc: string)
    requires Restorable(body) && k < |body|
    ensures Restore(Converted(body, k, amount) + [Element("63", crc)]) == body
  {
    RestoreDropped(amount);
    RestoreDropped(crc);
    SplitRestorable(body, k);
    RestoreHalves(body[..k], body[k..]);
    RestoreParts(Renew(body[..k]), [Element("54", amount)], body[k..], [Element("63", crc)]);
  }

  lemma SplitRestorable(body: seq<Element>, k: nat)
    requires Restorable(body) && k <= |body|
    ensures Restorable(body[..k]) && Restorable(body[k..]) && body[..k] + body[k..] == body
  {
    forall i | 0 <= i < |body[k..]| ensures body[k..][i] == body[k + i] {
    }
  }

  lemma RestoreHalves(low: seq<Element>, high: seq<Element>)
    requires Restorable(low) && Restorable(high)
    ensures Restore(Renew(low)) + Restore(high) == low + high
  {
    RestoreRenewed(low);
    RestoreRenewed(high);
  }

  // ----- the theorem -----

  lemma OnlyValue(elements: seq<Element>, i: nat)
    requires AllWellFormed(elements) && Increasing(elements) && i < |elements|
    ensures Value(elements, elements[i].tag) == Some(elements[i].value)
  {
    var tag := elements[i].tag;
    ValueAt(elements, tag);
    var j :| 0 <= j < |elements| && elements[j] == Element(tag, Value(elements, tag).value);
    TagsAreNumbers(elements[i], elements[j]);
    assert i == j;
  }

  /** Everything the static check establishes about the elements before the checksum. */
  ghost predicate StaticBody(body: seq<Element>, k: nat, crc: string) {
    && AllWellFormed(body) && Plain(body) && Increasing(body + [Element("63", crc)])
       && MerchantFields(body + [Element("63", crc)])
    && (forall i :: 0 <= i < |body| ==> Printable(body[i].value))
    && (forall i :: 0 <= i < |body| && body[i].tag == "01" ==> body[i].value == "11")
    && k < |body| && body[k].tag == "58"
  }

  lemma StaticElements(value: string) returns (payload: string, elements: seq<Element>)
    requires ValidateStaticQris(value).Some?
    ensures payload == ValidateStaticQris(value).value.payload && Parse(payload) == Elements(elements)
    ensures Accepted(payload, elements) && Printable(payload) && Value(elements, "01") == Some("11")
      && !HasTransactionTag(elements)
  {
    payload := Trim(value);
    elements := Parse(payload).elements;
  }

  lemma NoTransactionTags(elements: seq<Element>, body: seq<Element>, crc: string)
    requires AllWellFormed(elements) && Increasing(elements) && elements == body + [Element("63", crc)]
      && !HasTransactionTag(elements)
    ensures Plain(body)
  {
    ValueAt(elements, "54");
    ValueAt(elements, "55");
    ValueAt(elements, "56");
    ValueAt(elements, "57");
    forall i | 0 <= i < |body| ensures !IsTransactionTag(body[i].tag) {
      assert body[i] == elements[i];
      TagsAreNumbers(body[i], elements[|body|]);
      assert TagNumber(elements[i]) < TagNumber(elements[|body|]);
    }
  }

  lemma BodyFacts(payload: string, elements: seq<Element>, body: seq<Element>, crc: string) returns (k: nat)
    requires Parse(payload) == Elements(elements) && AllWellFormed(elements) && elements == body + [Element("63", crc)]
    requires Increasing(elements) && MerchantFields(elements) && Printable(payload)
      && Value(elements, "01") == Some("11")
    ensures forall i :: 0 <= i < |body| ==> Printable(body[i].value)
    ensures forall i :: 0 <= i < |body| && body[i].tag == "01" ==> body[i].value == "11"
    ensures k < |body| && body[k].tag == "58"
  {
    ParseInvertsEncode(payload, elements);
    PrintableEncode(elements);
    assert forall i :: 0 <= i < |body| ==> body[i] == elements[i];
    forall i | 0 <= i < |body| && body[i].tag == "01" ensures body[i].value == "11" { OnlyValue(elements, i); }
    ValueAt(elements, "58");
    k :| 0 <= k < |elements| && elements[k].tag == "58";
  }

  lemma SealOfAccepted(payload: string, elements: seq<Element>, body: seq<Element>)
    requires Parse(payload) == Elements(elements) && Accepted(payload, elements) && body == elements[..|elements| - 1]
    ensures AllWellFormed(elements) && AllWellFormed(body)
    ensures |payload| == |Seal(body)| && Seal(body) == payload[..|payload| - 4] + Upper(payload[|payload| - 4..])
  {
    AcceptedShape(payload, elements);
  }

  lemma StaticParts(value: string) returns (body: seq<Element>, k: nat, crc: string)
    requires ValidateStaticQris(value).Some?
    ensures StaticBody(body, k, crc)
    ensures var payload := ValidateStaticQris(value).value.payload;
      && Parse(payload) == Elements(body + [Element("63", crc)]) && |payload| == |Seal(body)|
      && Seal(body) == payload[..|payload| - 4] + Upper(payload[|payload| - 4..])
  {
    var payload, elements := StaticElements(value);
    body, crc := elements[..|elements| - 1], elements[|elements| - 1].value;
    assert elements == body + [Element("63", crc)];
    SealOfAccepted(payload, elements, body);
    NoTransactionTags(elements, body, crc);
    k := BodyFacts(payload, elements, body, crc);
  }

  lemma FieldsTransfer(before: seq<Element>, after: seq<Element>)
    requires MerchantFields(before) && ScanTemplates(after) == ScanTemplates(before) && Value(after, "01") == Some("12")
    requires Value(after, "00") == Value(before, "00") && Value(after, "52") == Value(before, "52")
      && Value(after, "53") == Value(before, "53")
    requires Value(after, "58") == Value(before, "58") && Value(after, "59") == Value(before, "59")
      && Value(after, "60") == Value(before, "60")
    ensures MerchantFields(after)
  {
  }

  lemma SealedValue(body: seq<Element>, k: nat, crc: string, amount: string, sum: string, tag: string)
    requires StaticBody(body, k, crc) && tag != "63"
    ensures Value(body, tag) == Value(body + [Element("63", crc)], tag)
    ensures Value(Converted(body, k, amount) + [Element("63", sum)], tag)
            == if tag == "54" then Some(amount) else if tag == "01" && HasTag(body, "01") then Some("12")
              else Value(body, tag)
  {
    BodyIncreases(body, crc);
    ConvertedValue(body, k, amount, tag);
    ValueAppend(body, [Element("63", crc)], tag);
    ValueAppend(Converted(body, k, amount), [Element("63", sum)], tag);
    LoneSeal(crc, tag);
    LoneSeal(sum, tag);
  }

  lemma BodyIncreases(body: seq<Element>, crc: string)
    requires Increasing(body + [Element("63", crc)])
    ensures Increasing(body)
  {
    var whole := body + [Element("63", crc)];
    assert forall i :: 0 <= i < |body| ==> whole[i] == body[i];
  }

  lemma SealedScan(body: seq<Element>, k: nat, crc: string, amount: string, sum: string)
    requires AllWellFormed(body) && k < |body|
    ensures ScanTemplates(Converted(body, k, amount) + [Element("63", sum)])
      == ScanTemplates(body + [Element("63", crc)])
  {
    ConvertedScan(body, k, amount);
    ScanAppend(body, [Element("63", crc)]);
    ScanAppend(Converted(body, k, amount), [Element("63", sum)]);
    LoneSeal(crc, "");
    LoneSeal(sum, "");
  }

  /** The fields that parseQris checks are those of the static payload. */
  lemma FieldsCarryOver(body: seq<Element>, k: nat, crc: string, amount: string, sum: string)
    requires StaticBody(body, k, crc)
    ensures var before, after := body + [Element("63", crc)], Converted(body, k, amount) + [Element("63", sum)];
      && MerchantFields(after) && Value(after, "01") == Some("12") && Value(after, "54") == Some(amount)
      && Value(after, "59") == Value(before, "59") && Value(after, "60") == Value(before, "60")
  {
    var before, after := body + [Element("63", crc)], Converted(body, k, amount) + [Element("63", sum)];
    SealedValue(body, k, crc, amount, sum, "00");
    SealedValue(body, k, crc, amount, sum, "01");
    SealedValue(body, k, crc, amount, sum, "52");
    SealedValue(body, k, crc, amount, sum, "53");
    SealedValue(body, k, crc, amount, sum, "54");
    SealedValue(body, k, crc, amount, sum, "58");
    SealedValue(body, k, crc, amount, sum, "59");
    SealedValue(body, k, crc, amount, sum, "60");
    SealedScan(body, k, crc, amount, sum);
    FieldsTransfer(before, after);
  }

  lemma LoneSeal(crc: string, tag: string)
    ensures Value([Element("63", crc)], tag) == if tag == "63" then Some(crc) else None
    ensures ScanTemplates([Element("63", crc)]) == NotFound
  {
    assert [Element("63", crc)][1..] == [];
    assert TagNumber(Element("63", crc)) == 63;
  }

  lemma RevalidatedSeal(converted: seq<Element>, amount: string)
    requires AllWellFormed(converted)
    ensures var parsed := ParseQris(Seal(converted));
      Revalidated(converted, amount)
      == if parsed.None? || parsed.value.isStatic || parsed.value.amount != Some(amount) then None else parsed
  {
    assert forall i :: 0 <= i < |converted| ==> WellFormed(converted[i]);
  }

  lemma CreateUnfolds(value: string, amount: int, source: seq<Element>)
    requires ValidateStaticQris(value).Some? && 0 < amount <= MAX_AMOUNT
    requires Parse(ValidateStaticQris(value).value.payload) == Elements(source) && HasTag(source, "58")
    ensures CreateDynamicQris(value, amount) == Revalidated(Convert(source, Decimal(amount), false), Decimal(amount))
  {
  }

  /** The converted body of a static payload, sealed, is what createDynamicQris parses again. */
  lemma DynamicIsSeal(value: string, amount: int, body: seq<Element>, k: nat, crc: string)
    requires ValidateStaticQris(value).Some? && 0 < amount <= MAX_AMOUNT && StaticBody(body, k, crc)
    requires Parse(ValidateStaticQris(value).value.payload) == Elements(body + [Element("63", crc)])
    ensures AllWellFormed(Converted(body, k, Decimal(amount)))
    ensures var parsed := ParseQris(Seal(Converted(body, k, Decimal(amount))));
      CreateDynamicQris(value, amount)
      == if parsed.None? || parsed.value.isStatic || parsed.value.amount != Some(Decimal(amount)) then None else parsed
  {
    assert PowerOfTen(8) == 100_000_000 by { assert PowerOfTen(4) == 10000; }
    DecimalLength(amount, 8);
    ConvertedLength(body, k, Decimal(amount));
    ConvertSource(body, k, crc, Decimal(amount));
    CreateUnfolds(value, amount, body + [Element("63", crc)]);
    RevalidatedSeal(Converted(body, k, Decimal(amount)), Decimal(amount));
  }

  lemma ConvertSource(body: seq<Element>, k: nat, crc: string, text: string)
    requires StaticBody(body, k, crc)
    ensures Convert(body + [Element("63", crc)], text, false) == Converted(body, k, text)
    ensures HasTag(body + [Element("63", crc)], "58")
  {
    var last := [Element("63", crc)];
    BodyIncreases(body, crc);
    ConvertShape(body, k, text);
    ConvertAppend(body, last, text, false);
    assert last[1..] == [] && Convert(last, text, HasTag(body, "58")) == [];
    ValueAt(body + last, "58");
  }

  lemma StaticNames(value: string, elements: seq<Element>)
    requires ValidateStaticQris(value).Some? && Parse(ValidateStaticQris(value).value.payload) == Elements(elements)
    ensures HasTag(elements, "59") && ValidateStaticQris(value).value.merchantName == Trim(Value(elements, "59").value)
    ensures HasTag(elements, "60") && ValidateStaticQris(value).value.merchantCity == Trim(Value(elements, "60").value)
  {
  }

  lemma DynamicParts(value: string, amount: int) returns (body: seq<Element>, k: nat, crc: string)
    requires ValidateStaticQris(value).Some? && 0 < amount <= MAX_AMOUNT
    ensures StaticBody(body, k, crc) && AllWellFormed(Converted(body, k, Decimal(amount)))
    ensures var fixed, dynamic := ValidateStaticQris(value).value, CreateDynamicQris(value, amount);
      && |fixed.payload| == |Seal(body)|
      && Seal(body) == fixed.payload[..|fixed.payload| - 4] + Upper(fixed.payload[|fixed.payload| - 4..])
      && (dynamic.Some? <==> |fixed.payload| + 4 + |Decimal(amount)| <= MAX_PAYLOAD)
      && (dynamic.Some? ==>
            && dynamic.value.payload == Seal(Converted(body, k, Decimal(amount)))
               && dynamic == ParseQris(dynamic.value.payload)
            && !dynamic.value.isStatic && dynamic.value.amount == Some(Decimal(amount))
            && dynamic.value.merchantName == fixed.merchantName && dynamic.value.merchantCity == fixed.merchantCity)
  {
    body, k, crc := StaticParts(value);
    StaticNames(value, body + [Element("63", crc)]);
    DynamicIsSeal(value, amount, body, k, crc);
    assert PowerOfTen(8) == 100_000_000 by { assert PowerOfTen(4) == 10000; }
    DecimalLength(amount, 8);
    ConvertedSeals(body, k, crc, Decimal(amount));
  }

  /** For every valid static payload and amount the conversion succeeds exactly when the grown
      payload still fits, and then the result parses as dynamic with exactly that amount and the
      same merchant. */
  lemma DynamicExactly(value: string, amount: int)
    requires ValidateStaticQris(value).Some? && 0 < amount <= MAX_AMOUNT
    ensures var fixed, dynamic := ValidateStaticQris(value).value, CreateDynamicQris(value, amount);
      && (dynamic.Some? <==> |fixed.payload| + 4 + |Decimal(amount)| <= MAX_PAYLOAD)
      && (dynamic.Some? ==>
            && ParseQris(dynamic.value.payload) == dynamic
            && !dynamic.value.isStatic
            && dynamic.value.amount == Some(Decimal(amount)) && DecimalValue(Decimal(amount)) == amount
            && dynamic.value.merchantName == fixed.merchantName && dynamic.value.merchantCity == fixed.merchantCity)
  {
    var _, _, _ := DynamicParts(value, amount);
    DecimalReadsBack(amount);
  }

  /** Restoring a dynamic payload gives the static one up to the letter case of its checksum. */
  lemma DynamicUndone(value: string, amount: int)
    requires ValidateStaticQris(value).Some? && 0 < amount <= MAX_AMOUNT && CreateDynamicQris(value, amount).Some?
    ensures var fixed, dynamic := ValidateStaticQris(value).value, CreateDynamicQris(value, amount).value;
      && Parse(dynamic.payload).Elements?
      && var back := Restore(Parse(dynamic.payload).elements);
      && AllWellFormed(back)
      && Seal(back) == fixed.payload[..|fixed.payload| - 4] + Upper(fixed.payload[|fixed.payload| - 4..])
  {
    var body, k, crc := DynamicParts(value, amount);
    SealRestores(body, k, crc, Decimal(amount));
  }

  lemma SealRestores(body: seq<Element>, k: nat, crc: string, text: string)
    requires StaticBody(body, k, crc) && AllWellFormed(Converted(body, k, text))
    ensures Parse(Seal(Converted(body, k, text))).Elements?
    ensures Restore(Parse(Seal(Converted(body, k, text))).elements) == body
  {
    var converted := Converted(body, k, text);
    RestoreConverted(body, k, text, Checksum(Encode(converted) + CRC_TAG_PREFIX));
    SealParses(converted);
  }

  lemma SealLength(body: seq<Element>)
    requires AllWellFormed(body)
    ensures |Seal(body)| == |Encode(body)| + 8
  {
  }

  lemma ConvertedPrints(body: seq<Element>, k: nat, text: string)
    requires k < |body| && (forall i :: 0 <= i < |body| ==> Printable(body[i].value))
      && forall i :: 0 <= i < |text| ==> IsDigit(text[i])
    ensures forall i :: 0 <= i < |Converted(body, k, text)| ==> Printable(Converted(body, k, text)[i].value)
  {
  }

  lemma ConvertedSeals(body: seq<Element>, k: nat, crc: string, text: string)
    requires StaticBody(body, k, crc) && |text| <= 99 && AllWellFormed(Converted(body, k, text))
    requires forall i :: 0 <= i < |text| ==> IsDigit(text[i])
    ensures var converted, before := Converted(body, k, text), body + [Element("63", crc)];
      var parsed := ParseQris(Seal(converted));
      && |Seal(converted)| == |Seal(body)| + 4 + |text|
      && (parsed.Some? <==> |Seal(converted)| <= MAX_PAYLOAD)
      && (parsed.Some? ==>
            && parsed.value.payload == Seal(converted) && !parsed.value.isStatic && parsed.value.amount == Some(text)
            && HasTag(before, "59") && parsed.value.merchantName == Trim(Value(before, "59").value)
            && HasTag(before, "60") && parsed.value.merchantCity == Trim(Value(before, "60").value))
  {
    var converted := Converted(body, k, text);
    var sum := Checksum(Encode(converted) + CRC_TAG_PREFIX);
    ConvertedLength(body, k, text);
    SealLength(converted);
    SealLength(body);
    ConvertedIncreases(body, k, text, crc);
    SealChangesNothing(converted, crc, sum);
    FieldsCarryOver(body, k, crc, text, sum);
    ConvertedPrints(body, k, text);
    SealIsAccepted(converted);
  }

  lemma SealChangesNothing(body: seq<Element>, crc: string, sum: string)
    requires Increasing(body + [Element("63", crc)])
    ensures Increasing(body + [Element("63", sum)])
  {
    var before, after := body + [Element("63", crc)], body + [Element("63", sum)];
    assert forall i :: 0 <= i < |after| ==> TagNumber(after[i]) == TagNumber(before[i]);
  }

  /** Only whole amounts from one to ten million rupiah make a dynamic payload, and they are written
      without padding. */
  lemma AmountsAllowed(value: string, amount: int)
    ensures ValidateQrisAmount(amount).Some? <==> 0 < amount <= 10_000_000
    ensures ValidateQrisAmount(amount).Some? ==>
      ValidateQrisAmount(amount) == Some(Decimal(amount)) && DecimalValue(Decimal(amount)) == amount
    ensures CreateDynamicQris(value, amount).Some? ==> 0 < amount <= 10_000_000
  {
    if amount > 0 { DecimalReadsBack(amount); }
  }
}
