/** Payloads that show the QRIS theorems speak about something, and where the validators differ. */
module QrisSamples {
  import opened LocalTables
  import opened Numerals
  import opened Tlv
  import opened QrisText
  import opened Qris
  import opened QrisDynamic
  import opened QrisPayload

  // the elements of a small merchant payload before its checksum, around a possible second template
  const FIRST: seq<Element> := [Element("00", "01"), Element("01", "11"), Element("26", "0002ID")]
  const REST: seq<Element> := [
    Element("52", "5999"), Element("53", "360"), Element("58", "ID"), Element("59", "A"), Element("60", "B")]

  predicate SecondTemplate(extra: seq<Element>) {
    |extra| <= 1 && forall i :: 0 <= i < |extra| ==>
      extra[i].tag == "27" && |extra[i].value| <= 99 && Printable(extra[i].value)
  }

  function Body(extra: seq<Element>): seq<Element> { FIRST + extra + REST }

  function Whole(extra: seq<Element>, crc: string): seq<Element> { Body(extra) + [Element("63", crc)] }

  lemma SampleTemplate()
    ensures GoodTemplate("0002ID") && !BrokenTemplate("0002ID")
  {
    var inner := [Element("00", "ID")];
    assert Padded(2) == "02";
    assert Encode(inner) == EncodeElement(inner[0]) + Encode(inner[1..]);
    assert Encode(inner) == "0002ID";
    ParseInvertsEncode("0002ID", inner);
  }

  lemma FirstTags()
    ensures AllWellFormed(FIRST) && forall i :: 0 <= i < 3 ==>
      TagNumber(FIRST[i]) == [0, 1, 26][i] && Printable(FIRST[i].value)
  {
  }

  lemma RestTags()
    ensures AllWellFormed(REST) && forall i :: 0 <= i < 5 ==>
      TagNumber(REST[i]) == [52, 53, 58, 59, 60][i] && Printable(REST[i].value)
  {
  }

  lemma TemplateTag(element: Element)
    requires element.tag == "27" || element.tag == "63"
    ensures TwoDigits(element.tag) && TagNumber(element) == if element.tag == "27" then 27 else 63
  {
  }

  lemma BodyIsSound(extra: seq<Element>)
    requires SecondTemplate(extra)
    ensures AllWellFormed(Body(extra)) && |Body(extra)| <= 9 && forall i :: 0 <= i < |Body(extra)| ==>
      Printable(Body(extra)[i].value)
  {
    FirstTags();
    RestTags();
    if extra != [] { TemplateTag(extra[0]); }
  }

  predicate TagsBetween(elements: seq<Element>, from: nat, to: nat) {
    AllWellFormed(elements) && Increasing(elements) && forall i :: 0 <= i < |elements| ==>
      from <= TagNumber(elements[i]) < to
  }

  lemma TagsJoin(a: seq<Element>, b: seq<Element>, from: nat, mid: nat, to: nat)
    requires from <= mid <= to && TagsBetween(a, from, mid) && TagsBetween(b, mid, to)
    ensures TagsBetween(a + b, from, to)
  {
  }

  lemma WholeBelow(extra: seq<Element>, crc: string)
    requires SecondTemplate(extra) && |crc| <= 99
    ensures TagsBetween(Whole(extra, crc), 0, 64)
  {
    FirstTags();
    RestTags();
    TemplateTag(Element("63", crc));
    if extra != [] { TemplateTag(extra[0]); }
    TagsJoin(FIRST, extra, 0, 27, 28);
    TagsJoin(FIRST + extra, REST, 0, 28, 63);
    TagsJoin(Body(extra), [Element("63", crc)], 0, 63, 64);
  }

  lemma WholeIncreases(extra: seq<Element>, crc: string)
    requires SecondTemplate(extra) && |crc| <= 99
    ensures AllWellFormed(Whole(extra, crc)) && Increasing(Whole(extra, crc))
  {
    WholeBelow(extra, crc);
  }

  lemma FirstValue(extra: seq<Element>, crc: string, i: nat)
    requires SecondTemplate(extra) && |crc| <= 99 && i < 3
    ensures Value(Whole(extra, crc), FIRST[i].tag) == Some(FIRST[i].value)
  {
    WholeIncreases(extra, crc);
    assert Whole(extra, crc)[i] == FIRST[i];
    OnlyValue(Whole(extra, crc), i);
  }

  lemma RestValue(extra: seq<Element>, crc: string, i: nat)
    requires SecondTemplate(extra) && |crc| <= 99 && i < 5
    ensures Value(Whole(extra, crc), REST[i].tag) == Some(REST[i].value)
  {
    WholeIncreases(extra, crc);
    assert Whole(extra, crc)[3 + |extra| + i] == REST[i];
    OnlyValue(Whole(extra, crc), 3 + |extra| + i);
  }

  lemma ScanFindsFirst(elements: seq<Element>)
    requires |elements| >= 3 && elements[..3] == FIRST
    ensures ScanTemplates(elements) == Found
  {
    FirstTags();
    SampleTemplate();
    assert elements[0] == FIRST[0] && elements[1] == FIRST[1] && elements[2] == FIRST[2];
    assert elements[1..][0] == elements[1] && elements[1..][1..] == elements[2..] && elements[2..][0] == elements[2];
    assert ScanTemplates(elements[2..]) == Found;
    assert ScanTemplates(elements[1..]) == Found;
  }

  lemma SampleFields(extra: seq<Element>, crc: string)
    requires SecondTemplate(extra) && |crc| <= 99
    ensures MerchantFields(Whole(extra, crc)) && Value(Whole(extra, crc), "01") == Some("11")
  {
    FirstValue(extra, crc, 0);
    FirstValue(extra, crc, 1);
    RestValue(extra, crc, 0);
    RestValue(extra, crc, 1);
    RestValue(extra, crc, 2);
    RestValue(extra, crc, 3);
    RestValue(extra, crc, 4);
    assert Whole(extra, crc)[..3] == FIRST;
    ScanFindsFirst(Whole(extra, crc));
    assert !IsSpace('A') && !IsSpace('B');
  }

  lemma SampleHasNo(extra: seq<Element>, crc: string, tag: string)
    requires SecondTemplate(extra) && |crc| <= 99 && TwoDigits(tag) && 54 <= Number(tag) <= 57
    ensures !HasTag(Whole(extra, crc), tag)
  {
    var whole := Whole(extra, crc);
    WholeIncreases(extra, crc);
    FirstTags();
    RestTags();
    TemplateTag(Element("63", crc));
    if extra != [] { TemplateTag(extra[0]); }
    forall i | 0 <= i < |whole| ensures whole[i].tag != tag {
      assert whole[i] in FIRST || whole[i] in extra || whole[i] in REST || whole[i] == Element("63", crc);
      TagsAreNumbers(whole[i], Element(tag, ""));
    }
    ValueAt(whole, tag);
  }

  lemma {:induction false} EncodeIsShort(elements: seq<Element>)
    requires AllWellFormed(elements)
    ensures |Encode(elements)| <= 103 * |elements|
  {
    if elements != [] { EncodeIsShort(elements[1..]); }
  }

  lemma SampleParses(extra: seq<Element>)
    requires SecondTemplate(extra)
    ensures AllWellFormed(Body(extra))
    ensures var payload := Seal(Body(extra));
      && Trimmed(payload) && ParseQris(payload).Some?
      && ParseQris(payload).value.payload == payload && ParseQris(payload).value.isStatic
  {
    BodyIsSound(extra);
    var crc := Checksum(Encode(Body(extra)) + CRC_TAG_PREFIX);
    WholeIncreases(extra, crc);
    SampleFields(extra, crc);
    EncodeIsShort(Body(extra));
    SealLength(Body(extra));
    SealIsTrimmed(Body(extra));
    SealIsAccepted(Body(extra));
  }

  lemma SampleElements(extra: seq<Element>)
    requires SecondTemplate(extra)
    ensures AllWellFormed(Body(extra)) && Parse(Seal(Body(extra))).Elements?
    ensures var elements := ElementsOf(Seal(Body(extra)));
      && elements == Whole(extra, Checksum(Encode(Body(extra)) + CRC_TAG_PREFIX)) && !HasTransactionTag(elements)
  {
    BodyIsSound(extra);
    var crc := Checksum(Encode(Body(extra)) + CRC_TAG_PREFIX);
    SealParses(Body(extra));
    SampleHasNo(extra, crc, "54");
    SampleHasNo(extra, crc, "55");
    SampleHasNo(extra, crc, "56");
    SampleHasNo(extra, crc, "57");
  }

  /** Some static payload is valid, with or without a second template, whatever that one holds. */
  lemma SomePayloadIsValid(extra: seq<Element>)
    requires SecondTemplate(extra)
    ensures AllWellFormed(Body(extra)) && ValidateStaticQris(Seal(Body(extra))).Some?
  {
    SampleParses(extra);
    SampleElements(extra);
  }

  // ----- where the validators differ -----

  lemma BrokenAmong(payload: string, elements: seq<Element>, i: nat)
    requires Parse(payload) == Elements(elements) && i < |elements| && elements[|elements| - 1].tag == "63"
    requires IsTemplate(elements[i]) && !InOrder(elements[i].value)
    ensures EndsWithSeal(payload) && !TemplatesSound(payload)
  {
    assert ElementsOf(payload) == elements;
  }

  lemma SecondStands(extra: seq<Element>, crc: string)
    requires |extra| == 1
    ensures var whole := Whole(extra, crc); |whole| == 10 && whole[3] == extra[0] && whole[9].tag == "63"
  {
  }

  /** A second template that is not in order is not looked at by the app and refused by the backend. */
  lemma SecondTemplateUnchecked(extra: seq<Element>)
    requires SecondTemplate(extra) && |extra| == 1 && extra[0].value != "" && !InOrder(extra[0].value)
    ensures AllWellFormed(Body(extra))
    ensures ValidateStaticQris(Seal(Body(extra))).Some? && !BackendAccepts(Seal(Body(extra)))
  {
    var payload := Seal(Body(extra));
    var crc := Checksum(Encode(Body(extra)) + CRC_TAG_PREFIX);
    SomePayloadIsValid(extra);
    SampleElements(extra);
    SecondStands(extra, crc);
    TemplateTag(extra[0]);
    BrokenAmong(payload, Whole(extra, crc), 3);
    ValidatorsAgree(payload);
  }

  lemma SpacedIsTrimmed(payload: string)
    requires Trimmed(payload) && payload != ""
    ensures Trim(" " + payload) == payload
  {
    assert (" " + payload)[1..] == payload;
    assert TrimStart(" " + payload) == TrimStart(payload) == payload;
    TrimIsTrimmed(payload);
  }

  lemma SpacedIsRefused(payload: string)
    requires Trimmed(payload) && payload != ""
    ensures ValidateStaticQris(" " + payload) == ValidateStaticQris(payload) && !BackendAccepts(" " + payload)
  {
    SpacedIsTrimmed(payload);
    TrimIsTrimmed(payload);
    var spaced := " " + payload;
    assert spaced[0] == ' ' && !IsDigit(' ');
    assert |spaced| >= 4 ==> spaced[0..2][0] == ' ';
    assert Parse(spaced).Malformed?;
  }

  const BROKEN: seq<Element> := [Element("27", "X")]

  /** Two payloads that the app accepts and the backend refuses: one with a second merchant template
      that is broken, and one with a space before it. */
  lemma ValidatorsDiffer()
    ensures AllWellFormed(Body(BROKEN)) && AllWellFormed(Body([]))
    ensures ValidateStaticQris(Seal(Body(BROKEN))).Some? && !BackendAccepts(Seal(Body(BROKEN)))
    ensures ValidateStaticQris(" " + Seal(Body([]))).Some? && !BackendAccepts(" " + Seal(Body([])))
  {
    assert Parse("X").Malformed?;
    SecondTemplateUnchecked(BROKEN);
    SomePayloadIsValid([]);
    SampleParses([]);
    SpacedIsRefused(Seal(Body([])));
  }
}
