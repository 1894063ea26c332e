/** QRIS payloads in the app: parsing, the static check and the conversion to a dynamic payload. */
module Qris {
  import opened LocalTables
  import opened Numerals
  import opened Tlv
  import opened QrisText

  const MAX_PAYLOAD: nat := 2048
  const MAX_AMOUNT: nat := 10_000_000
  const CRC_TAG_PREFIX := "6304"

  datatype ParsedQris = ParsedQris(payload: string, isStatic: bool, merchantName: string, merchantCity: string,
      amount: Option<string>)

  /** The value of a tag; validateElementCollection has left at most one. */
  function Value(elements: seq<Element>, tag: string): Option<string> {
    if elements == [] then None
    else if elements[0].tag == tag then Some(elements[0].value)
    else Value(elements[1..], tag)
  }

  predicate HasTag(elements: seq<Element>, tag: string) { Value(elements, tag).Some? }

  predicate IsTemplate(element: Element) {
    26 <= TagNumber(element) <= 51 && element.value != ""
  }

  /** A template parses, is in order and names its domain in a nonempty tag 00. */
  predicate GoodTemplate(value: string) {
    && Parse(value).Elements? && Increasing(Parse(value).elements)
    && HasTag(Parse(value).elements, "00") && Value(Parse(value).elements, "00") != Some("")
  }

  predicate BrokenTemplate(value: string) {
    Parse(value).Malformed? || !Increasing(Parse(value).elements)
  }

  /** elements.some over the templates: the first good one decides, a broken one before it throws. */
  datatype Scan = Found | NotFound | Throws

  function ScanTemplates(elements: seq<Element>): Scan {
    if elements == [] then NotFound
    else if !IsTemplate(elements[0]) then ScanTemplates(elements[1..])
    else if BrokenTemplate(elements[0].value) then Throws
    else if GoodTemplate(elements[0].value) then Found
    else ScanTemplates(elements[1..])
  }

  predicate FourDigits(s: string) { |s| == 4 && forall i :: 0 <= i < 4 ==> IsDigit(s[i]) }

  predicate MerchantFields(elements: seq<Element>) {
    && Value(elements, "00") == Some("01")
    && (Value(elements, "01") == Some("11") || Value(elements, "01") == Some("12"))
    && HasTag(elements, "52") && FourDigits(Value(elements, "52").value)
    && Value(elements, "53") == Some("360")
    && Value(elements, "58") == Some("ID")
    && HasTag(elements, "59") && !Blank(Value(elements, "59").value)
    && HasTag(elements, "60") && !Blank(Value(elements, "60").value)
    && ScanTemplates(elements) == Found
  }

  predicate SealedBy(payload: string, last: Element) {
    && last.tag == "63" && |last.value| == 4 && |payload| >= 4
    && Upper(last.value) == Checksum(payload[..|payload| - 4])
  }

  predicate Accepted(payload: string, elements: seq<Element>) {
    Increasing(elements) && MerchantFields(elements) && elements != [] && SealedBy(payload, elements[|elements| - 1])
  }

  /** None: it throws. */
  function ParseQris(value: string): (parsed: Option<ParsedQris>)
  {
    var payload := Trim(value);
    if payload == "" || |payload| > MAX_PAYLOAD || !Printable(payload) then None
    else
      match Parse(payload)
      case Malformed(_) => None
      case Elements(elements) =>
        if !Accepted(payload, elements) then None
        else Some(ParsedQris(
          payload,
          Value(elements, "01") == Some("11"),
          Trim(Value(elements, "59").value),
          Trim(Value(elements, "60").value),
          Value(elements, "54")))
  }

  predicate HasTransactionTag(elements: seq<Element>) {
    HasTag(elements, "54") || HasTag(elements, "55") || HasTag(elements, "56") || HasTag(elements, "57")
  }

  function ValidateStaticQris(value: string): Option<ParsedQris> {
    var parsed := ParseQris(value);
    if parsed.None? || !parsed.value.isStatic then None
    else if Parse(parsed.value.payload).Elements? && HasTransactionTag(Parse(parsed.value.payload).elements) then None
    else parsed
  }

  function ValidateQrisAmount(amount: int): Option<string> {
    if 0 < amount <= MAX_AMOUNT then Some(Decimal(amount)) else None
  }

  predicate IsTransactionTag(tag: string) {
    tag == "54" || tag == "55" || tag == "56" || tag == "57" || tag == "63"
  }

  function ConvertOne(element: Element, amount: string, inserted: bool): seq<Element> {
    if IsTransactionTag(element.tag) then []
    else if element.tag == "01" then [Element("01", "12")]
    else if element.tag == "58" && !inserted then [Element("54", amount), element]
    else [element]
  }

  function Convert(elements: seq<Element>, amount: string, inserted: bool): seq<Element> {
    if elements == [] then []
    else ConvertOne(elements[0], amount, inserted) + Convert(elements[1..], amount, inserted || elements[0].tag == "58")
  }

  /** The converted elements are encoded, sealed and parsed again. */
  function Revalidated(converted: seq<Element>, amount: string): Option<ParsedQris> {
    if exists i :: 0 <= i < |converted| && |converted[i].value| > 99 then None
    else
      var crcInput := Encode(converted) + CRC_TAG_PREFIX;
      var validated := ParseQris(crcInput + Checksum(crcInput));
      if validated.None? || validated.value.isStatic || validated.value.amount != Some(amount) then None else validated
  }

  function CreateDynamicQris(staticPayload: string, amount: int): Option<ParsedQris> {
    var parsed, text := ValidateStaticQris(staticPayload), ValidateQrisAmount(amount);
    if parsed.None? || text.None? || Parse(parsed.value.payload).Malformed? then None
    else
      var source := Parse(parsed.value.payload).elements;
      if !HasTag(source, "58") then None else Revalidated(Convert(source, text.value, false), text.value)
  }

  // ----- the shape of an accepted payload -----

  lemma {:induction false} ValueAt(elements: seq<Element>, tag: string)
    ensures HasTag(elements, tag) <==> exists i :: 0 <= i < |elements| && elements[i].tag == tag
    ensures HasTag(elements, tag)
      ==> exists i :: 0 <= i < |elements| && elements[i] == Element(tag, Value(elements, tag).value)
  {
    if elements != [] {
      ValueAt(elements[1..], tag);
      assert forall i :: 0 < i < |elements| ==> elements[i] == elements[1..][i - 1];
      assert forall i :: 0 <= i < |elements[1..]| ==> elements[1..][i] == elements[i + 1];
      assert elements[0].tag == tag ==> elements[0] == Element(tag, elements[0].value);
    }
  }

  lemma {:induction false} ValueAppend(first: seq<Element>, second: seq<Element>, tag: string)
    ensures Value(first + second, tag) == if HasTag(first, tag) then Value(first, tag) else Value(second, tag)
  {
    if first == [] {
      assert first + second == second;
    } else {
      assert (first + second)[1..] == first[1..] + second;
      ValueAppend(first[1..], second, tag);
    }
  }

  lemma {:induction false} ScanAppend(first: seq<Element>, second: seq<Element>)
    ensures ScanTemplates(first + second) == if ScanTemplates(first) == NotFound then ScanTemplates(second)
      else ScanTemplates(first)
  {
    if first == [] {
      assert first + second == second;
    } else {
      assert (first + second)[1..] == first[1..] + second;
      ScanAppend(first[1..], second);
    }
  }

  lemma {:induction false} ConvertAppend(first: seq<Element>, second: seq<Element>, amount: string, inserted: bool)
    ensures Convert(first + second, amount, inserted)
            == Convert(first, amount, inserted) + Convert(second, amount, inserted || HasTag(first, "58"))
  {
    if first == [] {
      assert first + second == second;
    } else {
      assert (first + second)[1..] == first[1..] + second;
      ConvertAppend(first[1..], second, amount, inserted || first[0].tag == "58");
    }
  }

  lemma ConvertNext(source: seq<Element>, n: nat, amount: string)
    requires n < |source|
    ensures var inserted := HasTag(source[..n], "58");
      && Convert(source[..n + 1], amount, false)
         == Convert(source[..n], amount, false) + ConvertOne(source[n], amount, inserted)
      && (HasTag(source[..n + 1], "58") <==> inserted || source[n].tag == "58")
  {
    assert source[..n + 1] == source[..n] + [source[n]];
    ConvertAppend(source[..n], [source[n]], amount, false);
    ValueAppend(source[..n], [source[n]], "58");
    var inserted := HasTag(source[..n], "58");
    assert Convert([source[n]], amount, inserted)
      == ConvertOne(source[n], amount, inserted) + Convert([], amount, inserted || source[n].tag == "58");
  }

  /** The conversion loop. */
  method ConvertElements(source: seq<Element>, amount: string) returns (converted: seq<Element>, amountInserted: bool)
    ensures converted == Convert(source, amount, false)
    ensures amountInserted <==> HasTag(source, "58")
  {
    converted, amountInserted := [], false;
    for n := 0 to |source|
      invariant converted == Convert(source[..n], amount, false)
      invariant amountInserted <==> HasTag(source[..n], "58")
    {
      var element := source[n];
      ConvertNext(source, n, amount);
      if IsTransactionTag(element.tag) { continue; }
      if element.tag == "01" {
        converted := converted + [Element("01", "12")];
        continue;
      }
      if element.tag == "58" && !amountInserted {
        converted := converted + [Element("54", amount), element];
        amountInserted := true;
      } else {
        converted := converted + [element];
      }
    }
    assert source[..|source|] == source;
  }

  lemma {:induction false} PrintableEncode(elements: seq<Element>)
    requires AllWellFormed(elements)
    ensures Printable(Encode(elements)) <==> forall i :: 0 <= i < |elements| ==> Printable(elements[i].value)
  {
    if elements != [] {
      PrintableEncode(elements[1..]);
      PrintableJoin(EncodeElement(elements[0]), Encode(elements[1..]));
      PrintableJoin(elements[0].tag + Padded(|elements[0].value|), elements[0].value);
      assert forall i :: 0 < i < |elements| ==> elements[i] == elements[1..][i - 1];
      assert forall i :: 0 <= i < |elements[1..]| ==> elements[1..][i] == elements[i + 1];
    }
  }

  lemma PrintableJoin(a: string, b: string)
    ensures Printable(a + b) <==> Printable(a) && Printable(b)
  {
    assert forall i :: 0 <= i < |a| ==> (a + b)[i] == a[i];
    assert forall i :: 0 <= i < |b| ==> (a + b)[|a| + i] == b[i];
  }
}
