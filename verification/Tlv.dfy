/** The tag-length-value layout of QRIS payloads: EMVCo QR Code Specification for Payment Systems,
    Merchant-Presented Mode, section 4.7. */
module Tlv {
  import opened LocalTables
  import opened Numerals

  datatype Element = Element(tag: string, value: string)

  /** What the parser and the order check throw. */
  datatype Fault = Truncated | NotDigits | ValueTruncated(tag: string) | Duplicate(tag: string) | OutOfOrder

  datatype Parsed = Elements(elements: seq<Element>) | Malformed(fault: Fault)

  predicate TwoDigits(s: string) { |s| == 2 && IsDigit(s[0]) && IsDigit(s[1]) }

  function Number(s: string): (n: nat)
    requires TwoDigits(s)
    ensures n <= 99
  {
    10 * DigitValue(s[0]) + DigitValue(s[1])
  }

  /** String(n).padStart(2, "0") for n up to 99. */
  function Padded(n: nat): (s: string)
    requires n <= 99
    ensures TwoDigits(s) && Number(s) == n
  {
    [Digit(n / 10), Digit(n % 10)]
  }

  lemma NumberIsPadded(s: string)
    requires TwoDigits(s)
    ensures Padded(Number(s)) == s
  {
    var a, b := DigitValue(s[0]), DigitValue(s[1]);
    assert (10 * a + b) / 10 == a && (10 * a + b) % 10 == b;
    assert Digit(a) == s[0] && Digit(b) == s[1];
  }

  /** parseElements from a position: the elements of the rest, or what the loop throws. */
  function ParseFrom(payload: string, position: nat): Parsed
    requires position <= |payload|
    decreases |payload| - position
  {
    if position == |payload| then Elements([])
    else if position + 4 > |payload| then Malformed(Truncated)
    else
      var tag, encodedLength := payload[position..position + 2], payload[position + 2..position + 4];
      if !TwoDigits(tag) || !TwoDigits(encodedLength) then Malformed(NotDigits)
      else
        var end := position + 4 + Number(encodedLength);
        if end > |payload| then Malformed(ValueTruncated(tag))
        else
          match ParseFrom(payload, end)
          case Malformed(fault) => Malformed(fault)
          case Elements(rest) => Elements([Element(tag, payload[position + 4..end])] + rest)
  }

  function Parse(payload: string): Parsed {
    ParseFrom(payload, 0)
  }

  method ParseElements(payload: string) returns (parsed: Parsed)
    ensures parsed == Parse(payload)
  {
    var elements: seq<Element> := [];
    var position := 0;
    while position < |payload|
      invariant position <= |payload|
      invariant Parse(payload) == match ParseFrom(payload, position)
                                  case Malformed(fault) => Malformed(fault)
                                  case Elements(rest) => Elements(elements + rest)
    {
      if position + 4 > |payload| { return Malformed(Truncated); }
      var tag, encodedLength := payload[position..position + 2], payload[position + 2..position + 4];
      if !TwoDigits(tag) || !TwoDigits(encodedLength) { return Malformed(NotDigits); }
      var valueStart := position + 4;
      var valueEnd := valueStart + Number(encodedLength);
      if valueEnd > |payload| { return Malformed(ValueTruncated(tag)); }
      ghost var rest := ParseFrom(payload, valueEnd);
      assert rest.Elements? ==> elements + ([Element(tag, payload[valueStart..valueEnd])] + rest.elements)
                                == elements + [Element(tag, payload[valueStart..valueEnd])] + rest.elements;
      elements := elements + [Element(tag, payload[valueStart..valueEnd])];
      position := valueEnd;
    }
    return Elements(elements);
  }

  predicate WellFormed(element: Element) { TwoDigits(element.tag) && |element.value| <= 99 }

  predicate AllWellFormed(elements: seq<Element>) {
    forall i :: 0 <= i < |elements| ==> WellFormed(elements[i])
  }

  /** encodeElement; it throws for a value longer than 99. */
  function EncodeElement(element: Element): (s: string)
    requires |element.value| <= 99
    ensures |s| == |element.tag| + 2 + |element.value|
  {
    element.tag + Padded(|element.value|) + element.value
  }

  function Encode(elements: seq<Element>): string
    requires forall i :: 0 <= i < |elements| ==> |elements[i].value| <= 99
  {
    if elements == [] then "" else EncodeElement(elements[0]) + Encode(elements[1..])
  }

  lemma {:induction false} EncodeAppend(first: seq<Element>, second: seq<Element>)
    requires AllWellFormed(first) && AllWellFormed(second)
    ensures Encode(first + second) == Encode(first) + Encode(second)
  {
    if first == [] {
      assert first + second == second;
    } else {
      assert (first + second)[1..] == first[1..] + second;
      EncodeAppend(first[1..], second);
    }
  }

  lemma SlicesJoin(payload: string, position: nat, end: nat)
    requires position + 4 <= end <= |payload|
    ensures payload[position..]
      == (payload[position..position + 2] + payload[position + 2..position + 4] + payload[position + 4..end])
      + payload[end..]
  {
  }

  /** Whatever parses is the encoding of its elements. */
  lemma {:induction false} ParsedIsEncoded(payload: string, position: nat)
    requires position <= |payload| && ParseFrom(payload, position).Elements?
    ensures AllWellFormed(ParseFrom(payload, position).elements)
    ensures Encode(ParseFrom(payload, position).elements) == payload[position..]
    decreases |payload| - position
  {
    if position < |payload| {
      var end := position + 4 + Number(payload[position + 2..position + 4]);
      ParsedIsEncoded(payload, end);
      FirstIsEncoded(payload, position, end, ParseFrom(payload, position).elements, ParseFrom(payload, end).elements);
    }
  }

  lemma FirstIsEncoded(payload: string, position: nat, end: nat, elements: seq<Element>, rest: seq<Element>)
    requires position + 4 <= end <= |payload| && TwoDigits(payload[position..position + 2])
    requires TwoDigits(payload[position + 2..position + 4])
      && end == position + 4 + Number(payload[position + 2..position + 4])
    requires elements == [Element(payload[position..position + 2], payload[position + 4..end])] + rest
    requires AllWellFormed(rest) && Encode(rest) == payload[end..]
    ensures AllWellFormed(elements) && Encode(elements) == payload[position..]
  {
    NumberIsPadded(payload[position + 2..position + 4]);
    SlicesJoin(payload, position, end);
    assert elements[1..] == rest;
  }

  lemma TailAfter(payload: string, position: nat, first: string, rest: string)
    requires position <= |payload| && payload[position..] == first + rest
    ensures position + |first| <= |payload| && payload[position..position + |first|] == first
    ensures payload[position + |first|..] == rest
  {
    assert payload[position..position + |first|] == payload[position..][..|first|];
    assert payload[position + |first|..] == payload[position..][|first|..];
  }

  /** The slices that the parser takes where an element's encoding stands. */
  lemma ElementSlices(payload: string, position: nat, first: Element, rest: string)
    requires WellFormed(first) && position <= |payload| && payload[position..] == EncodeElement(first) + rest
    ensures position + 4 <= position + |EncodeElement(first)| <= |payload|
    ensures payload[position..position + 2] == first.tag && payload[position + 2..position + 4] == Padded(|first.value|)
    ensures payload[position + 4..position + 4 + |first.value|] == first.value
    ensures payload[position + 4 + |first.value|..] == rest
  {
    assert EncodeElement(first) + rest == first.tag + (Padded(|first.value|) + (first.value + rest));
    TailAfter(payload, position, first.tag, Padded(|first.value|) + (first.value + rest));
    TailAfter(payload, position + 2, Padded(|first.value|), first.value + rest);
    TailAfter(payload, position + 4, first.value, rest);
  }

  lemma ParseUnfolds(payload: string, position: nat, tag: string, value: string, rest: seq<Element>)
    requires TwoDigits(tag) && |value| <= 99 && position + 4 + |value| <= |payload|
    requires payload[position..position + 2] == tag && payload[position + 2..position + 4] == Padded(|value|)
    requires payload[position + 4..position + 4 + |value|] == value
    requires ParseFrom(payload, position + 4 + |value|) == Elements(rest)
    ensures ParseFrom(payload, position) == Elements([Element(tag, value)] + rest)
  {
  }

  lemma FirstIsParsed(payload: string, position: nat, first: Element, rest: seq<Element>, encoded: string)
    requires WellFormed(first) && position <= |payload| && payload[position..] == EncodeElement(first) + encoded
    requires position + 4 + |first.value| <= |payload|
      && ParseFrom(payload, position + 4 + |first.value|) == Elements(rest)
    ensures ParseFrom(payload, position) == Elements([first] + rest)
  {
    ElementSlices(payload, position, first, encoded);
    ParseUnfolds(payload, position, first.tag, first.value, rest);
  }

  lemma AfterFirst(payload: string, position: nat, first: Element, encoded: string) returns (end: nat)
    requires WellFormed(first) && position <= |payload| && payload[position..] == EncodeElement(first) + encoded
    ensures position < end <= |payload| && payload[end..] == encoded
    ensures forall rest :: ParseFrom(payload, end) == Elements(rest) ==>
      ParseFrom(payload, position) == Elements([first] + rest)
  {
    ElementSlices(payload, position, first, encoded);
    end := position + 4 + |first.value|;
    forall rest | ParseFrom(payload, end) == Elements(rest)
      ensures ParseFrom(payload, position) == Elements([first] + rest)
    {
      FirstIsParsed(payload, position, first, rest, encoded);
    }
  }

  /** Whatever is encoded from well-formed elements parses to exactly those elements. */
  lemma {:induction false} EncodedIsParsed(payload: string, position: nat, elements: seq<Element>)
    requires AllWellFormed(elements) && position <= |payload| && payload[position..] == Encode(elements)
    ensures ParseFrom(payload, position) == Elements(elements)
    decreases |elements|
  {
    if elements == [] {
      assert position == |payload|;
    } else {
      var end := AfterFirst(payload, position, elements[0], Encode(elements[1..]));
      EncodedIsParsed(payload, end, elements[1..]);
      assert elements == [elements[0]] + elements[1..];
    }
  }

  /** Encoding and parsing undo each other, both ways. */
  lemma ParseInvertsEncode(payload: string, elements: seq<Element>)
    ensures Parse(payload) == Elements(elements) <==> AllWellFormed(elements) && Encode(elements) == payload
  {
    if Parse(payload) == Elements(elements) { ParsedIsEncoded(payload, 0); }
    if AllWellFormed(elements) && Encode(elements) == payload {
      assert payload[0..] == payload;
      EncodedIsParsed(payload, 0, elements);
    }
  }

  // ----- the order of tags -----

  predicate Increasing(elements: seq<Element>) {
    forall i, j :: 0 <= i < j < |elements| ==> TagNumber(elements[i]) < TagNumber(elements[j])
  }

  function TagNumber(element: Element): nat {
    if TwoDigits(element.tag) then Number(element.tag) else 0
  }

  lemma TagsAreNumbers(a: Element, b: Element)
    requires TwoDigits(a.tag) && TwoDigits(b.tag)
    ensures a.tag == b.tag <==> TagNumber(a) == TagNumber(b)
  {
    NumberIsPadded(a.tag);
    NumberIsPadded(b.tag);
  }

  /** validateElementCollection: accepts exactly the strictly increasing collections. */
  method ValidateElementCollection(elements: seq<Element>) returns (fault: Option<Fault>)
    requires AllWellFormed(elements)
    ensures fault.None? <==> Increasing(elements)
    ensures fault.Some? ==> fault.value == OutOfOrder || fault.value.Duplicate?
  {
    var seen: set<string> := {};
    var previousTag := -1;
    for n := 0 to |elements|
      invariant Increasing(elements[..n])
      invariant forall tag :: tag in seen <==> exists i :: 0 <= i < n && elements[i].tag == tag
      invariant previousTag == if n == 0 then -1 else TagNumber(elements[n - 1])
    {
      forall i | 0 <= i < n
        ensures elements[i].tag == elements[n].tag <==> TagNumber(elements[i]) == TagNumber(elements[n])
      {
        TagsAreNumbers(elements[i], elements[n]);
      }
      if elements[n].tag in seen { return Some(Duplicate(elements[n].tag)); }
      seen := seen + {elements[n].tag};
      var numericTag := Number(elements[n].tag);
      if numericTag < previousTag { return Some(OutOfOrder); }
      assert forall i :: 0 <= i < n ==> TagNumber(elements[..n][i]) <= previousTag;
      assert forall i :: 0 <= i < n ==> TagNumber(elements[i]) < numericTag;
      previousTag := numericTag;
    }
    assert elements[..|elements|] == elements;
    return None;
  }
}
