/** The backend's static check, and what it shares with the app's. */
module QrisPayload {
  import opened LocalTables
  import opened Numerals
  import opened Tlv
  import opened QrisCrc
  import opened QrisText
  import opened Qris
  import opened QrisDynamic

  function MapOf(elements: seq<Element>): map<string, string> {
    if elements == [] then map[]
    else MapOf(elements[..|elements| - 1])[elements[|elements| - 1].tag := elements[|elements| - 1].value]
  }

  predicate InOrder(payload: string) {
    Parse(payload).Elements? && Increasing(Parse(payload).elements)
  }

  function ElementsOf(payload: string): seq<Element>
    requires Parse(payload).Elements?
  {
    Parse(payload).elements
  }

  lemma IncreasingAppend(elements: seq<Element>, last: Element)
    requires Increasing(elements)
    ensures Increasing(elements + [last]) <==> elements == [] || TagNumber(elements[|elements| - 1]) < TagNumber(last)
  {
    var longer := elements + [last];
    assert forall i :: 0 <= i < |elements| ==> longer[i] == elements[i];
    if elements != [] { assert longer[|elements|] == last && longer[|elements| - 1] == elements[|elements| - 1]; }
  }

  lemma IncreasingPrefix(first: seq<Element>, second: seq<Element>)
    requires Increasing(first + second)
    ensures Increasing(first)
  {
    assert forall i :: 0 <= i < |first| ==> (first + second)[i] == first[i];
  }

  predicate ContinuesAt(payload: string, pos: nat, done: seq<Element>)
    requires pos <= |payload|
  {
    Parse(payload) == match ParseFrom(payload, pos)
                      case Malformed(fault) => Malformed(fault)
                      case Elements(rest) => Elements(done + rest)
  }

  lemma Continues(payload: string, pos: nat, done: seq<Element>)
    requires pos + 4 <= |payload| && ContinuesAt(payload, pos, done)
    requires TwoDigits(payload[pos..pos + 2]) && TwoDigits(payload[pos + 2..pos + 4])
    ensures var end := pos + 4 + Number(payload[pos + 2..pos + 4]);
      && (end > |payload| ==> Parse(payload).Malformed?)
      && (end <= |payload|
         ==> ContinuesAt(payload, end, done + [Element(payload[pos..pos + 2], payload[pos + 4..end])]))
  {
    var end := pos + 4 + Number(payload[pos + 2..pos + 4]);
    if end <= |payload| {
      var element := Element(payload[pos..pos + 2], payload[pos + 4..end]);
      var rest := ParseFrom(payload, end);
      assert rest.Elements? ==> done + ([element] + rest.elements) == done + [element] + rest.elements;
    }
  }

  lemma Stuck(payload: string, pos: nat, done: seq<Element>)
    requires pos < |payload| && ContinuesAt(payload, pos, done)
    requires pos + 4 > |payload| || !TwoDigits(payload[pos..pos + 2]) || !TwoDigits(payload[pos + 2..pos + 4])
    ensures Parse(payload).Malformed?
  {
  }

  lemma Finished(payload: string, done: seq<Element>)
    requires ContinuesAt(payload, |payload|, done)
    ensures Parse(payload) == Elements(done)
  {
    assert done + [] == done;
  }

  lemma NeverInOrder(payload: string, pos: nat, done: seq<Element>)
    requires pos <= |payload| && ContinuesAt(payload, pos, done) && !Increasing(done)
    ensures !InOrder(payload)
  {
    assert InOrder(payload) ==> Increasing(done) by {
      if InOrder(payload) { IncreasingPrefix(done, ParseFrom(payload, pos).elements); }
    }
  }

  /** What the loop has taken so far. */
  ghost predicate Taken(done: seq<Element>, values: map<string, string>, previous: int) {
    && AllWellFormed(done) && Increasing(done) && values == MapOf(done)
    && previous == if done == [] then -1 else TagNumber(done[|done| - 1])
  }

  lemma Takes(done: seq<Element>, values: map<string, string>, previous: int, element: Element)
    requires Taken(done, values, previous) && WellFormed(element)
    ensures Increasing(done + [element]) <==> Number(element.tag) > previous
    ensures Number(element.tag) > previous
      ==> Taken(done + [element], values[element.tag := element.value], Number(element.tag))
  {
    IncreasingAppend(done, element);
    assert (done + [element])[..|done|] == done;
  }

  /** The loop's state at a position. */
  ghost predicate At(payload: string, pos: nat, done: seq<Element>, values: map<string, string>, previous: int) {
    pos <= |payload| && ContinuesAt(payload, pos, done) && Taken(done, values, previous)
  }

  lemma OneRound(payload: string, pos: nat, done: seq<Element>, values: map<string, string>, previous: int)
    requires At(payload, pos, done, values, previous) && pos + 4 <= |payload|
    requires TwoDigits(payload[pos..pos + 2]) && TwoDigits(payload[pos + 2..pos + 4])
    ensures var tag, end := payload[pos..pos + 2], pos + 4 + Number(payload[pos + 2..pos + 4]);
      if end > |payload| || Number(tag) <= previous then !InOrder(payload)
      else At(payload, end, done + [Element(tag, payload[pos + 4..end])], values[tag := payload[pos + 4..end]],
        Number(tag))
  {
    Continues(payload, pos, done);
    var end := pos + 4 + Number(payload[pos + 2..pos + 4]);
    if end <= |payload| {
      var element := Element(payload[pos..pos + 2], payload[pos + 4..end]);
      Takes(done, values, previous, element);
      if Number(element.tag) <= previous { NeverInOrder(payload, end, done + [element]); }
    }
  }

  /** qrisElements: one pass that parses, checks the order and fills the map. */
  method QrisElements(payload: string) returns (result: Option<map<string, string>>)
    ensures result == if InOrder(payload) then Some(MapOf(ElementsOf(payload))) else None
  {
    var values: map<string, string> := map[];
    var previous: int := -1;
    var pos := 0;
    ghost var done: seq<Element> := [];
    while pos < |payload|
      invariant At(payload, pos, done, values, previous)
      decreases |payload| - pos
    {
      if pos + 4 > |payload| {
        Stuck(payload, pos, done);
        return None;
      }
      var tag, encodedLength := payload[pos..pos + 2], payload[pos + 2..pos + 4];
      if !TwoDigits(tag) || !TwoDigits(encodedLength) {
        Stuck(payload, pos, done);
        return None;
      }
      OneRound(payload, pos, done, values, previous);
      var n, length := Number(tag), Number(encodedLength);
      pos := pos + 4;
      if n <= previous || pos + length > |payload| { return None; }
      previous := n;
      values := values[tag := payload[pos..pos + length]];
      done := done + [Element(tag, payload[pos..pos + length])];
      pos := pos + length;
    }
    Finished(payload, done);
    return Some(values);
  }

  lemma {:induction false} MapHolds(elements: seq<Element>, tag: string)
    requires AllWellFormed(elements) && Increasing(elements)
    ensures tag in MapOf(elements) <==> HasTag(elements, tag)
    ensures HasTag(elements, tag) ==> MapOf(elements)[tag] == Value(elements, tag).value
  {
    if elements != [] {
      var cut := |elements| - 1;
      assert elements == elements[..cut] + [elements[cut]];
      MapHolds(elements[..cut], tag);
      ValueAppend(elements[..cut], [elements[cut]], tag);
      assert [elements[cut]][1..] == [];
      if elements[cut].tag == tag {
        ValueAt(elements[..cut], tag);
        forall i | 0 <= i < cut ensures elements[i].tag != tag { TagsAreNumbers(elements[i], elements[cut]); }
      }
    }
  }

  /** Go's zero value for a missing key. */
  function Lookup(elements: seq<Element>, tag: string): string {
    if HasTag(elements, tag) then Value(elements, tag).value else ""
  }

  predicate NestedSound(elements: seq<Element>) {
    forall i :: 26 <= i <= 51 && HasTag(elements, Padded(i)) ==> InOrder(Value(elements, Padded(i)).value)
  }

  predicate NamesDomain(value: string) {
    InOrder(value) && Lookup(ElementsOf(value), "00") != ""
  }

  predicate HasMerchant(elements: seq<Element>) {
    exists i :: 26 <= i <= 51 && HasTag(elements, Padded(i)) && NamesDomain(Value(elements, Padded(i)).value)
  }

  predicate BackendFields(elements: seq<Element>) {
    && Lookup(elements, "00") == "01" && Lookup(elements, "01") == "11" && Lookup(elements, "53") == "360"
       && Lookup(elements, "58") == "ID"
    && !Blank(Lookup(elements, "59")) && !Blank(Lookup(elements, "60"))
    && FourDigits(Lookup(elements, "52"))
    && !HasTransactionTag(elements)
    && NestedSound(elements) && HasMerchant(elements)
  }

  predicate BackendSeal(payload: string, crc: string)
    requires |payload| >= 12
  {
    && |crc| == 4
    && payload[|payload| - 8..|payload| - 4] == CRC_TAG_PREFIX
    && Upper(crc) == Checksum(payload[..|payload| - 4])
  }

  predicate BackendAccepts(payload: string) {
    && 12 <= |payload| <= 2048 && Printable(payload) && InOrder(payload)
    && BackendFields(ElementsOf(payload)) && BackendSeal(payload, Lookup(ElementsOf(payload), "63"))
  }

  function Get(values: map<string, string>, tag: string): string {
    if tag in values then values[tag] else ""
  }

  ghost predicate Holds(values: map<string, string>, elements: seq<Element>) {
    forall tag: string ::
      (tag in values <==> HasTag(elements, tag))
        && (HasTag(elements, tag) ==> values[tag] == Value(elements, tag).value)
      && Get(values, tag) == Lookup(elements, tag)
  }

  lemma MapOfHolds(elements: seq<Element>)
    requires AllWellFormed(elements) && Increasing(elements)
    ensures Holds(MapOf(elements), elements)
  {
    forall tag: string ensures
      (tag in MapOf(elements) <==> HasTag(elements, tag))
        && (HasTag(elements, tag) ==> MapOf(elements)[tag] == Value(elements, tag).value)
      && Get(MapOf(elements), tag) == Lookup(elements, tag)
    {
      MapHolds(elements, tag);
    }
  }

  method IsPrintable(payload: string) returns (printable: bool)
    ensures printable <==> Printable(payload)
  {
    for n := 0 to |payload|
      invariant Printable(payload[..n])
    {
      if (payload[n] as int) < 32 || payload[n] as int > 126 { return false; }
    }
    assert payload[..|payload|] == payload;
    return true;
  }

  /** Templates with tags below `n` are in order. */
  ghost predicate SoundBelow(elements: seq<Element>, n: nat)
    requires n <= 52
  {
    forall j :: 26 <= j < n && HasTag(elements, Padded(j)) ==> InOrder(Value(elements, Padded(j)).value)
  }

  /** Some template with a tag below `n` names a domain. */
  ghost predicate NamedBelow(elements: seq<Element>, n: nat)
    requires n <= 52
  {
    exists j :: 26 <= j < n && HasTag(elements, Padded(j)) && NamesDomain(Value(elements, Padded(j)).value)
  }

  lemma NextTemplate(elements: seq<Element>, n: nat)
    requires 26 <= n < 52
    ensures SoundBelow(elements, n + 1)
            <==> SoundBelow(elements, n) && (HasTag(elements, Padded(n)) ==> InOrder(Value(elements, Padded(n)).value))
    ensures NamedBelow(elements, n + 1)
            <==> (|| NamedBelow(elements, n)
                  || (HasTag(elements, Padded(n)) && NamesDomain(Value(elements, Padded(n)).value)))
  {
  }

  lemma AllTemplates(elements: seq<Element>, n: nat)
    requires n <= 52
    ensures NestedSound(elements) ==> SoundBelow(elements, n)
    ensures n == 52
      ==> (SoundBelow(elements, n) <==> NestedSound(elements)) && (NamedBelow(elements, n) <==> HasMerchant(elements))
  {
  }

  /** One template of the loop. None: it is not in order. */
  method NamesItsDomain(nested: string) returns (named: Option<bool>)
    ensures named.None? <==> !InOrder(nested)
    ensures named.Some? ==> (named.value <==> NamesDomain(nested))
  {
    var fields := QrisElements(nested);
    if fields.None? { return None; }
    ParseInvertsEncode(nested, ElementsOf(nested));
    MapHolds(ElementsOf(nested), "00");
    return Some(Get(fields.value, "00") != "");
  }

  /** The loop over tags 26 to 51. None: a nested value is not in order. */
  method MerchantLoop(values: map<string, string>, ghost elements: seq<Element>) returns (merchant: Option<bool>)
    requires Holds(values, elements)
    ensures merchant.None? <==> !NestedSound(elements)
    ensures merchant.Some? ==> (merchant.value <==> HasMerchant(elements))
  {
    var found := false;
    for i := 26 to 52
      invariant SoundBelow(elements, i) && (found <==> NamedBelow(elements, i))
    {
      NextTemplate(elements, i);
      if Padded(i) in values {
        var named := NamesItsDomain(values[Padded(i)]);
        if named.None? {
          AllTemplates(elements, i + 1);
          return None;
        }
        if named.value { found := true; }
      }
    }
    AllTemplates(elements, 52);
    return Some(found);
  }

  method CheckFields(values: map<string, string>, ghost elements: seq<Element>) returns (valid: bool)
    requires Holds(values, elements)
    ensures valid <==> BackendFields(elements)
  {
    if Get(values, "00") != "01" || Get(values, "01") != "11" || Get(values, "53") != "360" || Get(values, "58") != "ID"
       || Blank(Get(values, "59")) || Blank(Get(values, "60")) {
      return false;
    }
    if !FourDigits(Get(values, "52")) { return false; }
    if "54" in values || "55" in values || "56" in values || "57" in values { return false; }
    var merchant := MerchantLoop(values, elements);
    return merchant.Some? && merchant.value;
  }

  /** ValidateStaticQRIS accepts exactly the payloads that the predicate above describes. */
  method ValidateStaticQRIS(payload: string) returns (valid: bool)
    ensures valid <==> BackendAccepts(payload)
  {
    if |payload| < 12 || |payload| > 2048 { return false; }
    var printable := IsPrintable(payload);
    if !printable { return false; }
    var parsed := QrisElements(payload);
    if parsed.None? { return false; }
    ghost var elements := ElementsOf(payload);
    ParseInvertsEncode(payload, elements);
    MapOfHolds(elements);
    var values := parsed.value;
    var fields := CheckFields(values, elements);
    if !fields { return false; }
    var seal := Get(values, "63");
    if |seal| != 4 || payload[|payload| - 8..|payload| - 4] != CRC_TAG_PREFIX { return false; }
    var crc := BackendCrc(UnitsOf(payload[..|payload| - 4]));
    return Upper(seal) == Hex(crc);
  }

  // ----- agreement with the app -----

  predicate EndsWithSeal(payload: string) {
    Parse(payload).Elements? && ElementsOf(payload) != [] && ElementsOf(payload)[|ElementsOf(payload)| - 1].tag == "63"
  }

  /** Every nonempty template is in order; the app stops at the first good one. */
  predicate TemplatesSound(payload: string) {
    Parse(payload).Elements? ==>
      forall i :: 0 <= i < |ElementsOf(payload)| && IsTemplate(ElementsOf(payload)[i]) ==>
        InOrder(ElementsOf(payload)[i].value)
  }

  lemma {:induction false} ScanOfSound(elements: seq<Element>)
    requires forall i :: 0 <= i < |elements| && IsTemplate(elements[i]) ==> InOrder(elements[i].value)
    ensures ScanTemplates(elements) == Found
      <==> exists i :: 0 <= i < |elements| && IsTemplate(elements[i]) && GoodTemplate(elements[i].value)
  {
    if elements != [] {
      assert forall i :: 0 < i < |elements| ==> elements[i] == elements[1..][i - 1];
      assert forall i :: 0 <= i < |elements[1..]| ==> elements[1..][i] == elements[i + 1];
      ScanOfSound(elements[1..]);
    }
  }

  lemma DomainIsGood(value: string)
    ensures NamesDomain(value) <==> GoodTemplate(value)
    ensures value == "" ==> InOrder(value) && !GoodTemplate(value)
  {
  }

  /** Looking templates up by tag or walking over the elements is the same. */
  lemma TemplatesByTag(elements: seq<Element>)
    requires AllWellFormed(elements) && Increasing(elements)
    ensures NestedSound(elements)
      <==> forall i :: 0 <= i < |elements| && IsTemplate(elements[i]) ==> InOrder(elements[i].value)
    ensures HasMerchant(elements)
      <==> exists i :: 0 <= i < |elements| && IsTemplate(elements[i]) && GoodTemplate(elements[i].value)
  {
    forall n | 26 <= n <= 51 && HasTag(elements, Padded(n))
      ensures exists i ::
        0 <= i < |elements| && TagNumber(elements[i]) == n && elements[i].value == Value(elements, Padded(n)).value
    {
      ValueAt(elements, Padded(n));
    }
    forall i | 0 <= i < |elements|
      ensures HasTag(elements, Padded(TagNumber(elements[i])))
        && Value(elements, Padded(TagNumber(elements[i]))).value == elements[i].value
    {
      NumberIsPadded(elements[i].tag);
      OnlyValue(elements, i);
    }
    forall value: string ensures NamesDomain(value) <==> GoodTemplate(value) { DomainIsGood(value); }
    DomainIsGood("");
  }

  lemma AppParts(payload: string)
    ensures ValidateStaticQris(payload).Some? && Trimmed(payload) <==>
      && Trimmed(payload) && payload != "" && |payload| <= MAX_PAYLOAD && Printable(payload) && Parse(payload).Elements?
      && Accepted(payload, ElementsOf(payload)) && Value(ElementsOf(payload), "01") == Some("11")
         && !HasTransactionTag(ElementsOf(payload))
  {
    TrimIsTrimmed(payload);
  }

  lemma FieldsAgree(elements: seq<Element>)
    requires AllWellFormed(elements) && Increasing(elements)
    requires forall i :: 0 <= i < |elements| && IsTemplate(elements[i]) ==> InOrder(elements[i].value)
    ensures BackendFields(elements)
      <==> MerchantFields(elements) && Value(elements, "01") == Some("11") && !HasTransactionTag(elements)
  {
    TemplatesByTag(elements);
    ScanOfSound(elements);
  }

  lemma SealsAgree(payload: string, elements: seq<Element>)
    requires Parse(payload) == Elements(elements) && elements != [] && elements[|elements| - 1].tag == "63"
    requires Increasing(elements) && |payload| >= 12
    ensures BackendSeal(payload, Lookup(elements, "63")) <==> SealedBy(payload, elements[|elements| - 1])
  {
    ParseInvertsEncode(payload, elements);
    OnlyValue(elements, |elements| - 1);
    var body, last := elements[..|elements| - 1], elements[|elements| - 1];
    if |last.value| == 4 {
      assert elements == body + [Element("63", last.value)];
      EncodeLast(body, last.value);
      PrefixBeforeCrc(payload, Encode(body), last.value);
    }
  }

  lemma PrefixBeforeCrc(payload: string, body: string, crc: string)
    requires payload == body + CRC_TAG_PREFIX + crc && |crc| == 4
    ensures |payload| >= 8 && payload[|payload| - 8..|payload| - 4] == CRC_TAG_PREFIX
  {
  }

  lemma SealedIsLong(payload: string, elements: seq<Element>)
    requires Parse(payload) == Elements(elements) && Accepted(payload, elements)
    ensures |payload| >= 12 && IsDigit(payload[0])
  {
    AcceptedShape(payload, elements);
    MoreThanSeal(elements);
    ParseInvertsEncode(payload, elements);
    var body := elements[..|elements| - 1];
    assert |payload| - 4 == |Encode(body)| + 4;
    assert Encode(body) == EncodeElement(body[0]) + Encode(body[1..]);
    assert payload[0] == payload[..|payload| - 4][0] == body[0].tag[0];
  }

  lemma SealedIsTrimmedAndLong(payload: string, elements: seq<Element>)
    requires Parse(payload) == Elements(elements) && Accepted(payload, elements)
    ensures Trimmed(payload) && |payload| >= 12
  {
    SealedIsLong(payload, elements);
    AcceptedShape(payload, elements);
    assert Upper(payload[|payload| - 4..])[3] == UpperChar(payload[|payload| - 1]);
  }

  lemma BackendTemplates(elements: seq<Element>)
    requires AllWellFormed(elements) && Increasing(elements) && BackendFields(elements)
    ensures forall i :: 0 <= i < |elements| && IsTemplate(elements[i]) ==> InOrder(elements[i].value)
    ensures MerchantFields(elements) && Value(elements, "01") == Some("11") && !HasTransactionTag(elements)
  {
    TemplatesByTag(elements);
    FieldsAgree(elements);
  }

  lemma BackendIsAccepted(payload: string, elements: seq<Element>)
    requires BackendAccepts(payload) && Parse(payload) == Elements(elements)
    requires elements != [] && elements[|elements| - 1].tag == "63"
    ensures Accepted(payload, elements) && Value(elements, "01") == Some("11") && !HasTransactionTag(elements)
    ensures forall i :: 0 <= i < |elements| && IsTemplate(elements[i]) ==> InOrder(elements[i].value)
  {
    ParseInvertsEncode(payload, elements);
    BackendTemplates(elements);
    SealsAgree(payload, elements);
  }

  lemma BackendIsApp(payload: string)
    requires BackendAccepts(payload) && EndsWithSeal(payload)
    ensures ValidateStaticQris(payload).Some? && Trim(payload) == payload && TemplatesSound(payload)
  {
    BackendIsAccepted(payload, ElementsOf(payload));
    SealedIsTrimmedAndLong(payload, ElementsOf(payload));
    AppParts(payload);
    TrimIsTrimmed(payload);
  }

  lemma AppIsBackend(payload: string)
    requires ValidateStaticQris(payload).Some? && Trim(payload) == payload && TemplatesSound(payload)
    ensures BackendAccepts(payload) && EndsWithSeal(payload)
  {
    var elements := ElementsOf(payload);
    AppParts(payload);
    TrimIsTrimmed(payload);
    ParseInvertsEncode(payload, elements);
    SealedIsTrimmedAndLong(payload, elements);
    TemplatesByTag(elements);
    FieldsAgree(elements);
    SealsAgree(payload, elements);
  }

  /** On payloads that end with the checksum element, the backend accepts exactly the trimmed static
      payloads of the app whose templates are all in order: the two validators, checksum loops
      included, differ nowhere else. */
  lemma ValidatorsAgree(payload: string)
    ensures BackendAccepts(payload) && EndsWithSeal(payload)
            <==> ValidateStaticQris(payload).Some? && Trim(payload) == payload && TemplatesSound(payload)
  {
    if BackendAccepts(payload) && EndsWithSeal(payload) { BackendIsApp(payload); }
    if ValidateStaticQris(payload).Some? && Trim(payload) == payload && TemplatesSound(payload) {
      AppIsBackend(payload);
    }
  }

  lemma AcceptedSum(payload: string) returns (head: string, sum: string)
    requires ParseQris(payload).Some? && Trimmed(payload)
    ensures payload == head + sum && |sum| == 4 && Printable(head) && Upper(sum) == Checksum(head)
  {
    TrimIsTrimmed(payload);
    AcceptedShape(payload, ElementsOf(payload));
    head, sum := payload[..|payload| - 4], payload[|payload| - 4..];
    PrintableJoin(head, sum);
  }

  /** Changing a valid payload within two adjacent characters before its checksum value never gives
      another payload that parses, as long as no space is left at either end. */
  lemma AlteredPayloadIsRefused(payload: string, altered: string, at: nat)
    requires ParseQris(payload).Some? && Trimmed(payload) && Trimmed(altered)
    requires DifferWithin(payload, altered, at) && at + 2 <= |payload| - 4
    ensures ParseQris(altered).Some? <==> altered == payload
  {
    if ParseQris(altered).Some? {
      var p, s := AcceptedSum(payload);
      var q, t := AcceptedSum(altered);
      DifferBeforeTail(p, s, q, t, at);
      ChecksumDetects(p, q, at);
    }
  }

  lemma DifferBeforeTail(p: string, s: string, q: string, t: string, at: nat)
    requires |s| == |t| && DifferWithin(p + s, q + t, at) && at + 2 <= |p|
    ensures s == t && DifferWithin(p, q, at)
  {
    assert forall i :: 0 <= i < |p| ==> (p + s)[i] == p[i] && (q + t)[i] == q[i];
    forall i | 0 <= i < |s| ensures s[i] == t[i] {
      assert (p + s)[|p| + i] == s[i] && (q + t)[|p| + i] == t[i];
    }
  }
}
