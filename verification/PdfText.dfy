/** Lines inside a PDF content stream: escaping, and a reader of literal strings after
    ISO 32000-1, section 7.3.4.2. Texts are byte strings. */
module PdfText {

  /** strings.ReplaceAll for a single byte. */
  function ReplaceAll(s: string, c: char, replacement: string): string {
    if s == "" then "" else (if s[0] == c then replacement else [s[0]]) + ReplaceAll(s[1..], c, replacement)
  }

  /** pdfEscape: three passes, the backslash first. */
  function PdfEscape(value: string): string {
    ReplaceAll(ReplaceAll(ReplaceAll(value, '\\', "\\\\"), '(', "\\("), ')', "\\)")
  }

  predicate NeedsBackslash(c: char) { c == '\\' || c == '(' || c == ')' }

  function EscapeChar(c: char): string { if NeedsBackslash(c) then ['\\', c] else [c] }

  function EscapeOnce(s: string): string {
    if s == "" then "" else EscapeChar(s[0]) + EscapeOnce(s[1..])
  }

  lemma {:induction false} ReplaceAppend(a: string, b: string, c: char, replacement: string)
    ensures ReplaceAll(a + b, c, replacement) == ReplaceAll(a, c, replacement) + ReplaceAll(b, c, replacement)
  {
    if a == "" {
      assert a + b == b;
    } else {
      assert (a + b)[1..] == a[1..] + b;
      ReplaceAppend(a[1..], b, c, replacement);
    }
  }

  lemma ReplaceOne(c: char, d: char, replacement: string)
    ensures ReplaceAll([d], c, replacement) == if d == c then replacement else [d]
  {
    assert [d][1..] == "";
  }

  lemma ReplaceTwo(c: char, d: char, e: char, replacement: string)
    requires d != c && e != c
    ensures ReplaceAll([d, e], c, replacement) == [d, e]
  {
    assert [d, e] == [d] + [e];
    ReplaceAppend([d], [e], c, replacement);
    ReplaceOne(c, d, replacement);
    ReplaceOne(c, e, replacement);
  }

  /** On one byte: the later passes never touch what an earlier one inserted. */
  lemma EscapeOneChar(c: char)
    ensures PdfEscape([c]) == EscapeChar(c)
  {
    ReplaceOne('\\', c, "\\\\");
    if c == '\\' {
      ReplaceTwo('(', '\\', '\\', "\\(");
      ReplaceTwo(')', '\\', '\\', "\\)");
      assert "\\\\" == ['\\', '\\'];
    } else if c == '(' {
      ReplaceOne('(', c, "\\(");
      ReplaceTwo(')', '\\', '(', "\\)");
      assert "\\(" == ['\\', '('];
    } else {
      ReplaceOne('(', c, "\\(");
      ReplaceOne(')', c, "\\)");
      assert "\\)" == ['\\', ')'];
    }
  }

  lemma EscapeAppend(a: string, b: string)
    ensures PdfEscape(a + b) == PdfEscape(a) + PdfEscape(b)
  {
    ReplaceAppend(a, b, '\\', "\\\\");
    var x, y := ReplaceAll(a, '\\', "\\\\"), ReplaceAll(b, '\\', "\\\\");
    ReplaceAppend(x, y, '(', "\\(");
    ReplaceAppend(ReplaceAll(x, '(', "\\("), ReplaceAll(y, '(', "\\("), ')', "\\)");
  }

  /** The three passes are one pass that puts a backslash before each special byte. */
  lemma {:induction false} EscapeIsOnePass(s: string)
    ensures PdfEscape(s) == EscapeOnce(s)
  {
    if s != "" {
      assert s == [s[0]] + s[1..];
      EscapeAppend([s[0]], s[1..]);
      EscapeOneChar(s[0]);
      EscapeIsOnePass(s[1..]);
    }
  }

  // ----- the reader -----

  datatype Literal = Literal(text: string, rest: string) | Unclosed

  function Prepend(c: char, literal: Literal): Literal {
    if literal.Unclosed? then Unclosed else Literal([c] + literal.text, literal.rest)
  }

  /** What a backslash and a letter stand for; otherwise the backslash is ignored. Octal codes and
      line continuations are not read. */
  function Escaped(c: char): char {
    if c == 'n' then '\n' else if c == 'r' then '\r' else if c == 't' then '\t' else if c == 'b' then 8 as char
    else if c == 'f' then 12 as char else c
  }

  /** A literal string after its opening parenthesis: balanced parentheses may stand unescaped, and
      an end-of-line marker is read as one line feed. */
  function ReadLiteral(s: string, depth: nat): (literal: Literal)
    ensures literal.Literal? ==> |literal.rest| < |s|
    decreases |s|
  {
    if s == "" then Unclosed
    else if s[0] == '\\' then (if |s| == 1 then Unclosed else Prepend(Escaped(s[1]), ReadLiteral(s[2..], depth)))
    else if s[0] == '(' then Prepend('(', ReadLiteral(s[1..], depth + 1))
    else if s[0] == ')' then (if depth == 0 then Literal("", s[1..]) else Prepend(')', ReadLiteral(s[1..], depth - 1)))
    else if s[0] == '\r' then
      (if |s| > 1 && s[1] == '\n' then Prepend('\n', ReadLiteral(s[2..], depth))
        else Prepend('\n', ReadLiteral(s[1..], depth)))
    else Prepend(s[0], ReadLiteral(s[1..], depth))
  }

  /** Each end-of-line marker becomes one line feed. */
  function LineFeeds(s: string): string
    decreases |s|
  {
    if s == "" then ""
    else if s[0] == '\r' then "\n" + LineFeeds(if |s| > 1 && s[1] == '\n' then s[2..] else s[1..])
    else [s[0]] + LineFeeds(s[1..])
  }

  lemma EscapeFirst(s: string, rest: string)
    requires s != ""
    ensures EscapeOnce(s) + ")" + rest == EscapeChar(s[0]) + (EscapeOnce(s[1..]) + ")" + rest)
  {
  }

  /** The reader recovers any escaped line, with its end-of-line markers read as line feeds. */
  lemma {:induction false} EscapeReadsBack(s: string, rest: string)
    ensures ReadLiteral(EscapeOnce(s) + ")" + rest, 0) == Literal(LineFeeds(s), rest)
    decreases |s|
  {
    if s == "" {
      assert EscapeOnce(s) + ")" + rest == ")" + rest && (")" + rest)[1..] == rest;
    } else {
      EscapeFirst(s, rest);
      var after := EscapeOnce(s[1..]) + ")" + rest;
      if s[0] == '\r' && |s| > 1 && s[1] == '\n' {
        EscapeFirst(s[1..], rest);
        EscapeReadsBack(s[2..], rest);
        assert s[1..][1..] == s[2..];
        ReadMarker(EscapeOnce(s[2..]) + ")" + rest, LineFeeds(s[2..]), rest);
      } else {
        EscapeReadsBack(s[1..], rest);
        if s[0] == '\r' { NoLineFeedNext(s[1..], rest); }
        ReadOne(s[0], after, LineFeeds(s[1..]), rest);
      }
    }
  }

  lemma ReadMarker(after: string, text: string, rest: string)
    requires ReadLiteral(after, 0) == Literal(text, rest)
    ensures ReadLiteral(EscapeChar('\r') + (EscapeChar('\n') + after), 0) == Literal("\n" + text, rest)
  {
    var s := EscapeChar('\r') + (EscapeChar('\n') + after);
    assert s[0] == '\r' && s[1] == '\n' && s[2..] == after;
  }

  lemma NoLineFeedNext(s: string, rest: string)
    requires s == "" || s[0] != '\n'
    ensures var after := EscapeOnce(s) + ")" + rest; after[0] != '\n'
  {
  }

  lemma ReadOne(c: char, after: string, text: string, rest: string)
    requires ReadLiteral(after, 0) == Literal(text, rest) && after != "" && (c == '\r' ==> after[0] != '\n')
    ensures ReadLiteral(EscapeChar(c) + after, 0) == Literal([if c == '\r' then '\n' else c] + text, rest)
  {
    var s := EscapeChar(c) + after;
    if NeedsBackslash(c) {
      assert s[0] == '\\' && s[1] == c && s[2..] == after;
    } else {
      assert s[0] == c && s[1..] == after;
    }
  }

  lemma {:induction false} LineFeedsLength(s: string)
    ensures |LineFeeds(s)| <= |s|
    decreases |s|
  {
    if s != "" { LineFeedsLength(if s[0] == '\r' && |s| > 1 && s[1] == '\n' then s[2..] else s[1..]); }
  }

  lemma {:induction false} LineFeedsKeep(s: string)
    ensures LineFeeds(s) == s <==> '\r' !in s
    decreases |s|
  {
    if s != "" {
      if s[0] == '\r' {
        LineFeedsLength(s);
        assert LineFeeds(s)[0] == '\n';
      } else {
        LineFeedsKeep(s[1..]);
        assert LineFeeds(s)[1..] == LineFeeds(s[1..]);
        assert s == [s[0]] + s[1..];
      }
    }
  }

  /** The escape of a line is undone by the reader exactly when the line holds no carriage return. */
  lemma EscapeIsUndone(line: string, rest: string)
    ensures ReadLiteral(PdfEscape(line) + ")" + rest, 0) == Literal(line, rest) <==> '\r' !in line
  {
    EscapeIsOnePass(line);
    EscapeReadsBack(line, rest);
    LineFeedsKeep(line);
  }
}
