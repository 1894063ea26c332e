/** Fitting receipt text to the paper: wrapping, two columns and the final safety split. Texts are
    already sanitized, so the only white space in them is the space. */
module ReceiptText {

  function Concat(parts: seq<string>): string {
    if parts == [] then "" else parts[0] + Concat(parts[1..])
  }

  lemma {:induction false} ConcatAppend(first: seq<string>, second: seq<string>)
    ensures Concat(first + second) == Concat(first) + Concat(second)
  {
    if first == [] {
      assert first + second == second;
    } else {
      assert (first + second)[1..] == first[1..] + second;
      ConcatAppend(first[1..], second);
    }
  }

  /** The text without its spaces. */
  function Ink(s: string): string {
    if s == "" then "" else (if s[0] == ' ' then "" else [s[0]]) + Ink(s[1..])
  }

  lemma {:induction false} InkAppend(a: string, b: string)
    ensures Ink(a + b) == Ink(a) + Ink(b)
  {
    if a == "" {
      assert a + b == b;
    } else {
      assert (a + b)[1..] == a[1..] + b;
      InkAppend(a[1..], b);
    }
  }

  predicate IsWord(s: string) { s != "" && ' ' !in s }

  predicate AreWords(words: seq<string>) {
    forall i :: 0 <= i < |words| ==> IsWord(words[i])
  }

  lemma {:induction false} WordIsInk(s: string)
    requires ' ' !in s
    ensures Ink(s) == s
  {
    if s != "" {
      assert s[0] in s;
      assert forall c :: c in s[1..] ==> c in s;
      WordIsInk(s[1..]);
      assert s == [s[0]] + s[1..];
    }
  }

  /** The first word of a text that does not start with a space, and what follows it. */
  function WordLength(s: string): (n: nat)
    ensures n <= |s| && ' ' !in s[..n] && (n < |s| ==> s[n] == ' ')
  {
    if s == "" || s[0] == ' ' then 0
    else
      var n := 1 + WordLength(s[1..]);
      assert s[..n] == [s[0]] + s[1..][..n - 1];
      n
  }

  /** split(/\s+/).filter(Boolean). */
  function Words(s: string): (words: seq<string>)
    ensures AreWords(words)
    decreases |s|
  {
    if s == "" then []
    else if s[0] == ' ' then Words(s[1..])
    else [s[..WordLength(s)]] + Words(s[WordLength(s)..])
  }

  lemma {:induction false} WordsKeepInk(s: string)
    ensures Concat(Words(s)) == Ink(s)
    decreases |s|
  {
    if s != "" {
      if s[0] == ' ' {
        WordsKeepInk(s[1..]);
      } else {
        var n := WordLength(s);
        WordsKeepInk(s[n..]);
        assert s == s[..n] + s[n..];
        InkAppend(s[..n], s[n..]);
        WordIsInk(s[..n]);
      }
    }
  }

  // ----- wrapping -----

  function Flushed(current: string): seq<string> {
    if current != "" then [current] else []
  }

  /** The full chunks of a token, and what remains after them. */
  function FullChunks(token: string, columns: nat): seq<string>
    requires columns > 0
  {
    if |token| < columns then [] else [token[..columns]] + FullChunks(token[columns..], columns)
  }

  function Remainder(token: string, columns: nat): (rest: string)
    requires columns > 0
    ensures |rest| < columns
  {
    if |token| < columns then token else Remainder(token[columns..], columns)
  }

  function Extended(current: string, word: string): string {
    if current != "" then current + " " + word else word
  }

  /** The lines that the loop still produces from its state. */
  function WrapFrom(words: seq<string>, current: string, columns: nat): seq<string>
    requires columns > 0
    decreases |words|
  {
    if words == [] then Flushed(current)
    else
      var word, rest := words[0], words[1..];
      if |word| > columns
        then Flushed(current) + FullChunks(word, columns) + WrapFrom(rest, Remainder(word, columns), columns)
      else if |Extended(current, word)| <= columns then WrapFrom(rest, Extended(current, word), columns)
      else Flushed(current) + WrapFrom(rest, word, columns)
  }

  function Wrap(clean: string, columns: nat): seq<string>
    requires columns > 0
  {
    if clean == "" then []
    else if Words(clean) == [] then [if |clean| <= columns then clean else clean[..columns]]
    else WrapFrom(Words(clean), "", columns)
  }

  /** hardSplit: `lines` grows by the full chunks, the rest becomes the current line. */
  method HardSplit(token: string, columns: nat) returns (lines: seq<string>, current: string)
    requires columns > 0
    ensures lines == FullChunks(token, columns) && current == Remainder(token, columns)
  {
    lines, current := [], "";
    var offset := 0;
    while offset < |token|
      invariant offset <= |token|
      invariant offset < |token| ==> FullChunks(token, columns) == lines + FullChunks(token[offset..], columns)
                                     && Remainder(token, columns) == Remainder(token[offset..], columns)
                                        && current == ""
      invariant offset == |token| ==> FullChunks(token, columns) == lines && Remainder(token, columns) == current
      decreases |token| - offset
    {
      var end := if offset + columns <= |token| then offset + columns else |token|;
      var chunk := token[offset..end];
      assert token[offset..][..end - offset] == chunk;
      if |chunk| == columns {
        assert token[offset..][columns..] == token[end..];
        lines := lines + [chunk];
      } else {
        assert token[offset..] == chunk;
        current := chunk;
      }
      offset := end;
    }
  }

  /** The body of the loop over the words: the lines it adds and the new current line. */
  method TakeWord(word: string, before: string, columns: nat, ghost rest: seq<string>)
      returns (lines: seq<string>, current: string)
    requires columns > 0
    ensures WrapFrom([word] + rest, before, columns) == lines + WrapFrom(rest, current, columns)
  {
    assert ([word] + rest)[1..] == rest;
    lines, current := [], before;
    if |word| > columns {
      if current != "" { lines := lines + [current]; }
      var chunks, remainder := HardSplit(word, columns);
      return lines + chunks, remainder;
    }
    var next := if current != "" then current + " " + word else word;
    if |next| <= columns { return lines, next; }
    if current != "" { lines := lines + [current]; }
    return lines, word;
  }

  method WrapPrinterLine(clean: string, columns: nat) returns (lines: seq<string>)
    requires columns > 0
    ensures lines == Wrap(clean, columns)
  {
    if clean == "" { return []; }
    var words := Words(clean);
    if words == [] { return [if |clean| <= columns then clean else clean[..columns]]; }
    lines := WrapWords(words, columns);
  }

  method WrapWords(words: seq<string>, columns: nat) returns (lines: seq<string>)
    requires columns > 0
    ensures lines == WrapFrom(words, "", columns)
  {
    lines := [];
    var current := "";
    for n := 0 to |words|
      invariant WrapFrom(words, "", columns) == lines + WrapFrom(words[n..], current, columns)
    {
      assert words[n..] == [words[n]] + words[n + 1..];
      var added, next := TakeWord(words[n], current, columns, words[n + 1..]);
      JoinLines(lines, added, WrapFrom(words[n + 1..], next, columns));
      lines, current := lines + added, next;
    }
    if current != "" { lines := lines + [current]; }
  }

  lemma JoinLines(a: seq<string>, b: seq<string>, c: seq<string>)
    ensures a + (b + c) == a + b + c
  {
  }

  predicate AllFit(lines: seq<string>, columns: nat) {
    forall i :: 0 <= i < |lines| ==> |lines[i]| <= columns
  }

  lemma {:induction false} ChunksFit(token: string, columns: nat)
    requires columns > 0
    ensures AllFit(FullChunks(token, columns), columns)
    ensures Concat(FullChunks(token, columns)) + Remainder(token, columns) == token
    decreases |token|
  {
    if |token| >= columns {
      ChunksFit(token[columns..], columns);
      assert token == token[..columns] + token[columns..];
    }
  }

  function InkOf(lines: seq<string>): string { Ink(Concat(lines)) }

  lemma InkOfAppend(first: seq<string>, second: seq<string>)
    ensures InkOf(first + second) == InkOf(first) + InkOf(second)
  {
    ConcatAppend(first, second);
    InkAppend(Concat(first), Concat(second));
  }

  lemma ConcatOne(line: string)
    ensures Concat([line]) == line
  {
    assert [line][1..] == [] && line + "" == line;
  }

  lemma FlushKeepsInk(current: string)
    ensures InkOf(Flushed(current)) == Ink(current)
  {
    if current != "" { ConcatOne(current); }
  }

  lemma ExtendKeepsInk(current: string, word: string)
    requires IsWord(word)
    ensures Ink(Extended(current, word)) == Ink(current) + word
  {
    WordIsInk(word);
    if current != "" {
      InkAppend(current + " ", word);
      InkAppend(current, " ");
      SpaceHasNoInk();
    }
  }

  lemma SpaceHasNoInk()
    ensures Ink(" ") == ""
  {
    assert " "[1..] == "";
  }

  lemma LongWordKeepsInk(word: string, columns: nat)
    requires columns > 0 && IsWord(word)
    ensures InkOf(FullChunks(word, columns)) + Ink(Remainder(word, columns)) == word
  {
    ChunksFit(word, columns);
    InkAppend(Concat(FullChunks(word, columns)), Remainder(word, columns));
    WordIsInk(word);
  }

  /** What the wrap owes for a state: lines that fit and hold the ink of the state in order. */
  ghost predicate Owes(lines: seq<string>, ink: string, columns: nat) {
    AllFit(lines, columns) && InkOf(lines) == ink
  }

  lemma LongWordStep(current: string, word: string, after: seq<string>, rest: string, columns: nat)
    requires columns > 0 && IsWord(word) && |current| <= columns
    requires Owes(after, Ink(Remainder(word, columns)) + rest, columns)
    ensures Owes(Flushed(current) + FullChunks(word, columns) + after, Ink(current) + (word + rest), columns)
  {
    FlushKeepsInk(current);
    ChunksFit(word, columns);
    LongWordKeepsInk(word, columns);
    ThreeInks(Flushed(current), FullChunks(word, columns), after, Ink(Remainder(word, columns)), word, rest);
  }

  lemma FlushStep(current: string, word: string, after: seq<string>, rest: string, columns: nat)
    requires IsWord(word) && |current| <= columns && Owes(after, Ink(word) + rest, columns)
    ensures Owes(Flushed(current) + after, Ink(current) + (word + rest), columns)
  {
    FlushKeepsInk(current);
    WordIsInk(word);
    InkOfAppend(Flushed(current), after);
  }

  /** Every line fits the paper, and the ink of the lines is the ink of the words, in order. */
  lemma {:induction false} WrapFromKeepsInk(words: seq<string>, current: string, columns: nat)
    requires columns > 0 && AreWords(words) && |current| <= columns
    ensures Owes(WrapFrom(words, current, columns), Ink(current) + Concat(words), columns)
    decreases |words|
  {
    if words == [] {
      FlushKeepsInk(current);
    } else {
      var word, rest := words[0], words[1..];
      if |word| > columns {
        WrapFromKeepsInk(rest, Remainder(word, columns), columns);
        LongWordStep(current, word, WrapFrom(rest, Remainder(word, columns), columns), Concat(rest), columns);
      } else if |Extended(current, word)| <= columns {
        ExtendKeepsInk(current, word);
        WrapFromKeepsInk(rest, Extended(current, word), columns);
        assert Ink(current) + word + Concat(rest) == Ink(current) + (word + Concat(rest));
      } else {
        WrapFromKeepsInk(rest, word, columns);
        FlushStep(current, word, WrapFrom(rest, word, columns), Concat(rest), columns);
      }
    }
  }

  lemma ThreeInks(first: seq<string>, chunks: seq<string>, after: seq<string>, remainder: string, word: string,
      rest: string)
    requires InkOf(chunks) + remainder == word && InkOf(after) == remainder + rest
    ensures InkOf(first + chunks + after) == InkOf(first) + (word + rest)
  {
    InkOfAppend(first + chunks, after);
    InkOfAppend(first, chunks);
  }

  lemma BlankKeepsInk(clean: string, line: string)
    requires Ink(clean) == "" && line <= clean
    ensures InkOf([line]) == ""
  {
    ConcatOne(line);
    InkAppend(line, clean[|line|..]);
    assert clean == line + clean[|line|..];
  }

  /** No produced line is longer than the paper, and no character but spaces is lost, added or
      moved, even across hard splits. */
  lemma WrapKeepsInk(clean: string, columns: nat)
    requires columns > 0
    ensures Owes(Wrap(clean, columns), Ink(clean), columns)
  {
    WordsKeepInk(clean);
    if clean != "" && Words(clean) == [] {
      BlankKeepsInk(clean, if |clean| <= columns then clean else clean[..columns]);
    } else if clean != "" {
      WrapFromKeepsInk(Words(clean), "", columns);
      assert "" + Concat(Words(clean)) == Concat(Words(clean));
    }
  }

  // ----- greedy wrapping is optimal -----

  /** A line of words, one space between them. */
  function LineOf(words: seq<string>): string {
    if |words| == 0 then "" else if |words| == 1 then words[0] else words[0] + " " + LineOf(words[1..])
  }

  function Flatten(layout: seq<seq<string>>): seq<string> {
    if layout == [] then [] else layout[0] + Flatten(layout[1..])
  }

  predicate ShortWords(words: seq<string>, columns: nat) {
    forall i :: 0 <= i < |words| ==> words[i] != "" && |words[i]| <= columns
  }

  /** How many lines the wrap needs depends on the current line only through its length. */
  lemma {:induction false} LongerStartCostsMore(words: seq<string>, short: string, long: string, columns: nat)
    requires columns > 0 && ShortWords(words, columns) && short != "" && long != "" && |short| <= |long|
    ensures |WrapFrom(words, short, columns)| <= |WrapFrom(words, long, columns)|
    decreases |words|, 0
  {
    if words != [] {
      var word, rest := words[0], words[1..];
      if |Extended(long, word)| <= columns {
        LongerStartCostsMore(rest, Extended(short, word), Extended(long, word), columns);
      } else if |Extended(short, word)| <= columns {
        AnyStartCostsOneMore(rest, Extended(short, word), word, columns);
      }
    }
  }

  /** No start costs more than one line more than another. */
  lemma {:induction false} AnyStartCostsOneMore(words: seq<string>, one: string, other: string, columns: nat)
    requires columns > 0 && ShortWords(words, columns) && one != "" && other != ""
    ensures |WrapFrom(words, one, columns)| <= 1 + |WrapFrom(words, other, columns)|
    decreases |words|, 1
  {
    if words != [] {
      var word, rest := words[0], words[1..];
      var oneFits, otherFits := |Extended(one, word)| <= columns, |Extended(other, word)| <= columns;
      if oneFits && otherFits {
        AnyStartCostsOneMore(rest, Extended(one, word), Extended(other, word), columns);
      } else if oneFits {
        AnyStartCostsOneMore(rest, Extended(one, word), word, columns);
      } else if otherFits {
        LongerStartCostsMore(rest, word, Extended(other, word), columns);
      }
    }
  }

  /** A line that fits is taken whole by the wrap. */
  lemma {:induction false} LineIsTaken(line: seq<string>, rest: seq<string>, current: string, columns: nat)
    requires columns > 0 && ShortWords(line, columns) && line != [] && |Extended(current, LineOf(line))| <= columns
    ensures WrapFrom(line + rest, current, columns) == WrapFrom(rest, Extended(current, LineOf(line)), columns)
    decreases |line|
  {
    var word, more := line[0], line[1..];
    assert (line + rest)[1..] == more + rest;
    if more == [] {
      assert more + rest == rest;
    } else {
      assert Extended(current, LineOf(line)) == Extended(Extended(current, word), LineOf(more));
      LineIsTaken(more, rest, Extended(current, word), columns);
    }
  }

  /** When no word exceeds the width, no other way to set the words in order on lines that fit
      needs fewer lines. */
  lemma {:induction false} WrapIsMinimal(layout: seq<seq<string>>, columns: nat)
    requires columns > 0 && ShortWords(Flatten(layout), columns)
    requires forall i :: 0 <= i < |layout| ==> |LineOf(layout[i])| <= columns
    ensures |WrapFrom(Flatten(layout), "", columns)| <= |layout|
    decreases |layout|
  {
    if layout != [] {
      var line, rest := layout[0], Flatten(layout[1..]);
      assert forall i :: 0 <= i < |rest| ==> Flatten(layout)[|line| + i] == rest[i];
      WrapIsMinimal(layout[1..], columns);
      if line == [] {
        assert Flatten(layout) == rest;
      } else {
        assert forall i :: 0 <= i < |line| ==> Flatten(layout)[i] == line[i];
        LineIsTaken(line, rest, "", columns);
        LineOfWords(line);
        FreshStart(rest, LineOf(line), columns);
      }
    }
  }

  lemma LineOfWords(line: seq<string>)
    requires line != [] && line[0] != ""
    ensures LineOf(line) != ""
  {
  }

  lemma FreshStart(words: seq<string>, current: string, columns: nat)
    requires columns > 0 && ShortWords(words, columns) && current != ""
    ensures |WrapFrom(words, current, columns)| <= 1 + |WrapFrom(words, "", columns)|
  {
    if words != [] {
      var word, rest := words[0], words[1..];
      if |Extended(current, word)| <= columns {
        AnyStartCostsOneMore(rest, Extended(current, word), word, columns);
      }
    }
  }

  /** The lines of the wrap are such a setting of the words. */
  lemma {:induction false} WrapIsLayout(words: seq<string>, taken: seq<string>, columns: nat)
      returns (layout: seq<seq<string>>)
    requires columns > 0 && ShortWords(words, columns) && ShortWords(taken, columns)
    ensures Flatten(layout) == taken + words
    ensures |layout| == |WrapFrom(words, LineOf(taken), columns)|
    ensures forall i :: 0 <= i < |layout| ==> LineOf(layout[i]) == WrapFrom(words, LineOf(taken), columns)[i]
    decreases |words|
  {
    if taken != [] { LineOfWords(taken); }
    if words == [] {
      layout := if taken == [] then [] else [taken];
      assert taken != [] ==> Flatten([taken]) == taken + Flatten([]);
    } else {
      var word, rest := words[0], words[1..];
      assert LineOf([word]) == word;
      if |Extended(LineOf(taken), word)| <= columns {
        LineOfExtended(taken, word);
        assert ShortWords(taken + [word], columns);
        layout := WrapIsLayout(rest, taken + [word], columns);
        assert taken + [word] + rest == taken + words;
      } else {
        var after := WrapIsLayout(rest, [word], columns);
        layout := Closed(taken) + after;
        assert [word] + rest == words;
      }
    }
  }

  /** The printed lines of a text are its words set in order, and no other setting that fits the paper
      has fewer lines. */
  lemma PrintedLinesAreMinimal(clean: string, other: seq<seq<string>>, columns: nat) returns (layout: seq<seq<string>>)
    requires columns > 0 && Words(clean) != [] && ShortWords(Words(clean), columns)
    requires Flatten(other) == Words(clean) && forall i :: 0 <= i < |other| ==> |LineOf(other[i])| <= columns
    ensures Flatten(layout) == Words(clean) && |layout| == |Wrap(clean, columns)| <= |other|
    ensures forall i :: 0 <= i < |layout| ==> LineOf(layout[i]) == Wrap(clean, columns)[i]
  {
    assert clean != "";
    WrapIsMinimal(other, columns);
    layout := WrapIsLayout(Words(clean), [], columns);
  }

  function Closed(taken: seq<string>): seq<seq<string>> {
    if taken != [] then [taken] else []
  }

  lemma {:induction false} LineOfExtended(taken: seq<string>, word: string)
    requires forall i :: 0 <= i < |taken| ==> taken[i] != ""
    ensures LineOf(taken + [word]) == Extended(LineOf(taken), word)
  {
    if |taken| > 1 {
      assert (taken + [word])[1..] == taken[1..] + [word];
      LineOfExtended(taken[1..], word);
    } else if |taken| == 1 {
      assert (taken + [word])[1..] == [word];
    } else {
      assert taken + [word] == [word];
    }
  }

  // ----- two columns -----

  function Max(a: int, b: int): int { if a > b then a else b }

  /** JavaScript's slice(0, end) for an end that is not negative. */
  function Slice(s: string, end: int): (r: string)
    requires end >= 0
    ensures r == if end <= |s| then s[..end] else s
  {
    if end <= |s| then s[..end] else s
  }

  function Spaces(n: nat): (s: string)
    ensures |s| == n && forall i :: 0 <= i < n ==> s[i] == ' '
  {
    seq(n, i => ' ')
  }

  function LeftPart(left: string, right: string, columns: int): string {
    Slice(left, Max(1, columns - |right| - 1))
  }

  function RightPart(left: string, right: string, columns: int): string
    requires columns >= 2
  {
    Slice(right, Max(0, columns - |LeftPart(left, right, columns)| - 1))
  }

  /** The line always fills the paper exactly. */
  function TwoColumns(left: string, right: string, columns: int): (line: string)
    requires columns >= 2
    ensures |line| == columns
  {
    var clipped := LeftPart(left, right, columns);
    clipped + Spaces(Max(1, columns - |clipped| - |right|)) + RightPart(left, right, columns)
  }

  /** The amount is printed whole, at the end of the line and behind a space, exactly when it leaves
      room for that space and the first character of its label; the label is whole exactly when
      both fit with a space between them. */
  lemma TwoColumnsClips(left: string, right: string, columns: int)
    requires columns >= 2
    ensures RightPart(left, right, columns) == right <==> |right| <= columns - (if left == "" then 1 else 2)
    ensures |right| <= columns - 2 ==>
      var line := TwoColumns(left, right, columns);
      line[columns - |right|..] == right && line[columns - |right| - 1] == ' '
    ensures LeftPart(left, right, columns) == left <==> |left| <= 1 || |left| + 1 + |right| <= columns
  {
    var clipped := LeftPart(left, right, columns);
    var line := TwoColumns(left, right, columns);
    if |right| <= columns - 2 {
      var gap := Spaces(Max(1, columns - |clipped| - |right|));
      assert line == (clipped + gap) + right && |clipped + gap| == columns - |right|;
      assert (clipped + gap)[columns - |right| - 1] == gap[|gap| - 1];
    }
  }

  // ----- the final split -----

  function Chunks(line: string, columns: nat): seq<string>
    requires columns > 0
    decreases |line|
  {
    if |line| <= columns then [line] else [line[..columns]] + Chunks(line[columns..], columns)
  }

  function Fit(lines: seq<string>, columns: nat): seq<string>
    requires columns > 0
  {
    if lines == [] then [] else Chunks(lines[0], columns) + Fit(lines[1..], columns)
  }

  method FitReceiptLines(lines: seq<string>, columns: nat) returns (fitted: seq<string>)
    requires columns > 0
    ensures fitted == Fit(lines, columns)
  {
    fitted := [];
    for n := 0 to |lines|
      invariant Fit(lines, columns) == fitted + Fit(lines[n..], columns)
    {
      var line := lines[n];
      assert lines[n..][0] == line && lines[n..][1..] == lines[n + 1..];
      ghost var before := fitted;
      if |line| <= columns {
        fitted := fitted + [line];
      } else {
        var chunks := SplitLine(line, columns);
        fitted := fitted + chunks;
      }
      JoinLines(before, Chunks(line, columns), Fit(lines[n + 1..], columns));
    }
  }

  function ChunksFrom(line: string, offset: nat, columns: nat): seq<string>
    requires columns > 0 && offset <= |line|
  {
    if offset < |line| then Chunks(line[offset..], columns) else []
  }

  lemma ChunkStep(line: string, offset: nat, end: nat, columns: nat)
    requires columns > 0 && offset < |line| && end == if offset + columns <= |line| then offset + columns else |line|
    ensures ChunksFrom(line, offset, columns) == [line[offset..end]] + ChunksFrom(line, end, columns)
  {
    var rest := line[offset..];
    assert rest[..end - offset] == line[offset..end] && rest[end - offset..] == line[end..];
    if |rest| <= columns { assert end == |line| && rest == line[offset..end]; }
  }

  method SplitLine(line: string, columns: nat) returns (chunks: seq<string>)
    requires columns > 0 && |line| > columns
    ensures chunks == Chunks(line, columns)
  {
    chunks := [];
    var offset := 0;
    assert line[0..] == line;
    while offset < |line|
      invariant offset <= |line| && Chunks(line, columns) == chunks + ChunksFrom(line, offset, columns)
      decreases |line| - offset
    {
      var end := if offset + columns <= |line| then offset + columns else |line|;
      ChunkStep(line, offset, end, columns);
      JoinLines(chunks, [line[offset..end]], ChunksFrom(line, end, columns));
      chunks := chunks + [line[offset..end]];
      offset := end;
    }
  }

  lemma {:induction false} ChunksAreLine(line: string, columns: nat)
    requires columns > 0
    ensures AllFit(Chunks(line, columns), columns) && Concat(Chunks(line, columns)) == line
    decreases |line|
  {
    if |line| > columns {
      ChunksAreLine(line[columns..], columns);
      assert line == line[..columns] + line[columns..];
    } else {
      ConcatOne(line);
    }
  }

  /** No line that reaches the printer is too long, nothing is lost, and lines that fit stay as
      they are. */
  lemma {:induction false} FitKeepsText(lines: seq<string>, columns: nat)
    requires columns > 0
    ensures AllFit(Fit(lines, columns), columns) && Concat(Fit(lines, columns)) == Concat(lines)
    ensures Fit(lines, columns) == lines <==> AllFit(lines, columns)
    decreases |lines|
  {
    if lines != [] {
      ChunksAreLine(lines[0], columns);
      FitKeepsText(lines[1..], columns);
      ConcatAppend(Chunks(lines[0], columns), Fit(lines[1..], columns));
      assert lines == [lines[0]] + lines[1..];
      if AllFit(lines, columns) { assert |lines[0]| <= columns; }
    }
  }


  /** Every piece of a split line but the last fills the paper, and the last is not empty. */
  lemma {:induction false} ChunksAreFull(line: string, columns: nat)
    requires columns > 0 && |line| > columns
    ensures var chunks := Chunks(line, columns);
      && (forall i :: 0 <= i < |chunks| - 1 ==> |chunks[i]| == columns)
      && chunks != [] && 0 < |chunks[|chunks| - 1]| <= columns
    decreases |line|
  {
    if |line[columns..]| > columns { ChunksAreFull(line[columns..], columns); }
  }

  /** A clipped label keeps as many characters as fit beside the amount and a space, and always one;
      a clipped amount as many as fit beside the label. */
  lemma ClippedKeeps(left: string, right: string, columns: int)
    requires columns >= 2
    ensures var kept, room := LeftPart(left, right, columns), columns - |right| - 1;
      && kept <= left && (|left| <= room || |left| <= 1 ==> kept == left)
      && (|left| > 1 && |left| > room ==> |kept| == if room > 1 then room else 1)
    ensures var kept, room := RightPart(left, right, columns), columns - |LeftPart(left, right, columns)| - 1;
      kept <= right && |kept| == if |right| <= room then |right| else if room > 0 then room else 0
  {
  }
}
