/** Reading the classifier's answer: "safe", or "unsafe" and a line of category codes. */
module VerdictParser {
  import opened Messages

  /** What trimming removes: white space and line terminators. */
  predicate IsSpace(c: char) {
    || '\t' <= c <= '\r' || c == ' ' || c == '\U{00A0}' || c == '\U{1680}'
    || '\U{2000}' <= c <= '\U{200A}' || c == '\U{2028}' || c == '\U{2029}' || c == '\U{202F}'
    || c == '\U{205F}' || c == '\U{3000}' || c == '\U{FEFF}'
  }

  function TrimStart(s: string): string {
    if s == "" || !IsSpace(s[0]) then s else TrimStart(s[1..])
  }

  function TrimEnd(s: string): string {
    if s == "" || !IsSpace(s[|s| - 1]) then s else TrimEnd(s[..|s| - 1])
  }

  function Trim(s: string): string {
    TrimEnd(TrimStart(s))
  }

  /** The parts between one-character separators. */
  function Split(s: string, sep: char): (parts: seq<string>)
    ensures |parts| >= 1
  {
    if s == "" then [""]
    else
      var rest := Split(s[1..], sep);
      if s[0] == sep then [""] + rest else [[s[0]] + rest[0]] + rest[1..]
  }

  /** Starts with "safe" in any case; no other character lowers to one of these four letters. */
  predicate StartsWithSafe(s: string) {
    |s| >= 4 && s[0] in "sS" && s[1] in "aA" && s[2] in "fF" && s[3] in "eE"
  }

  /** The trimmed parts that are not empty. */
  function Codes(parts: seq<string>): seq<string> {
    if parts == [] then [] else
      (if Trim(parts[0]) != "" then [Trim(parts[0])] else []) + Codes(parts[1..])
  }

  function ParseVerdict(raw: string): Classification {
    var trimmed := Trim(raw);
    if StartsWithSafe(trimmed) then Classification(Approved, []) else
      var lines := Split(trimmed, '\n');
      var line := if |lines| > 1 then lines[1] else "";
      Classification(Rejected, if line == "" then [] else Codes(Split(line, ',')))
  }

  // ----- printing -----

  function Join(codes: seq<string>): string
    requires codes != []
  {
    if |codes| == 1 then codes[0] else codes[0] + "," + Join(codes[1..])
  }

  function Print(c: Classification): string {
    if c.verdict.Approved? then "safe"
    else if c.categories == [] then "unsafe"
    else "unsafe" + "\n" + Join(c.categories)
  }

  predicate IsCode(code: string) {
    && code != "" && ',' !in code && '\n' !in code
    && !IsSpace(code[0]) && !IsSpace(code[|code| - 1])
  }

  predicate Padding(s: string) {
    forall c :: c in s ==> IsSpace(c)
  }

  // ----- trim -----

  /** Non-empty and unchanged by trim. */
  predicate Solid(s: string) {
    s != "" && !IsSpace(s[0]) && !IsSpace(s[|s| - 1])
  }

  lemma {:induction false} TrimStartPadding(pad: string, s: string)
    requires Padding(pad) && s != "" && !IsSpace(s[0])
    ensures TrimStart(pad + s) == s
  {
    if pad == "" {
      assert pad + s == s;
    } else {
      assert (pad + s)[1..] == pad[1..] + s;
      TrimStartPadding(pad[1..], s);
    }
  }

  lemma {:induction false} TrimEndPadding(s: string, pad: string)
    requires Padding(pad) && s != "" && !IsSpace(s[|s| - 1])
    ensures TrimEnd(s + pad) == s
  {
    if pad == "" {
      assert s + pad == s;
    } else {
      assert (s + pad)[..|s + pad| - 1] == s + pad[..|pad| - 1];
      TrimEndPadding(s, pad[..|pad| - 1]);
    }
  }

  lemma TrimPadded(before: string, s: string, after: string)
    requires Padding(before) && Padding(after) && Solid(s)
    ensures Trim(before + s + after) == s
  {
    assert before + s + after == before + (s + after);
    TrimStartPadding(before, s + after);
    TrimEndPadding(s, after);
  }

  lemma {:induction false} TrimStartShape(s: string)
    ensures TrimStart(s) == "" || !IsSpace(TrimStart(s)[0])
    ensures forall c :: c in TrimStart(s) ==> c in s
  {
    if s != "" && IsSpace(s[0]) {
      TrimStartShape(s[1..]);
    }
  }

  lemma {:induction false} TrimEndShape(s: string)
    ensures TrimEnd(s) == "" || (!IsSpace(TrimEnd(s)[|TrimEnd(s)| - 1]) && TrimEnd(s)[0] == s[0])
    ensures forall c :: c in TrimEnd(s) ==> c in s
  {
    if s != "" && IsSpace(s[|s| - 1]) {
      TrimEndShape(s[..|s| - 1]);
    }
  }

  lemma TrimShape(s: string)
    ensures Trim(s) == "" || Solid(Trim(s))
    ensures forall c :: c in Trim(s) ==> c in s
  {
    TrimStartShape(s);
    TrimEndShape(TrimStart(s));
  }

  // ----- split -----

  lemma {:induction false} SplitFirst(a: string, sep: char, b: string)
    requires sep !in a
    ensures Split(a + [sep] + b, sep) == [a] + Split(b, sep)
  {
    if a == "" {
      assert (a + [sep] + b)[1..] == b;
    } else {
      assert (a + [sep] + b)[1..] == a[1..] + [sep] + b;
      SplitFirst(a[1..], sep, b);
      assert [a[0]] + a[1..] == a;
    }
  }

  lemma {:induction false} SplitWhole(a: string, sep: char)
    requires sep !in a
    ensures Split(a, sep) == [a]
  {
    if a != "" {
      SplitWhole(a[1..], sep);
      assert [a[0]] + a[1..] == a;
    }
  }

  lemma {:induction false} SplitParts(s: string, sep: char)
    ensures forall p :: p in Split(s, sep) ==> sep !in p
    ensures forall p, c :: p in Split(s, sep) && c in p ==> c in s
  {
    if s != "" {
      SplitParts(s[1..], sep);
      var rest := Split(s[1..], sep);
      assert rest[0] in rest;
      forall p | p in Split(s, sep)
        ensures sep !in p && forall c :: c in p ==> c in s
      {
        assert p == "" || p == [s[0]] + rest[0] || p in rest;
      }
    }
  }

  lemma {:induction false} JoinShape(codes: seq<string>)
    requires codes != [] && forall c :: c in codes ==> IsCode(c)
    ensures Solid(Join(codes)) && '\n' !in Join(codes)
    ensures Split(Join(codes), ',') == codes
  {
    assert IsCode(codes[0]);
    if |codes| == 1 {
      SplitWhole(codes[0], ',');
    } else {
      JoinShape(codes[1..]);
      SplitFirst(codes[0], ',', Join(codes[1..]));
      assert Join(codes)[|Join(codes)| - 1] == Join(codes[1..])[|Join(codes[1..])| - 1];
    }
  }

  lemma {:induction false} CodesAreTrimmed(codes: seq<string>)
    requires forall c :: c in codes ==> IsCode(c)
    ensures Codes(codes) == codes
  {
    if codes != [] {
      assert IsCode(codes[0]);
      TrimPadded("", codes[0], "");
      assert "" + codes[0] + "" == codes[0];
      CodesAreTrimmed(codes[1..]);
    }
  }

  lemma {:induction false} CodesShape(parts: seq<string>)
    requires forall p :: p in parts ==> ',' !in p && '\n' !in p
    ensures forall c :: c in Codes(parts) ==> IsCode(c)
  {
    if parts != [] {
      TrimShape(parts[0]);
      assert parts[0] in parts;
      CodesShape(parts[1..]);
    }
  }

  // ----- trim, whatever is around -----

  /** Trimming the end leaves a prefix, and never cuts into what ends in a letter. */
  lemma {:induction false} TrimEndKeeps(w: string, rest: string)
    requires w == "" || !IsSpace(w[|w| - 1])
    ensures w <= TrimEnd(w + rest) <= w + rest
  {
    var s := w + rest;
    if rest == "" {
      assert s == w;
    } else if IsSpace(s[|s| - 1]) {
      assert s[..|s| - 1] == w + rest[..|rest| - 1];
      TrimEndKeeps(w, rest[..|rest| - 1]);
    }
  }

  lemma {:induction false} TrimEndPads(s: string, pad: string)
    requires Padding(pad)
    ensures TrimEnd(s + pad) == TrimEnd(s)
  {
    if pad == "" {
      assert s + pad == s;
    } else {
      assert (s + pad)[..|s + pad| - 1] == s + pad[..|pad| - 1];
      TrimEndPads(s, pad[..|pad| - 1]);
    }
  }

  lemma {:induction false} TrimEndInto(s: string, t: string)
    requires !Padding(t)
    ensures TrimEnd(s + t) == s + TrimEnd(t) && TrimEnd(t) != ""
  {
    if IsSpace(t[|t| - 1]) {
      var front := t[..|t| - 1];
      assert (s + t)[..|s + t| - 1] == s + front;
      assert t == front + [t[|t| - 1]];
      TrimEndInto(s, front);
    }
  }

  lemma Regroup(a: string, b: string, c: string)
    ensures a + b + c == a + (b + c)
  {
  }

  lemma {:induction false} TrimStartSplits(s: string) returns (pad: string)
    ensures Padding(pad) && s == pad + TrimStart(s)
  {
    if s == "" || !IsSpace(s[0]) {
      pad := "";
    } else {
      var rest := TrimStartSplits(s[1..]);
      pad := [s[0]] + rest;
      Regroup([s[0]], rest, TrimStart(s[1..]));
      assert s == [s[0]] + s[1..];
    }
  }

  lemma {:induction false} TrimStartAppend(s: string, c: char)
    requires IsSpace(c)
    ensures TrimStart(s + [c]) == if TrimStart(s) == "" then "" else TrimStart(s) + [c]
  {
    if s == "" {
      assert s + [c] == [c] && TrimStart([c][1..]) == "";
    } else {
      assert (s + [c])[1..] == s[1..] + [c];
      if IsSpace(s[0]) {
        TrimStartAppend(s[1..], c);
      }
    }
  }

  lemma TrimAppend(s: string, c: char)
    requires IsSpace(c)
    ensures Trim(s + [c]) == Trim(s)
  {
    TrimStartAppend(s, c);
    var t := TrimStart(s) + [c];
    assert t[..|t| - 1] == TrimStart(s);
  }

  // ----- a line of codes, whatever surrounds them -----

  lemma {:induction false} CodesAppend(a: seq<string>, b: seq<string>)
    ensures Codes(a + b) == Codes(a) + Codes(b)
  {
    if a == [] {
      assert a + b == b;
    } else {
      assert (a + b)[1..] == a[1..] + b;
      CodesAppend(a[1..], b);
    }
  }

  lemma {:induction false} SplitAppend(s: string, sep: char, c: char)
    requires c != sep
    ensures var parts := Split(s, sep);
      Split(s + [c], sep) == parts[..|parts| - 1] + [parts[|parts| - 1] + [c]]
  {
    if s == "" {
      assert (s + [c])[1..] == "";
      assert [c] + "" == "" + [c];
    } else {
      assert (s + [c])[1..] == s[1..] + [c];
      SplitAppend(s[1..], sep, c);
      var rest := Split(s[1..], sep);
      if s[0] != sep && |rest| == 1 {
        assert [s[0]] + (rest[0] + [c]) == [s[0]] + rest[0] + [c];
      }
    }
  }

  /** White space at the end of a line changes no code. */
  lemma {:induction false} CodesTrimmed(line: string)
    ensures Codes(Split(TrimEnd(line), ',')) == Codes(Split(line, ','))
  {
    if line != "" && IsSpace(line[|line| - 1]) {
      var front, c := line[..|line| - 1], line[|line| - 1];
      CodesTrimmed(front);
      SplitAppend(front, ',', c);
      assert line == front + [c];
      LastPartTrimmed(Split(front, ','), c);
    }
  }

  lemma LastPartTrimmed(parts: seq<string>, c: char)
    requires parts != [] && IsSpace(c)
    ensures Codes(parts[..|parts| - 1] + [parts[|parts| - 1] + [c]]) == Codes(parts)
  {
    var init, last := parts[..|parts| - 1], parts[|parts| - 1];
    assert parts == init + [last];
    TrimAppend(last, c);
    CodesAppend(init, [last]);
    CodesAppend(init, [last + [c]]);
  }

  /** A code, or nothing, with white space around it. */
  datatype Item = Item(left: string, code: string, right: string)

  predicate ItemOk(item: Item) {
    && Padding(item.left) && Padding(item.right) && '\n' !in item.left && '\n' !in item.right
    && (item.code == "" || IsCode(item.code))
  }

  function Rendered(items: seq<Item>): (texts: seq<string>)
    ensures |texts| == |items|
  {
    if items == [] then [] else [items[0].left + items[0].code + items[0].right] + Rendered(items[1..])
  }

  /** The codes that are there, in order. */
  function Kept(items: seq<Item>): seq<string> {
    if items == [] then [] else (if items[0].code == "" then [] else [items[0].code]) + Kept(items[1..])
  }

  lemma {:induction false} TrimStartAll(pad: string)
    requires Padding(pad)
    ensures TrimStart(pad) == ""
  {
    if pad != "" {
      TrimStartAll(pad[1..]);
    }
  }

  lemma ItemIsRead(item: Item)
    requires ItemOk(item)
    ensures Trim(item.left + item.code + item.right) == item.code
    ensures ',' !in item.left + item.code + item.right && '\n' !in item.left + item.code + item.right
  {
    if item.code == "" {
      TrimStartAll(item.left + item.code + item.right);
    } else {
      TrimPadded(item.left, item.code, item.right);
    }
  }

  lemma {:induction false} ItemsAreRead(items: seq<Item>)
    requires items != [] && forall item :: item in items ==> ItemOk(item)
    ensures Rendered(items) != [] && '\n' !in Join(Rendered(items))
    ensures Split(Join(Rendered(items)), ',') == Rendered(items) && Codes(Rendered(items)) == Kept(items)
  {
    var text := items[0].left + items[0].code + items[0].right;
    ItemIsRead(items[0]);
    if |items| == 1 {
      assert Rendered(items) == [text];
      SplitWhole(text, ',');
    } else {
      ItemsAreRead(items[1..]);
      assert Rendered(items)[1..] == Rendered(items[1..]);
      SplitFirst(text, ',', Join(Rendered(items[1..])));
    }
  }

  // ----- what holds of the parser -----

  function Lower(c: char): char {
    if 'A' <= c <= 'Z' then c - 'A' + 'a' else c
  }

  /** "safe" in any case. */
  predicate SpellsSafe(w: string) {
    |w| == 4 && forall i :: 0 <= i < 4 ==> Lower(w[i]) == "safe"[i]
  }

  lemma SafeLetters(s: string)
    ensures StartsWithSafe(s) <==> |s| >= 4 && SpellsSafe(s[..4])
  {
    if |s| >= 4 {
      assert SpellsSafe(s[..4]) <==>
        Lower(s[0]) == 's' && Lower(s[1]) == 'a' && Lower(s[2]) == 'f' && Lower(s[3]) == 'e';
    }
  }

  /** The answer is white space, then "safe" in any case, then anything. */
  ghost predicate SaysSafe(raw: string, before: string, w: string, rest: string) {
    raw == before + w + rest && Padding(before) && SpellsSafe(w)
  }

  lemma SafeIsApproved(before: string, w: string, rest: string)
    requires Padding(before) && SpellsSafe(w)
    ensures ParseVerdict(before + w + rest) == Classification(Approved, [])
  {
    assert Lower(w[0]) == 's' && Lower(w[3]) == 'e';
    assert before + w + rest == before + (w + rest);
    TrimStartPadding(before, w + rest);
    TrimEndKeeps(w, rest);
    SafeLetters(TrimEnd(w + rest));
  }

  ghost predicate IsSafe(raw: string) {
    exists before, w, rest :: SaysSafe(raw, before, w, rest)
  }

  lemma SafeWasSaid(raw: string)
    requires StartsWithSafe(Trim(raw))
    ensures IsSafe(raw)
  {
    var pad := TrimStartSplits(raw);
    var text := TrimStart(raw);
    TrimIsPrefix(text);
    SafeLetters(Trim(raw));
    assert Trim(raw)[..4] == text[..4];
    SaysSafeAt(raw, pad, text);
  }

  lemma TrimIsPrefix(s: string)
    ensures TrimEnd(s) <= s
  {
    assert "" + s == s;
    TrimEndKeeps("", s);
  }

  lemma SaysSafeAt(raw: string, pad: string, text: string)
    requires raw == pad + text && Padding(pad) && |text| >= 4 && SpellsSafe(text[..4])
    ensures IsSafe(raw)
  {
    Regroup(pad, text[..4], text[4..]);
    assert text[..4] + text[4..] == text;
    assert SaysSafe(raw, pad, text[..4], text[4..]);
  }

  /** An answer is approved, without categories, if and only if it says safe in this sense; every other
      answer is rejected. */
  lemma ApprovedExactly(raw: string)
    ensures ParseVerdict(raw) == Classification(Approved, []) <==> IsSafe(raw)
    ensures ParseVerdict(raw).verdict.Rejected? <==> !IsSafe(raw)
  {
    if IsSafe(raw) {
      var before, w, rest :| SaysSafe(raw, before, w, rest);
      SafeIsApproved(before, w, rest);
    }
    if StartsWithSafe(Trim(raw)) {
      SafeWasSaid(raw);
    }
  }

  /** A first line, of any words but "safe". */
  predicate OtherWords(first: string) {
    && first != "" && !IsSpace(first[0]) && '\n' !in first
    && !(|first| >= 4 && SpellsSafe(first[..4]))
  }

  /** Such an answer is not mistaken for an approval, however its end is trimmed. */
  lemma NotSafe(first: string, text: string, trimmed: string)
    requires OtherWords(first) && first <= text && trimmed <= text
    requires |text| > |first| ==> text[|first|] == '\n'
    ensures !StartsWithSafe(trimmed)
  {
    SafeLetters(trimmed);
    if |trimmed| >= 4 {
      assert trimmed[..4] == text[..4];
      if |first| >= 4 {
        assert text[..4] == first[..4];
      } else {
        assert text[..4][|first|] == '\n' && Lower('\n') == '\n';
      }
    }
  }

  lemma SecondLine(first: string, line: string, rest: string)
    requires OtherWords(first) && '\n' !in line && (rest == "" || rest[0] == '\n')
    ensures var lines := Split(TrimEnd(first + "\n" + line + rest), '\n');
      |lines| == 1 || (lines[1] == line || lines[1] == TrimEnd(line))
    ensures |Split(TrimEnd(first + "\n" + line + rest), '\n')| == 1 ==> Padding(line)
  {
    if Padding(rest) {
      TrimEndPads(first + "\n" + line, rest);
      if Padding(line) {
        NoSecondLine(first, line);
      } else {
        LastLine(first, line);
      }
    } else {
      MoreLines(first, line, rest);
    }
  }

  lemma NoSecondLine(first: string, line: string)
    requires '\n' !in first && Padding(line)
    ensures |Split(TrimEnd(first + "\n" + line), '\n')| == 1
  {
    Regroup(first, "\n", line);
    TrimEndPads(first, "\n" + line);
    TrimEndShape(first);
    SplitWhole(TrimEnd(first), '\n');
  }

  lemma LastLine(first: string, line: string)
    requires '\n' !in first && '\n' !in line && !Padding(line)
    ensures Split(TrimEnd(first + "\n" + line), '\n') == [first, TrimEnd(line)]
  {
    TrimEndInto(first + "\n", line);
    TrimEndShape(line);
    SplitFirst(first, '\n', TrimEnd(line));
    SplitWhole(TrimEnd(line), '\n');
  }

  lemma MoreLines(first: string, line: string, rest: string)
    requires '\n' !in first && '\n' !in line && rest != "" && rest[0] == '\n' && !Padding(rest)
    ensures var lines := Split(TrimEnd(first + "\n" + line + rest), '\n'); |lines| > 1 && lines[1] == line
  {
    TrimEndInto(first + "\n" + line, rest);
    TrimEndShape(rest);
    var more := TrimEnd(rest)[1..];
    assert TrimEnd(rest) == ['\n'] + more;
    Regroup(line, ['\n'], more);
    Regroup(first + "\n", line, ['\n'] + more);
    SplitFirst(first, '\n', line + ['\n'] + more);
    SplitFirst(line, '\n', more);
  }

  lemma LineIsRead(first: string, line: string, rest: string)
    requires OtherWords(first) && '\n' !in line && (rest == "" || rest[0] == '\n')
    ensures ParseVerdict(first + "\n" + line + rest) == Classification(Rejected, Codes(Split(line, ',')))
  {
    var text := first + "\n" + line + rest;
    assert TrimStart(text) == text;
    TrimIsPrefix(text);
    NotSafe(first, text, TrimEnd(text));
    SecondLine(first, line, rest);
    CodesTrimmed(line);
    if Padding(line) {
      BlankLine(line);
    }
  }

  lemma BlankLine(line: string)
    requires Padding(line)
    ensures TrimEnd(line) == "" && Codes(Split("", ',')) == []
  {
    assert "" + line == line;
    TrimEndPads("", line);
  }

  /** Any answer that does not say safe is read by its second line alone: the codes between its commas,
      trimmed, in order, the empty ones left out. What stands in the first line or in later ones does not
      matter. */
  lemma CodesAreRead(before: string, first: string, items: seq<Item>, rest: string)
    requires Padding(before) && OtherWords(first) && (rest == "" || rest[0] == '\n')
    requires items != [] && forall item :: item in items ==> ItemOk(item)
    ensures ParseVerdict(before + first + "\n" + Join(Rendered(items)) + rest) == Classification(Rejected, Kept(items))
  {
    ItemsAreRead(items);
    LineIsRead(first, Join(Rendered(items)), rest);
    PaddingIsSkipped(before, first, Join(Rendered(items)), rest);
  }

  lemma PaddingIsSkipped(before: string, first: string, line: string, rest: string)
    requires Padding(before) && OtherWords(first)
    ensures ParseVerdict(before + first + "\n" + line + rest) == ParseVerdict(first + "\n" + line + rest)
  {
    var text := first + "\n" + line + rest;
    Regroup(before, first, "\n");
    Regroup(before, first + "\n", line);
    Regroup(before, first + "\n" + line, rest);
    TrimStartPadding(before, text);
  }

  /** Without a second line there are no codes. */
  lemma OneLineNoCodes(before: string, first: string)
    requires Padding(before) && OtherWords(first)
    ensures ParseVerdict(before + first) == Classification(Rejected, [])
  {
    TrimStartPadding(before, first);
    TrimIsPrefix(first);
    NotSafe(first, first, TrimEnd(first));
    TrimEndShape(first);
    SplitWhole(TrimEnd(first), '\n');
  }

  /** Parsing undoes printing: an approval, and a rejection with any codes, are read back from their
      print in any surrounding white space. */
  lemma ParseUndoesPrint(before: string, c: Classification, after: string)
    requires Padding(before) && Padding(after)
    requires (c.verdict.Approved? ==> c.categories == []) && forall code :: code in c.categories ==> IsCode(code)
    ensures ParseVerdict(before + Print(c) + after) == c
  {
    if c.verdict.Approved? {
      assert SpellsSafe("safe");
      SafeIsApproved(before, "safe", after);
    } else {
      RejectionIsRead(before, c.categories, after);
    }
  }

  lemma RejectionIsRead(before: string, codes: seq<string>, after: string)
    requires Padding(before) && Padding(after) && forall c :: c in codes ==> IsCode(c)
    ensures ParseVerdict(before + Print(Classification(Rejected, codes)) + after) == Classification(Rejected, codes)
  {
    var s := Print(Classification(Rejected, codes));
    if codes == [] {
      TrimPadded(before, s, after);
      SplitWhole(s, '\n');
    } else {
      JoinShape(codes);
      assert s[|s| - 1] == Join(codes)[|Join(codes)| - 1];
      TrimPadded(before, s, after);
      assert s == "unsafe" + ['\n'] + Join(codes);
      SplitFirst("unsafe", '\n', Join(codes));
      SplitWhole(Join(codes), '\n');
      CodesAreTrimmed(codes);
    }
  }

  /** On every input: an approval carries no categories, and every category is a proper code. */
  lemma CategoriesAreCodes(raw: string)
    ensures ParseVerdict(raw).verdict.Approved? ==> ParseVerdict(raw).categories == []
    ensures forall c :: c in ParseVerdict(raw).categories ==> IsCode(c)
  {
    var trimmed := Trim(raw);
    var lines := Split(trimmed, '\n');
    if !StartsWithSafe(trimmed) && |lines| > 1 {
      SplitParts(trimmed, '\n');
      assert lines[1] in lines;
      SplitParts(lines[1], ',');
      CodesShape(Split(lines[1], ','));
    }
  }

  /** So every answer has a normal form that reads the same: parse, print, parse is parse. */
  lemma ParseIsStable(raw: string)
    ensures ParseVerdict(Print(ParseVerdict(raw))) == ParseVerdict(raw)
  {
    var c := ParseVerdict(raw);
    CategoriesAreCodes(raw);
    ParseUndoesPrint("", c, "");
    assert "" + Print(c) + "" == Print(c);
  }
}
