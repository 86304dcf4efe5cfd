/** The block structure of model-authored markdown (static/md.js): paragraphs, lists, fences,
    headings, quotes and pipe tables. Inline styling is left to the text; a block keeps the raw
    text of its lines and the range of lines it was made from. */
module Markdown {
  import opened Basics

  const MAX_DEPTH := 4

  // ---------------------------------------------------------------------- lines

  /** White space as String.trim and \s know it. */
  predicate IsSpace(c: char) {
    var n := c as int;
    || 9 <= n <= 13 || n == 0x20 || n == 0xa0 || n == 0x1680 || 0x2000 <= n <= 0x200a
    || n == 0x2028 || n == 0x2029 || n == 0x202f || n == 0x205f || n == 0x3000 || n == 0xfeff
  }

  /** A character `.` does not match. */
  predicate IsTerminator(c: char) {
    c == '\n' || c == '\r' || c as int == 0x2028 || c as int == 0x2029
  }

  function TrimStart(s: string): (r: string)
    ensures |r| <= |s|
  {
    if s == "" || !IsSpace(s[0]) then s else TrimStart(s[1..])
  }

  function TrimEnd(s: string): (r: string)
    ensures |r| <= |s|
  {
    if s == "" || !IsSpace(s[|s| - 1]) then s else TrimEnd(s[..|s| - 1])
  }

  function Trim(s: string): string {
    TrimEnd(TrimStart(s))
  }

  /** `text.replace(/\r\n?/g, "\n").split("\n")`; `line` is the line being read. */
  function SplitFrom(text: string, line: string): seq<string> {
    if text == "" then [line]
    else if text[0] == '\n' || (text[0] == '\r' && !(|text| > 1 && text[1] == '\n'))
    then [line] + SplitFrom(text[1..], "")
    else if text[0] == '\r' then [line] + SplitFrom(text[2..], "")
    else SplitFrom(text[1..], line + [text[0]])
  }

  function Split(text: string): seq<string> {
    SplitFrom(text, "")
  }

  function Join(lines: seq<string>): string
    requires lines != []
  {
    if |lines| == 1 then lines[0] else lines[0] + "\n" + Join(lines[1..])
  }

  predicate OneLine(s: string) {
    '\n' !in s && '\r' !in s
  }

  lemma {:induction false} SplitOneLine(s: string, rest: string, line: string)
    requires OneLine(s) && (rest == "" || rest[0] == '\n')
    ensures SplitFrom(s + rest, line) ==
            if rest == "" then [line + s] else [line + s] + SplitFrom(rest[1..], "")
  {
    if s == "" {
      assert s + rest == rest && line + s == line;
    } else {
      assert (s + rest)[1..] == s[1..] + rest && (s + rest)[0] == s[0] && s[0] in s;
      assert line + [s[0]] + s[1..] == line + s;
      SplitOneLine(s[1..], rest, line + [s[0]]);
    }
  }

  /** Joining lines and splitting them again gives them back: a quote's body is parsed as it was. */
  lemma {:induction false} SplitJoin(lines: seq<string>)
    requires lines != [] && forall s <- lines :: OneLine(s)
    ensures Split(Join(lines)) == lines
  {
    assert lines[0] in lines && "" + lines[0] == lines[0];
    if |lines| == 1 {
      assert lines[0] + "" == lines[0];
      SplitOneLine(lines[0], "", "");
    } else {
      var rest := "\n" + Join(lines[1..]);
      assert lines[0] + "\n" + Join(lines[1..]) == lines[0] + rest;
      assert rest[1..] == Join(lines[1..]);
      SplitOneLine(lines[0], rest, "");
      SplitJoin(lines[1..]);
    }
  }

  function JoinBy(lines: seq<string>, end: string): string
    requires lines != []
  {
    if |lines| == 1 then lines[0] else lines[0] + (end + JoinBy(lines[1..], end))
  }

  lemma {:induction false} SplitAtEnd(s: string, end: string, more: string, line: string)
    requires OneLine(s) && (end == "\n" || end == "\r\n" || (end == "\r" && !("\n" <= more)))
    ensures SplitFrom(s + (end + more), line) == [line + s] + SplitFrom(more, "")
  {
    var t := s + (end + more);
    if s == "" {
      assert t == end + more && line + s == line && t[|end|..] == more;
      if end == "\r" && more != "" { assert t[1] == more[0]; }
    } else {
      assert t[1..] == s[1..] + (end + more) && t[0] == s[0] && s[0] in s;
      assert line + [s[0]] + s[1..] == line + s;
      SplitAtEnd(s[1..], end, more, line + [s[0]]);
    }
  }

  lemma JoinStarts(lines: seq<string>, end: string)
    requires lines != [] && (forall s <- lines :: OneLine(s)) && end != ""
    ensures end[0] == '\r' ==> !("\n" <= JoinBy(lines, end))
  {
    assert lines[0] in lines;
    if |lines| > 1 {
      var rest := end + JoinBy(lines[1..], end);
      assert JoinBy(lines, end) == lines[0] + rest && rest[0] == end[0];
      if lines[0] == "" {
        assert "" + rest == rest;
      } else {
        assert (lines[0] + rest)[0] == lines[0][0] && lines[0][0] in lines[0];
      }
    } else {
      assert JoinBy(lines, end) == lines[0];
      if lines[0] != "" { assert lines[0][0] in lines[0]; }
    }
  }

  /** Lines end with a newline, a return, or both. */
  lemma {:induction false} SplitEnds(lines: seq<string>, end: string)
    requires lines != [] && (forall s <- lines :: OneLine(s)) && (end == "\n" || end == "\r\n" || end == "\r")
    ensures Split(JoinBy(lines, end)) == lines
  {
    assert lines[0] in lines && "" + lines[0] == lines[0];
    if |lines| == 1 {
      assert lines[0] + "" == lines[0];
      SplitOneLine(lines[0], "", "");
    } else {
      var more := JoinBy(lines[1..], end);
      JoinStarts(lines[1..], end);
      SplitAtEnd(lines[0], end, more, "");
      SplitEnds(lines[1..], end);
    }
  }

  lemma {:induction false} SplitOneLines(text: string, line: string)
    requires OneLine(line)
    ensures SplitFrom(text, line) != [] && forall s <- SplitFrom(text, line) :: OneLine(s)
    decreases |text|
  {
    if text != "" {
      if text[0] == '\n' || (text[0] == '\r' && !(|text| > 1 && text[1] == '\n')) {
        SplitOneLines(text[1..], "");
      } else if text[0] == '\r' {
        SplitOneLines(text[2..], "");
      } else {
        SplitOneLines(text[1..], line + [text[0]]);
      }
    }
  }

  // ---------------------------------------------------------------------- table rows

  /** A row without its white space and one optional pipe at each end. */
  function Bare(line: string): string {
    var t := Trim(line);
    var t := if "|" <= t then t[1..] else t;
    if t != "" && t[|t| - 1] == '|' then t[..|t| - 1] else t
  }

  /** The cells of the rest of a row; `cur` is the cell being read. `\|` is a literal pipe. */
  function CellsFrom(s: string, cur: string): seq<string> {
    if s == "" then [Trim(cur)]
    else if "\\|" <= s then CellsFrom(s[2..], cur + "|")
    else if s[0] == '|' then [Trim(cur)] + CellsFrom(s[1..], "")
    else CellsFrom(s[1..], cur + [s[0]])
  }

  function Cells(line: string): seq<string> {
    CellsFrom(Bare(line), "")
  }

  method ReadCells(line: string) returns (out: seq<string>)
    ensures out == Cells(line)
  {
    out := [];
    var cur := "";
    var s := Bare(line);
    var i := 0;
    while i < |s|
      invariant i <= |s| && out + CellsFrom(s[i..], cur) == Cells(line)
    {
      if s[i] == '\\' && i + 1 < |s| && s[i + 1] == '|' {
        assert s[i..][2..] == s[i + 2..];
        cur := cur + "|";
        i := i + 2;
      } else if s[i] == '|' {
        assert s[i..][1..] == s[i + 1..];
        out := out + [Trim(cur)];
        cur := "";
        i := i + 1;
      } else {
        assert s[i..][1..] == s[i + 1..];
        cur := cur + [s[i]];
        i := i + 1;
      }
    }
    out := out + [Trim(cur)];
  }

  datatype Align = Center | Right | Unset

  /** /^:?-+:?$/ */
  predicate IsSeparator(c: string) {
    var c := if ":" <= c then c[1..] else c;
    var c := if c != "" && c[|c| - 1] == ':' then c[..|c| - 1] else c;
    c != "" && AllDashes(c)
  }

  predicate AllDashes(s: string) {
    s == "" || (s[0] == '-' && AllDashes(s[1..]))
  }

  /** Only what a separator row may hold. */
  predicate AllRuling(s: string) {
    s == "" || ((IsSpace(s[0]) || s[0] == ':' || s[0] == '|' || s[0] == '-') && AllRuling(s[1..]))
  }

  predicate AllSeparators(seps: seq<string>) {
    seps == [] || (IsSeparator(seps[0]) && AllSeparators(seps[1..]))
  }

  predicate Has(s: string, c: char) {
    s != "" && (s[0] == c || Has(s[1..], c))
  }

  function AlignOf(c: string): Align {
    if c == "" || c[|c| - 1] != ':' then Unset else if c[0] == ':' then Center else Right
  }

  /** The alignments a separator row gives a header of `count` cells; None when it is not one. */
  function Alignments(line: string, count: nat): Option<seq<Align>> {
    if !Has(line, '-') || !AllRuling(line) then None
    else
      var seps := Cells(line);
      if |seps| != count || !AllSeparators(seps) then None
      else Some(seq(|seps|, i requires 0 <= i < |seps| => AlignOf(seps[i])))
  }

  /** A body row padded or cut to the header's width. */
  function Fit(row: seq<string>, width: nat): (r: seq<string>)
    ensures |r| == width && forall k :: 0 <= k < width ==> r[k] == if k < |row| then row[k] else ""
    decreases width - Min(|row|, width)
  {
    if |row| >= width then row[..width] else Fit(row + [""], width)
  }

  // ---------------------------------------------------------------------- what a line is

  datatype Kind =
    | FenceMark
    | Blank
    | Heading(level: nat, text: string)
    | QuoteLine
    | TableHead(aligns: seq<Align>)
    | Bullet(text: string)
    | Ordered(num: nat, text: string)
    | Plain

  predicate Broken(s: string) {
    s != "" && (IsTerminator(s[0]) || Broken(s[1..]))
  }

  /** /\s+(.*)$/ on what follows a marker. */
  function Body(s: string): Option<string> {
    if s == "" || !IsSpace(s[0]) then None
    else
      var text := TrimStart(s);
      if Broken(text) then None else Some(text)
  }

  function Hashes(t: string): (n: nat)
    ensures n <= |t|
  {
    if "#" <= t then 1 + Hashes(t[1..]) else 0
  }

  function DigitRun(t: string): (n: nat)
    ensures n <= |t| && forall k :: 0 <= k < n ==> '0' <= t[k] <= '9'
  {
    if t != "" && '0' <= t[0] <= '9' then 1 + DigitRun(t[1..]) else 0
  }

  function Number(digits: string): nat
    requires forall k :: 0 <= k < |digits| ==> '0' <= digits[k] <= '9'
  {
    if digits == "" then 0
    else 10 * Number(digits[..|digits| - 1]) + (digits[|digits| - 1] as int - '0' as int)
  }

  function Classify(raw: string, next: string, depth: nat): Kind {
    var t := Trim(raw);
    if "```" <= t then FenceMark
    else if t == "" then Blank
    else if 1 <= Hashes(t) <= 3 && Body(t[Hashes(t)..]).Some?
    then Heading(Hashes(t), Body(t[Hashes(t)..]).value)
    else if t[0] == '>' && depth < MAX_DEPTH then QuoteLine
    else if Has(t, '|') && Alignments(next, |Cells(raw)|).Some?
    then TableHead(Alignments(next, |Cells(raw)|).value)
    else if (t[0] == '-' || t[0] == '*') && Body(t[1..]).Some? then Bullet(Body(t[1..]).value)
    else
      var n := DigitRun(t);
      if n > 0 && n < |t| && (t[n] == '.' || t[n] == ')') && Body(t[n + 1..]).Some?
      then Ordered(Number(t[..n]), Body(t[n + 1..]).value)
      else Plain
  }

  // what those kinds are, spelt out

  predicate AllSpace(s: string) {
    forall c <- s :: IsSpace(c)
  }

  /** The mark, white space, and a text on one line that begins with something else. */
  ghost predicate Marked(t: string, mark: string, text: string) {
    exists gap :: t == mark + (gap + text) && gap != "" && AllSpace(gap) && Starts(text)
  }

  predicate Starts(text: string) {
    (text == "" || !IsSpace(text[0])) && forall c <- text :: !IsTerminator(c)
  }

  lemma {:induction false} BrokenIff(s: string)
    ensures Broken(s) <==> exists c <- s :: IsTerminator(c)
  {
    if s != "" {
      BrokenIff(s[1..]);
      assert s == [s[0]] + s[1..];
    }
  }

  lemma {:induction false} HasIff(s: string, c: char)
    ensures Has(s, c) <==> c in s
  {
    if s != "" {
      HasIff(s[1..], c);
      assert s == [s[0]] + s[1..];
    }
  }

  lemma {:induction false} TrimStartCut(s: string) returns (gap: string)
    ensures s == gap + TrimStart(s) && AllSpace(gap)
    ensures (TrimStart(s) == "" || !IsSpace(TrimStart(s)[0])) && (s != "" && IsSpace(s[0]) ==> gap != "")
  {
    if s == "" || !IsSpace(s[0]) {
      gap := "";
    } else {
      var rest := TrimStartCut(s[1..]);
      gap := [s[0]] + rest;
    }
  }

  lemma {:induction false} TrimStartOf(gap: string, text: string)
    requires AllSpace(gap) && (text == "" || !IsSpace(text[0]))
    ensures TrimStart(gap + text) == text
  {
    if gap == "" {
      assert gap + text == text;
    } else {
      assert (gap + text)[1..] == gap[1..] + text && gap[0] in gap;
      TrimStartOf(gap[1..], text);
    }
  }

  lemma {:induction false} TrimEndCut(s: string) returns (gap: string)
    ensures s == TrimEnd(s) + gap && AllSpace(gap)
    ensures TrimEnd(s) == "" || !IsSpace(TrimEnd(s)[|TrimEnd(s)| - 1])
    ensures TrimEnd(s) != "" ==> TrimEnd(s)[0] == s[0]
  {
    if s == "" || !IsSpace(s[|s| - 1]) {
      gap := "";
    } else {
      var most := TrimEndCut(s[..|s| - 1]);
      gap := most + [s[|s| - 1]];
    }
  }

  /** A trimmed text is what is left between white space. */
  lemma TrimIs(s: string)
    ensures exists a, b :: s == a + (Trim(s) + b) && AllSpace(a) && AllSpace(b)
    ensures Trim(s) != "" ==> !IsSpace(Trim(s)[0]) && !IsSpace(Trim(s)[|Trim(s)| - 1])
  {
    var a := TrimStartCut(s);
    var b := TrimEndCut(TrimStart(s));
    assert s == a + (Trim(s) + b);
  }

  lemma BodyIff(rest: string, text: string)
    ensures Body(rest) == Some(text) <==> Marked(rest, "", text)
  {
    BrokenIff(TrimStart(rest));
    if Body(rest) == Some(text) {
      var gap := TrimStartCut(rest);
      assert rest == "" + (gap + text);
    }
    if Marked(rest, "", text) {
      var gap :| rest == "" + (gap + text) && gap != "" && AllSpace(gap) && Starts(text);
      assert rest == gap + text && gap[0] in gap && rest[0] == gap[0];
      TrimStartOf(gap, text);
    }
  }

  lemma MarkedOf(mark: string, rest: string, text: string)
    requires Marked(rest, "", text)
    ensures Marked(mark + rest, mark, text)
  {
    var gap :| rest == "" + (gap + text) && gap != "" && AllSpace(gap) && Starts(text);
    assert mark + rest == mark + (gap + text);
  }

  lemma MarkedRest(mark: string, rest: string, text: string)
    requires Marked(mark + rest, mark, text)
    ensures Marked(rest, "", text)
  {
    var gap :| mark + rest == mark + (gap + text) && gap != "" && AllSpace(gap) && Starts(text);
    assert rest == (mark + rest)[|mark|..] == gap + text;
    assert rest == "" + (gap + text);
  }

  lemma MarkedAfter(t: string, mark: string, text: string)
    requires mark <= t
    ensures Marked(t, mark, text) <==> Body(t[|mark|..]) == Some(text)
  {
    var rest := t[|mark|..];
    assert t == mark + rest;
    BodyIff(rest, text);
    if Marked(t, mark, text) { MarkedRest(mark, rest, text); }
    if Marked(rest, "", text) { MarkedOf(mark, rest, text); }
  }

  function Marks(n: nat): string {
    if n == 0 then "" else "#" + Marks(n - 1)
  }

  lemma {:induction false} HashesMarked(t: string)
    ensures |Marks(Hashes(t))| == Hashes(t) && Marks(Hashes(t)) <= t
    ensures Hashes(t) < |t| ==> t[Hashes(t)] != '#'
  {
    if "#" <= t { HashesMarked(t[1..]); }
  }

  lemma {:induction false} MarksHashed(n: nat, rest: string)
    requires rest == "" || rest[0] != '#'
    ensures Hashes(Marks(n) + rest) == n == |Marks(n)|
  {
    if n == 0 {
      assert "" + rest == rest;
    } else {
      assert (Marks(n) + rest)[1..] == Marks(n - 1) + rest;
      MarksHashed(n - 1, rest);
    }
  }

  lemma MarkedGap(t: string, mark: string, text: string) returns (rest: string)
    requires Marked(t, mark, text)
    ensures t == mark + rest && rest != "" && IsSpace(rest[0]) && mark <= t && t[|mark|..] == rest
  {
    var gap :| t == mark + (gap + text) && gap != "" && AllSpace(gap) && Starts(text);
    assert gap[0] in gap;
    rest := gap + text;
  }

  lemma HashedBody(t: string, level: nat, text: string)
    requires level > 0 && Marked(t, Marks(level), text)
    ensures t != "" && t[0] == '#' && Hashes(t) == level && Body(t[level..]) == Some(text)
  {
    var rest := MarkedGap(t, Marks(level), text);
    MarksHashed(level, rest);
    MarkedAfter(t, Marks(level), text);
  }

  lemma HeadingWhen(raw: string, next: string, depth: nat, level: nat, text: string)
    requires 1 <= level <= 3 && Marked(Trim(raw), Marks(level), text)
    ensures Classify(raw, next, depth) == Heading(level, text)
  {
    HashedBody(Trim(raw), level, text);
  }

  lemma HeadingThen(raw: string, next: string, depth: nat, level: nat, text: string)
    requires Classify(raw, next, depth) == Heading(level, text)
    ensures 1 <= level <= 3 && Marked(Trim(raw), Marks(level), text)
  {
    HashesMarked(Trim(raw));
    MarkedAfter(Trim(raw), Marks(level), text);
  }

  /** One to three marks make a heading of that level. */
  lemma HeadingIff(raw: string, next: string, depth: nat, level: nat, text: string)
    ensures Classify(raw, next, depth) == Heading(level, text) <==>
            1 <= level <= 3 && Marked(Trim(raw), Marks(level), text)
  {
    if Classify(raw, next, depth) == Heading(level, text) {
      HeadingThen(raw, next, depth, level, text);
    } else if 1 <= level <= 3 && Marked(Trim(raw), Marks(level), text) {
      HeadingWhen(raw, next, depth, level, text);
      assert false;
    }
  }

  /** A quote goes down to the fourth level and no further. */
  lemma QuoteIff(raw: string, next: string, depth: nat)
    ensures Classify(raw, next, depth).QuoteLine? <==> depth < 4 && ">" <= Trim(raw)
  {
    ClassifyQuote(raw, next, depth);
  }

  /** A line that is no table head is an item when it begins with a dash or a star. */
  lemma BulletIff(raw: string, next: string, depth: nat, text: string)
    ensures Classify(raw, next, depth) == Bullet(text) <==>
            && !Classify(raw, next, depth).TableHead?
            && (Marked(Trim(raw), "-", text) || Marked(Trim(raw), "*", text))
  {
    var t := Trim(raw);
    if Marked(t, "-", text) { var rest := MarkedGap(t, "-", text); }
    if Marked(t, "*", text) { var rest := MarkedGap(t, "*", text); }
    if t != "" && (t[0] == '-' || t[0] == '*') {
      assert [t[0]] <= t;
      MarkedAfter(t, [t[0]], text);
      assert Hashes(t) == 0;
    }
  }

  predicate AllDigits(s: string) {
    forall k :: 0 <= k < |s| ==> '0' <= s[k] <= '9'
  }

  lemma {:induction false} DigitsRun(digits: string, rest: string)
    requires AllDigits(digits) && rest != "" && !('0' <= rest[0] <= '9')
    ensures DigitRun(digits + rest) == |digits|
  {
    if digits == "" {
      assert "" + rest == rest;
    } else {
      assert (digits + rest)[1..] == digits[1..] + rest;
      DigitsRun(digits[1..], rest);
    }
  }

  /** The digits, the stop and the text of a numbered item. */
  ghost predicate Numbered(t: string, digits: string, stop: string, text: string) {
    && digits != "" && AllDigits(digits) && (stop == "." || stop == ")") && Marked(t, digits + stop, text)
  }

  lemma NumberedReads(t: string, digits: string, stop: string, text: string)
    requires Numbered(t, digits, stop, text)
    ensures DigitRun(t) == |digits| < |t| && t[..|digits|] == digits && [t[|digits|]] == stop
    ensures '0' <= t[0] <= '9' && Body(t[|digits| + 1..]) == Some(text)
  {
    var rest := MarkedGap(t, digits + stop, text);
    MarkedAfter(t, digits + stop, text);
    DigitsLead(digits, stop, rest);
    assert digits + stop + rest == digits + (stop + rest);
  }

  lemma DigitsLead(digits: string, stop: string, rest: string)
    requires digits != "" && AllDigits(digits) && (stop == "." || stop == ")")
    ensures
      var t := digits + (stop + rest);
      && DigitRun(t) == |digits| < |t| && t[..|digits|] == digits && [t[|digits|]] == stop
      && t[0] == digits[0] && t[|digits| + 1..] == rest
  {
    DigitsRun(digits, stop + rest);
    assert (digits + (stop + rest))[|digits| + 1..] == rest;
  }

  lemma {:induction false} OrderedWhen(raw: string, next: string, depth: nat, digits: string, stop: string,
                                       text: string)
    requires !Classify(raw, next, depth).TableHead? && Numbered(Trim(raw), digits, stop, text)
    ensures Classify(raw, next, depth) == Ordered(ValueOf(digits), text)
  {
    NumberedReads(Trim(raw), digits, stop, text);
    ValueIsNumber(digits);
  }

  lemma {:induction false} OrderedThen(raw: string, next: string, depth: nat)
    returns (digits: string, stop: string)
    requires Classify(raw, next, depth).Ordered?
    ensures
      var kind := Classify(raw, next, depth);
      Numbered(Trim(raw), digits, stop, kind.text) && kind.num == ValueOf(digits)
  {
    var t := Trim(raw);
    var n := DigitRun(t);
    OrderedParts(raw, next, depth);
    digits, stop := t[..n], [t[n]];
    assert digits + stop == t[..n + 1];
    MarkedAfter(t, digits + stop, Classify(raw, next, depth).text);
    ValueIsNumber(digits);
  }

  lemma OrderedParts(raw: string, next: string, depth: nat)
    requires Classify(raw, next, depth).Ordered?
    ensures
      var (t, kind) := (Trim(raw), Classify(raw, next, depth));
      var n := DigitRun(t);
      && 0 < n < |t| && (t[n] == '.' || t[n] == ')') && Body(t[n + 1..]) == Some(kind.text)
      && kind.num == Number(t[..n])
  {
  }

  /** And a numbered one when it begins with digits and a stop, which give its number. */
  lemma OrderedIff(raw: string, next: string, depth: nat, num: nat, text: string)
    ensures Classify(raw, next, depth) == Ordered(num, text) <==>
            && !Classify(raw, next, depth).TableHead?
            && exists digits, stop :: Numbered(Trim(raw), digits, stop, text) && num == ValueOf(digits)
  {
    if Classify(raw, next, depth) == Ordered(num, text) {
      var digits, stop := OrderedThen(raw, next, depth);
    } else if !Classify(raw, next, depth).TableHead? {
      forall digits, stop | Numbered(Trim(raw), digits, stop, text) ensures num != ValueOf(digits) {
        OrderedWhen(raw, next, depth, digits, stop, text);
      }
    }
  }

  /** The value of decimal digits, from the first on. */
  function ValueFrom(digits: string, high: nat): nat {
    if digits == "" then high
    else ValueFrom(digits[1..], 10 * high + if '0' <= digits[0] <= '9' then digits[0] as int - '0' as int else 0)
  }

  function ValueOf(digits: string): nat {
    ValueFrom(digits, 0)
  }

  lemma {:induction false} ValueNext(digits: string, d: char, high: nat)
    requires '0' <= d <= '9'
    ensures ValueFrom(digits + [d], high) == 10 * ValueFrom(digits, high) + (d as int - '0' as int)
  {
    if digits == "" {
      assert digits + [d] == [d] && [d][1..] == "";
    } else {
      assert (digits + [d])[1..] == digits[1..] + [d];
      ValueNext(digits[1..], d, 10 * high + if '0' <= digits[0] <= '9' then digits[0] as int - '0' as int else 0);
    }
  }

  lemma {:induction false} ValueIsNumber(digits: string)
    requires AllDigits(digits)
    ensures Number(digits) == ValueOf(digits)
  {
    if digits != "" {
      var n := |digits| - 1;
      ValueIsNumber(digits[..n]);
      ValueNext(digits[..n], digits[n], 0);
      assert digits == digits[..n] + [digits[n]];
    }
  }

  /** What a number is written as is what is read. */
  lemma {:induction false} DecimalValue(n: nat)
    ensures AllDigits(Decimal(n)) && Decimal(n) != "" && ValueOf(Decimal(n)) == n
  {
    if n >= 10 {
      DecimalValue(n / 10);
      ValueNext(Decimal(n / 10), "0123456789"[n % 10], 0);
    } else {
      ValueNext("", "0123456789"[n], 0);
      assert "" + ["0123456789"[n]] == Decimal(n);
    }
  }

  // table heads

  /** Dashes, with a colon at either end or none. */
  ghost predicate Ruled(c: string, left: bool, right: bool) {
    exists n: nat :: n > 0 && c == (if left then ":" else "") + (Dashes(n) + if right then ":" else "")
  }

  function Dashes(n: nat): string {
    if n == 0 then "" else "-" + Dashes(n - 1)
  }

  lemma {:induction false} DashesAre(s: string)
    ensures AllDashes(s) ==> s == Dashes(|s|)
  {
    if AllDashes(s) && s != "" {
      DashesAre(s[1..]);
      assert s == "-" + s[1..];
    }
  }

  lemma {:induction false} DashesAll(n: nat)
    ensures AllDashes(Dashes(n)) && |Dashes(n)| == n && (n > 0 ==> Dashes(n)[0] == '-' == Dashes(n)[n - 1])
  {
    if n > 0 { DashesAll(n - 1); }
  }

  lemma {:induction false} RuledSeparates(c: string, left: bool, right: bool)
    requires Ruled(c, left, right)
    ensures IsSeparator(c) && AlignOf(c) == if !right then Unset else if left then Center else Right
  {
    var n: nat :| n > 0 && c == (if left then ":" else "") + (Dashes(n) + if right then ":" else "");
    DashesAll(n);
    var body := Dashes(n) + if right then ":" else "";
    assert c == if left then ":" + body else body;
    if right { assert body[..n] == Dashes(n); } else { assert body == Dashes(n); }
    EndsWith(c, left, body);
  }

  lemma EndsWith(c: string, left: bool, body: string)
    requires body != "" && body[0] != ':' && c == if left then ":" + body else body
    ensures c[|c| - 1] == body[|body| - 1] && (c[0] == ':' <==> left) && (left ==> c[1..] == body)
  {
  }

  /** A separator is dashes; a colon at its right end aligns the column there, one at both in the middle. */
  lemma SeparatorIff(c: string)
    ensures IsSeparator(c) <==> exists left, right :: Ruled(c, left, right)
    ensures Ruled(c, false, false) || Ruled(c, true, false) ==> AlignOf(c) == Unset
    ensures Ruled(c, false, true) ==> AlignOf(c) == Right
    ensures Ruled(c, true, true) ==> AlignOf(c) == Center
  {
    forall left, right | Ruled(c, left, right)
      ensures IsSeparator(c) && AlignOf(c) == if !right then Unset else if left then Center else Right
    {
      RuledSeparates(c, left, right);
    }
    if IsSeparator(c) { var left, right := SeparatorRuled(c); }
  }

  lemma SeparatorRuled(c: string) returns (left: bool, right: bool)
    requires IsSeparator(c)
    ensures Ruled(c, left, right)
  {
    left := ":" <= c;
    var body := if left then c[1..] else c;
    right := body[|body| - 1] == ':';
    var dashes := if right then body[..|body| - 1] else body;
    DashesAre(dashes);
    assert body == dashes + if right then ":" else "";
    assert c == (if left then ":" else "") + body;
  }

  lemma {:induction false} AllSeparatorsIff(seps: seq<string>)
    ensures AllSeparators(seps) <==> forall c <- seps :: IsSeparator(c)
  {
    if seps != [] {
      AllSeparatorsIff(seps[1..]);
      assert seps == [seps[0]] + seps[1..];
    }
  }

  lemma {:induction false} AllRulingIff(s: string)
    ensures AllRuling(s) <==> forall c <- s :: IsSpace(c) || c == ':' || c == '|' || c == '-'
  {
    if s != "" {
      AllRulingIff(s[1..]);
      assert s == [s[0]] + s[1..];
    }
  }

  /** A line with a pipe that is nothing above heads a table exactly when the next line rules it: separators,
      one for each of its cells; and each one says how its column is aligned. */
  lemma {:induction false} TableHeadIff(raw: string, next: string, depth: nat)
    ensures
      var kind := Classify(raw, next, depth);
      kind.TableHead? <==>
        && !kind.FenceMark? && !kind.Blank? && !kind.Heading? && !kind.QuoteLine?
        && '|' in Trim(raw) && '-' in next
        && (forall c <- next :: IsSpace(c) || c == ':' || c == '|' || c == '-')
        && |Cells(next)| == |Cells(raw)| && forall c <- Cells(next) :: exists left, right :: Ruled(c, left, right)
    ensures
      var kind := Classify(raw, next, depth);
      kind.TableHead? ==>
        && |kind.aligns| == |Cells(next)|
        && forall k, left, right :: 0 <= k < |kind.aligns| && Ruled(Cells(next)[k], left, right) ==>
             kind.aligns[k] == if !right then Unset else if left then Center else Right
  {
    HasIff(Trim(raw), '|');
    HasIff(next, '-');
    AllRulingIff(next);
    AllSeparatorsIff(Cells(next));
    forall c: string ensures IsSeparator(c) <==> exists left, right :: Ruled(c, left, right) { SeparatorIff(c); }
    forall c: string, left, right | Ruled(c, left, right)
      ensures AlignOf(c) == if !right then Unset else if left then Center else Right
    {
      RuledSeparates(c, left, right);
    }
  }

  // rows read back

  /** A cell as it is written in a row: its pipes behind a backslash. */
  function Written(c: string): string {
    if c == "" then "" else (if c[0] == '|' then "\\|" else [c[0]]) + Written(c[1..])
  }

  /** The inside of a row, between its outer pipes. */
  function Inside(cells: seq<string>): string
    requires cells != []
  {
    " " + (Written(cells[0]) + (" " + if |cells| == 1 then "" else "|" + Inside(cells[1..])))
  }

  lemma {:induction false} WrittenReads(c: string, rest: string, cur: string)
    requires rest != "" && rest[0] == ' '
    ensures CellsFrom(Written(c) + rest, cur) == CellsFrom(rest, cur + c)
  {
    if c == "" {
      assert Written(c) + rest == rest && cur + c == cur;
    } else {
      var tail := Written(c[1..]) + rest;
      var s := Written(c) + rest;
      assert cur + [c[0]] + c[1..] == cur + c;
      if c[0] == '|' {
        assert s == "\\|" + tail && s[2..] == tail;
      } else {
        assert s == [c[0]] + tail && s[1..] == tail;
        assert tail[0] != '|';
      }
      WrittenReads(c[1..], rest, cur + [c[0]]);
    }
  }

  lemma TrimPadded(c: string)
    requires Trim(c) == c
    ensures Trim(" " + c + " ") == c
  {
    var gap := TrimStartCut(c);
    var back := TrimEndCut(TrimStart(c));
    assert |gap| == 0 && TrimStart(c) == c;
    if c == "" {
      TrimStartOf("  ", "");
      assert " " + c + " " == "  " + "";
    } else {
      assert " " + c + " " == " " + (c + " ");
      TrimStartOf(" ", c + " ");
      assert (c + " ")[..|c|] == c;
    }
  }

  lemma {:induction false} InsideReads(cells: seq<string>)
    requires cells != [] && forall c <- cells :: Trim(c) == c
    ensures CellsFrom(Inside(cells), "") == cells
  {
    var c := cells[0];
    assert c in cells;
    if |cells| == 1 {
      PaddedReads(c, "");
      assert cells == [c];
    } else {
      var more := Inside(cells[1..]);
      PaddedReads(c, "|" + more);
      assert ("|" + more)[1..] == more;
      forall x | x in cells[1..] ensures Trim(x) == x { assert x in cells; }
      InsideReads(cells[1..]);
      assert cells == [c] + cells[1..];
    }
  }

  lemma PaddedReads(c: string, rest: string)
    requires Trim(c) == c && (rest == "" || rest[0] == '|')
    ensures CellsFrom(" " + (Written(c) + (" " + rest)), "")
         == [c] + if rest == "" then [] else CellsFrom(rest[1..], "")
  {
    SpaceReads(Written(c) + (" " + rest), "");
    assert "" + " " == " ";
    WrittenReads(c, " " + rest, " ");
    SpaceReads(rest, " " + c);
    TrimPadded(c);
  }

  lemma SpaceReads(s: string, cur: string)
    ensures CellsFrom(" " + s, cur) == CellsFrom(s, cur + " ")
  {
    assert (" " + s)[1..] == s && [(" " + s)[0]] == " ";
  }

  /** A row written cell by cell reads back, whatever pipes and backslashes its cells hold. */
  lemma {:induction false} CellsRead(cells: seq<string>)
    requires cells != [] && forall c <- cells :: Trim(c) == c
    ensures Cells("|" + Inside(cells) + "|") == cells
  {
    var line := "|" + Inside(cells) + "|";
    TrimWhole(line);
    assert line[1..][..|line| - 2] == Inside(cells);
    InsideReads(cells);
  }

  lemma TrimWhole(s: string)
    requires s != "" && !IsSpace(s[0]) && !IsSpace(s[|s| - 1])
    ensures Trim(s) == s
  {
  }

  /** One mark and at most one white space are taken off a quoted line. */
  lemma UnquotedIs(line: string, rest: string)
    requires Trim(line) == ">" + rest
    ensures Unquoted(line) == if rest != "" && IsSpace(rest[0]) then rest[1..] else rest
  {
    assert (">" + rest)[1..] == rest && (rest != "" ==> (">" + rest)[2..] == rest[1..]);
  }

  /** A line as it was written and what the block parser takes it for. */
  datatype Line = Line(raw: string, kind: Kind)

  /** What the parser needs of a classification. */
  predicate Fits(lines: seq<Line>, i: nat, depth: nat)
    requires i < |lines|
  {
    var line := lines[i];
    && (line.kind.FenceMark? <==> IsFence(line.raw))
    && (line.kind.Blank? <==> Trim(line.raw) == "")
    && (line.kind.QuoteLine? <==> depth < MAX_DEPTH && IsQuoted(line.raw))
    && (line.kind.TableHead? ==> i + 2 <= |lines| && |line.kind.aligns| == |Cells(line.raw)|)
  }

  predicate Sound(lines: seq<Line>, depth: nat) {
    forall i :: 0 <= i < |lines| ==> Fits(lines, i, depth)
  }

  lemma ClassifyMark(raw: string, next: string, depth: nat)
    ensures Classify(raw, next, depth).FenceMark? <==> IsFence(raw)
    ensures Classify(raw, next, depth).Blank? <==> Trim(raw) == ""
  {
  }

  lemma ClassifyQuote(raw: string, next: string, depth: nat)
    ensures Classify(raw, next, depth).QuoteLine? <==> depth < MAX_DEPTH && IsQuoted(raw)
  {
    var t := Trim(raw);
    if ">" <= t {
      assert t[0] == '>' && Hashes(t) == 0 && !("```" <= t);
    }
  }

  lemma ClassifyTable(raw: string, next: string, depth: nat)
    requires Classify(raw, next, depth).TableHead?
    ensures next != "" && |Classify(raw, next, depth).aligns| == |Cells(raw)|
  {
  }

  lemma ClassifyFits(lines: seq<Line>, i: nat, next: string, depth: nat)
    requires i < |lines| && (i + 1 == |lines| ==> next == "")
    requires lines[i].kind == Classify(lines[i].raw, next, depth)
    ensures Fits(lines, i, depth)
  {
    ClassifyMark(lines[i].raw, next, depth);
    ClassifyQuote(lines[i].raw, next, depth);
    if lines[i].kind.TableHead? { ClassifyTable(lines[i].raw, next, depth); }
  }

  /** Each line, classified with the one after it. */
  function Read(lines: seq<string>, depth: nat): (read: seq<Line>)
    ensures |read| == |lines|
  {
    if lines == [] then []
    else [Line(lines[0], Classify(lines[0], if |lines| > 1 then lines[1] else "", depth))]
         + Read(lines[1..], depth)
  }

  lemma {:induction false} ReadSound(lines: seq<string>, depth: nat)
    ensures Sound(Read(lines, depth), depth)
    ensures forall i :: 0 <= i < |lines| ==> Read(lines, depth)[i].raw == lines[i]
  {
    if lines != [] {
      var rest, all := Read(lines[1..], depth), Read(lines, depth);
      ReadSound(lines[1..], depth);
      ClassifyFits(all, 0, if |lines| > 1 then lines[1] else "", depth);
      forall i | 0 < i < |all| ensures Fits(all, i, depth) {
        assert Fits(rest, i - 1, depth) && rest[i - 1] == all[i];
      }
    }
  }

  predicate OneLines(lines: seq<Line>) {
    forall i :: 0 <= i < |lines| ==> OneLine(lines[i].raw)
  }

  predicate IsFence(line: string) {
    "```" <= Trim(line)
  }

  function Raws(lines: seq<Line>, i: nat, j: nat): seq<string>
    requires i <= j <= |lines|
  {
    seq(j - i, k requires 0 <= k < j - i => lines[i + k].raw)
  }

  // ---------------------------------------------------------------------- blocks

  datatype Item = Item(num: Option<nat>, text: string)

  /** Each block was made from lines [start, end). */
  datatype Block =
    | Paragraph(start: nat, end: nat, texts: seq<string>)
    | List(start: nat, end: nat, numbered: bool, items: seq<Item>)
    | Fence(start: nat, end: nat, texts: seq<string>)
    | Head(start: nat, end: nat, level: nat, text: string)
    | Quote(start: nat, end: nat, inner: seq<Block>)
    | Table(start: nat, end: nat, head: seq<string>, aligns: seq<Align>, rows: seq<seq<string>>)

  predicate IsItem(k: Kind, numbered: bool) {
    if numbered then k.Ordered? else k.Bullet?
  }

  function ItemOf(k: Kind): Item {
    match k
    case Bullet(text) => Item(None, text)
    case Ordered(num, text) => Item(Some(num), text)
    case _ => Item(None, "")
  }

  predicate IsQuoted(line: string) {
    ">" <= Trim(line)
  }

  /** `line.trim().replace(/^>\s?/, "")` */
  function Unquoted(line: string): string {
    var t := Trim(line);
    if !(">" <= t) then t else if |t| > 1 && IsSpace(t[1]) then t[2..] else t[1..]
  }

  predicate IsRow(line: string) {
    Trim(line) != "" && Has(line, '|')
  }

  // how far a construct that began reaches, from line i on

  function TextEnd(lines: seq<Line>, i: nat): (j: nat)
    requires i <= |lines|
    ensures i <= j <= |lines|
    decreases |lines| - i
  {
    if i < |lines| && lines[i].kind.Plain? then TextEnd(lines, i + 1) else i
  }

  function ListEnd(lines: seq<Line>, i: nat, numbered: bool): (j: nat)
    requires i <= |lines|
    ensures i <= j <= |lines|
    decreases |lines| - i
  {
    if i < |lines| && IsItem(lines[i].kind, numbered)
    then ListEnd(lines, i + 1, numbered) else i
  }

  /** The closing mark's line, or the end of the text. */
  function FenceEnd(lines: seq<Line>, i: nat): (j: nat)
    requires i <= |lines|
    ensures i <= j <= |lines|
    decreases |lines| - i
  {
    if i < |lines| && !lines[i].kind.FenceMark? then FenceEnd(lines, i + 1) else i
  }

  function QuoteEnd(lines: seq<Line>, i: nat): (j: nat)
    requires i <= |lines|
    ensures i <= j <= |lines|
    decreases |lines| - i
  {
    if i < |lines| && lines[i].kind.QuoteLine? then QuoteEnd(lines, i + 1) else i
  }

  function TableEnd(lines: seq<Line>, i: nat): (j: nat)
    requires i <= |lines|
    ensures i <= j <= |lines|
    decreases |lines| - i
  {
    if i < |lines| && IsRow(lines[i].raw) then TableEnd(lines, i + 1) else i
  }

  function Texts(lines: seq<Line>, i: nat, j: nat): seq<string>
    requires i <= j <= |lines|
  {
    seq(j - i, k requires 0 <= k < j - i => Trim(lines[i + k].raw))
  }

  function Kinds(lines: seq<Line>, i: nat, j: nat): (kinds: seq<Kind>)
    requires i <= j <= |lines|
    ensures |kinds| == j - i
    decreases j - i
  {
    if i == j then [] else [lines[i].kind] + Kinds(lines, i + 1, j)
  }

  function ItemsOf(kinds: seq<Kind>): seq<Item> {
    seq(|kinds|, k requires 0 <= k < |kinds| => ItemOf(kinds[k]))
  }

  function Items(lines: seq<Line>, i: nat, j: nat): seq<Item>
    requires i <= j <= |lines|
  {
    ItemsOf(Kinds(lines, i, j))
  }

  function QuoteBody(lines: seq<Line>, i: nat, j: nat): seq<string>
    requires i <= j <= |lines|
  {
    seq(j - i, k requires 0 <= k < j - i => Unquoted(lines[i + k].raw))
  }

  function Rows(lines: seq<Line>, i: nat, j: nat, width: nat): seq<seq<string>>
    requires i <= j <= |lines|
  {
    seq(j - i, k requires 0 <= k < j - i => Fit(Cells(lines[i + k].raw), width))
  }

  /** The grammar: at each line, the construct that begins there runs as far as it goes. */
  function Blocks(lines: seq<Line>, i: nat, depth: nat): seq<Block>
    requires i <= |lines| && Sound(lines, depth) && depth <= MAX_DEPTH
    decreases MAX_DEPTH - depth, |lines| - i, 0
  {
    if i == |lines| then []
    else
      assert Fits(lines, i, depth);
      match lines[i].kind
      case Blank => Blocks(lines, i + 1, depth)
      case FenceMark => FenceThen(lines, i, i + 1, [], depth)
      case Heading(level, text) => [Head(i, i + 1, level, text)] + Blocks(lines, i + 1, depth)
      case QuoteLine => QuoteThen(lines, i, depth)
      case TableHead(aligns) =>
        var j := TableEnd(lines, i + 2);
        [Table(i, j, Cells(lines[i].raw), aligns, Rows(lines, i + 2, j, |Cells(lines[i].raw)|))]
        + Blocks(lines, j, depth)
      case Bullet(text) => ListThen(lines, i, i + 1, false, [Item(None, text)], depth)
      case Ordered(num, text) => ListThen(lines, i, i + 1, true, [Item(Some(num), text)], depth)
      case Plain => ParagraphThen(lines, i, i + 1, [Trim(lines[i].raw)], depth)
  }

  // a construct open since line `start`, with what it holds so far, and everything after it

  function ParagraphThen(lines: seq<Line>, start: nat, i: nat, texts: seq<string>, depth: nat): seq<Block>
    requires start < i <= |lines| && Sound(lines, depth) && depth <= MAX_DEPTH
    decreases MAX_DEPTH - depth, |lines| - i, 1
  {
    var j := TextEnd(lines, i);
    [Paragraph(start, j, texts + Texts(lines, i, j))] + Blocks(lines, j, depth)
  }

  /** What a quote starting at line `i` says, taken as a text of its own. */
  function QuoteLines(lines: seq<Line>, i: nat, depth: nat): seq<Line>
    requires i < |lines|
  {
    Read(QuoteBody(lines, i, QuoteEnd(lines, i + 1)), depth + 1)
  }

  function QuoteThen(lines: seq<Line>, i: nat, depth: nat): seq<Block>
    requires i < |lines| && Sound(lines, depth) && depth < MAX_DEPTH
    decreases MAX_DEPTH - depth, |lines| - (i + 1), 1
  {
    ReadSound(QuoteBody(lines, i, QuoteEnd(lines, i + 1)), depth + 1);
    [Quote(i, QuoteEnd(lines, i + 1), Blocks(QuoteLines(lines, i, depth), 0, depth + 1))]
    + Blocks(lines, QuoteEnd(lines, i + 1), depth)
  }

  function ListThen(lines: seq<Line>, start: nat, i: nat, numbered: bool, items: seq<Item>, depth: nat): seq<Block>
    requires start < i <= |lines| && Sound(lines, depth) && depth <= MAX_DEPTH
    decreases MAX_DEPTH - depth, |lines| - i, 1
  {
    var j := ListEnd(lines, i, numbered);
    [List(start, j, numbered, items + Items(lines, i, j))] + Blocks(lines, j, depth)
  }

  function FenceThen(lines: seq<Line>, start: nat, i: nat, texts: seq<string>, depth: nat): seq<Block>
    requires start < i <= |lines| && Sound(lines, depth) && depth <= MAX_DEPTH
    decreases MAX_DEPTH - depth, |lines| - i, 1
  {
    var j := FenceEnd(lines, i);
    var end := Min(j + 1, |lines|);
    [Fence(start, end, texts + Raws(lines, i, j))] + Blocks(lines, end, depth)
  }

  // ---------------------------------------------------------------------- the loop

  lemma ParagraphGrows(lines: seq<Line>, start: nat, i: nat, texts: seq<string>, depth: nat)
    requires start < i < |lines| && Sound(lines, depth) && depth <= MAX_DEPTH && lines[i].kind.Plain?
    ensures ParagraphThen(lines, start, i, texts, depth)
         == ParagraphThen(lines, start, i + 1, texts + [Trim(lines[i].raw)], depth)
  {
    var j := TextEnd(lines, i);
    assert texts + Texts(lines, i, j) == texts + [Trim(lines[i].raw)] + Texts(lines, i + 1, j);
  }

  lemma ParagraphStops(lines: seq<Line>, start: nat, i: nat, texts: seq<string>, depth: nat)
    requires start < i <= |lines| && Sound(lines, depth) && depth <= MAX_DEPTH
    requires i < |lines| ==> !lines[i].kind.Plain?
    ensures ParagraphThen(lines, start, i, texts, depth) == [Paragraph(start, i, texts)] + Blocks(lines, i, depth)
  {
    assert texts + Texts(lines, i, i) == texts;
  }

  lemma ItemsNext(lines: seq<Line>, i: nat, j: nat)
    requires i < j <= |lines|
    ensures Items(lines, i, j) == [ItemOf(lines[i].kind)] + Items(lines, i + 1, j)
  {
  }

  lemma ListGrows(lines: seq<Line>, start: nat, i: nat, numbered: bool, items: seq<Item>, depth: nat)
    requires start < i < |lines| && Sound(lines, depth) && depth <= MAX_DEPTH && IsItem(lines[i].kind, numbered)
    ensures ListThen(lines, start, i, numbered, items, depth)
         == ListThen(lines, start, i + 1, numbered, items + [ItemOf(lines[i].kind)], depth)
  {
    var j := ListEnd(lines, i, numbered);
    var item := ItemOf(lines[i].kind);
    ItemsNext(lines, i, j);
    assert items + ([item] + Items(lines, i + 1, j)) == items + [item] + Items(lines, i + 1, j);
  }

  lemma ListStops(lines: seq<Line>, start: nat, i: nat, numbered: bool, items: seq<Item>, depth: nat)
    requires start < i <= |lines| && Sound(lines, depth) && depth <= MAX_DEPTH
    requires i < |lines| ==> !IsItem(lines[i].kind, numbered)
    ensures ListThen(lines, start, i, numbered, items, depth)
         == [List(start, i, numbered, items)] + Blocks(lines, i, depth)
  {
    assert items + Items(lines, i, i) == items;
  }

  lemma FenceGrows(lines: seq<Line>, start: nat, i: nat, texts: seq<string>, depth: nat)
    requires start < i < |lines| && Sound(lines, depth) && depth <= MAX_DEPTH && !lines[i].kind.FenceMark?
    ensures FenceThen(lines, start, i, texts, depth)
         == FenceThen(lines, start, i + 1, texts + [lines[i].raw], depth)
  {
    var j := FenceEnd(lines, i);
    assert FenceEnd(lines, i + 1) == j && Raws(lines, i, j) == [lines[i].raw] + Raws(lines, i + 1, j);
    assert texts + ([lines[i].raw] + Raws(lines, i + 1, j)) == texts + [lines[i].raw] + Raws(lines, i + 1, j);
  }

  lemma FenceStops(lines: seq<Line>, start: nat, i: nat, texts: seq<string>, depth: nat)
    requires start < i <= |lines| && Sound(lines, depth) && depth <= MAX_DEPTH
    requires i < |lines| ==> lines[i].kind.FenceMark?
    ensures FenceThen(lines, start, i, texts, depth)
         == [Fence(start, Min(i + 1, |lines|), texts)] + Blocks(lines, Min(i + 1, |lines|), depth)
  {
    assert texts + Raws(lines, i, i) == texts;
  }

  datatype OpenList = OpenList(numbered: bool, items: seq<Item>)

  /** What is still to be emitted when the loop is at line `i` with these things open. */
  function Rest(lines: seq<Line>, i: nat, depth: nat, start: nat, para: seq<string>,
                list: Option<OpenList>, fence: Option<seq<string>>): seq<Block>
    requires i <= |lines| && Sound(lines, depth) && depth <= MAX_DEPTH
    requires para != [] || list.Some? || fence.Some? ==> start < i
  {
    if fence.Some? then FenceThen(lines, start, i, fence.value, depth)
    else if para != [] then ParagraphThen(lines, start, i, para, depth)
    else if list.Some? then ListThen(lines, start, i, list.value.numbered, list.value.items, depth)
    else Blocks(lines, i, depth)
  }

  /** Never a paragraph and a list at once, and neither inside a fence. */
  predicate OneOpen(para: seq<string>, list: Option<OpenList>, fence: Option<seq<string>>) {
    (para == [] || list.None?) && (fence.Some? ==> para == [] && list.None?)
  }

  /** flushPara and flushList: close what is open before line `i`, which does not continue it. */
  method Flush(lines: seq<Line>, i: nat, depth: nat, start: nat, para: seq<string>, list: Option<OpenList>)
    returns (closed: seq<Block>)
    requires i <= |lines| && Sound(lines, depth) && depth <= MAX_DEPTH && OneOpen(para, list, None)
    requires para != [] || list.Some? ==> start < i
    requires i < |lines| && para != [] ==> !lines[i].kind.Plain?
    requires i < |lines| && list.Some? ==> !IsItem(lines[i].kind, list.value.numbered)
    ensures closed + Blocks(lines, i, depth) == Rest(lines, i, depth, start, para, list, None)
  {
    closed := [];
    if para != [] {
      ParagraphStops(lines, start, i, para, depth);
      closed := closed + [Paragraph(start, i, para)];
      return;
    }
    if list.Some? {
      ListStops(lines, start, i, list.value.numbered, list.value.items, depth);
      closed := closed + [List(start, i, list.value.numbered, list.value.items)];
    }
  }

  method ReadQuote(lines: seq<Line>, i: nat, depth: nat) returns (quote: seq<string>, j: nat)
    requires i < |lines| && Sound(lines, depth) && depth < MAX_DEPTH && lines[i].kind.QuoteLine?
    ensures j == QuoteEnd(lines, i + 1) && quote == QuoteBody(lines, i, j)
  {
    quote := [];
    j := i;
    while j < |lines| && IsQuoted(lines[j].raw)
      invariant i <= j <= |lines| && QuoteEnd(lines, j) == QuoteEnd(lines, i + 1)
      invariant quote == QuoteBody(lines, i, j) && (j < |lines| ==> Fits(lines, j, depth))
    {
      quote := quote + [Unquoted(lines[j].raw)];
      j := j + 1;
    }
  }

  method FitRow(row: seq<string>, width: nat) returns (r: seq<string>)
    ensures r == Fit(row, width)
  {
    r := if |row| >= width then row[..width] else row;
    while |r| < width
      invariant |r| <= width && Fit(r, width) == Fit(row, width)
    {
      r := r + [""];
    }
    assert r[..width] == r;
  }

  lemma RowsNext(lines: seq<Line>, i: nat, j: nat, width: nat)
    requires i <= j < |lines|
    ensures Rows(lines, i, j + 1, width) == Rows(lines, i, j, width) + [Fit(Cells(lines[j].raw), width)]
  {
  }

  method ReadRows(lines: seq<Line>, i: nat, width: nat) returns (rows: seq<seq<string>>, j: nat)
    requires i <= |lines|
    ensures j == TableEnd(lines, i) && rows == Rows(lines, i, j, width)
  {
    rows := [];
    j := i;
    while j < |lines| && IsRow(lines[j].raw)
      invariant i <= j <= |lines| && TableEnd(lines, j) == TableEnd(lines, i)
      invariant rows == Rows(lines, i, j, width)
    {
      var row := ReadCells(lines[j].raw);
      var r := FitRow(row, width);
      RowsNext(lines, i, j, width);
      rows := rows + [r];
      j := j + 1;
    }
  }

  lemma UnquotedOneLine(s: string)
    requires OneLine(s)
    ensures OneLine(Unquoted(s))
  {
    TrimWithin(s);
    var t := Trim(s);
    assert OneLine(t);
    assert forall k :: 0 <= k < |t| ==> t[k] in t;
  }

  lemma QuoteBodyOneLine(lines: seq<Line>, i: nat, j: nat)
    requires i < j <= |lines| && OneLines(lines)
    ensures QuoteBody(lines, i, j) != [] && forall s <- QuoteBody(lines, i, j) :: OneLine(s)
  {
    forall k | 0 <= k < j - i ensures OneLine(QuoteBody(lines, i, j)[k]) {
      UnquotedOneLine(lines[i + k].raw);
      assert QuoteBody(lines, i, j)[k] == Unquoted(lines[i + k].raw);
    }
  }

  lemma {:induction false} TrimStartWithin(s: string)
    ensures forall c <- TrimStart(s) :: c in s
  {
    if s != "" && IsSpace(s[0]) { TrimStartWithin(s[1..]); }
  }

  lemma {:induction false} TrimEndWithin(s: string)
    ensures forall c <- TrimEnd(s) :: c in s
  {
    if s != "" && IsSpace(s[|s| - 1]) { TrimEndWithin(s[..|s| - 1]); }
  }

  lemma TrimWithin(s: string)
    ensures forall c <- Trim(s) :: c in s
  {
    TrimStartWithin(s);
    TrimEndWithin(TrimStart(s));
  }

  // what the grammar says of a line that begins something

  lemma AtQuote(lines: seq<Line>, i: nat, depth: nat)
    requires i < |lines| && Sound(lines, depth) && depth <= MAX_DEPTH && lines[i].kind.QuoteLine?
    ensures depth < MAX_DEPTH && lines[i].kind.QuoteLine?
    ensures Blocks(lines, i, depth) == QuoteThen(lines, i, depth)
  {
    assert Fits(lines, i, depth);
  }

  lemma AtFence(lines: seq<Line>, i: nat, depth: nat)
    requires i < |lines| && Sound(lines, depth) && depth <= MAX_DEPTH && lines[i].kind.FenceMark?
    ensures
      var j := FenceEnd(lines, i + 1);
      var end := Min(j + 1, |lines|);
      Blocks(lines, i, depth) == [Fence(i, end, [] + Raws(lines, i + 1, j))] + Blocks(lines, end, depth)
  {
  }

  lemma AtTable(lines: seq<Line>, i: nat, depth: nat)
    requires i < |lines| && Sound(lines, depth) && depth <= MAX_DEPTH && lines[i].kind.TableHead?
    ensures i + 2 <= |lines|
    ensures
      var j := TableEnd(lines, i + 2);
      Blocks(lines, i, depth)
      == [Table(i, j, Cells(lines[i].raw), lines[i].kind.aligns,
                Rows(lines, i + 2, j, |Cells(lines[i].raw)|))] + Blocks(lines, j, depth)
  {
    assert Fits(lines, i, depth);
  }

  lemma AtOther(lines: seq<Line>, i: nat, depth: nat)
    requires i < |lines| && Sound(lines, depth) && depth <= MAX_DEPTH
    ensures
      match lines[i].kind
      case Plain => Blocks(lines, i, depth) == ParagraphThen(lines, i, i + 1, [Trim(lines[i].raw)], depth)
      case Bullet(text) => Blocks(lines, i, depth) == ListThen(lines, i, i + 1, false, [Item(None, text)], depth)
      case Ordered(n, text) => Blocks(lines, i, depth) == ListThen(lines, i, i + 1, true, [Item(Some(n), text)], depth)
      case FenceMark => Blocks(lines, i, depth) == FenceThen(lines, i, i + 1, [], depth)
      case Blank => Blocks(lines, i, depth) == Blocks(lines, i + 1, depth)
      case Heading(level, text) =>
        Blocks(lines, i, depth) == [Head(i, i + 1, level, text)] + Blocks(lines, i + 1, depth)
      case _ => true
  {
  }

  /** Consecutive quoted lines, one mark taken off each, parsed again one level down. */
  method BeginQuote(lines: seq<Line>, i: nat, depth: nat) returns (out: seq<Block>, next: nat)
    requires i < |lines| && Sound(lines, depth) && depth <= MAX_DEPTH && OneLines(lines)
    requires lines[i].kind.QuoteLine?
    ensures i < next <= |lines| && out + Blocks(lines, next, depth) == Blocks(lines, i, depth)
    decreases MAX_DEPTH - depth, 0
  {
    AtQuote(lines, i, depth);
    var quote, j := ReadQuote(lines, i, depth);
    QuoteBodyOneLine(lines, i, j);
    SplitJoin(quote);
    ReadSound(quote, depth + 1);
    var inner := MdToHtml(Join(quote), depth + 1);
    out, next := [Quote(i, j, inner)], j;
  }

  method BeginTable(lines: seq<Line>, i: nat, depth: nat, aligns: seq<Align>)
    returns (out: seq<Block>, next: nat)
    requires i < |lines| && Sound(lines, depth) && depth <= MAX_DEPTH && lines[i].kind == TableHead(aligns)
    ensures i < next <= |lines| && out + Blocks(lines, next, depth) == Blocks(lines, i, depth)
  {
    AtTable(lines, i, depth);
    var head := ReadCells(lines[i].raw);
    var rows, j := ReadRows(lines, i + 2, |head|);
    out, next := [Table(i, j, head, aligns, rows)], j;
  }

  /** Line `i` begins a construct: what it emits at once, what it leaves open, and the line after. */
  method Begin(lines: seq<Line>, i: nat, depth: nat, kind: Kind)
    returns (out: seq<Block>, para: seq<string>, list: Option<OpenList>, fence: Option<seq<string>>, next: nat)
    requires i < |lines| && Sound(lines, depth) && depth <= MAX_DEPTH && OneLines(lines)
    requires kind == lines[i].kind
    ensures i < next <= |lines| && OneOpen(para, list, fence)
    ensures out + Rest(lines, next, depth, i, para, list, fence) == Blocks(lines, i, depth)
    decreases MAX_DEPTH - depth, 1
  {
    out, para, list, fence, next := [], [], None, None, i + 1;
    match kind {
      case QuoteLine => out, next := BeginQuote(lines, i, depth);
      case TableHead(aligns) => out, next := BeginTable(lines, i, depth, aligns);
      case _ => out, para, list, fence := BeginText(lines, i, depth, kind);
    }
  }

  method BeginText(lines: seq<Line>, i: nat, depth: nat, kind: Kind)
    returns (out: seq<Block>, para: seq<string>, list: Option<OpenList>, fence: Option<seq<string>>)
    requires i < |lines| && Sound(lines, depth) && depth <= MAX_DEPTH
    requires kind == lines[i].kind && !kind.QuoteLine? && !kind.TableHead?
    ensures OneOpen(para, list, fence)
    ensures out + Rest(lines, i + 1, depth, i, para, list, fence) == Blocks(lines, i, depth)
  {
    out, para, list, fence := [], [], None, None;
    match kind {
      case Heading(level, title) => out := [Head(i, i + 1, level, title)]; AtOther(lines, i, depth);
      case Plain => para := [Trim(lines[i].raw)]; AtOther(lines, i, depth);
      case Bullet(text) => list := Some(OpenList(false, [Item(None, text)])); AtOther(lines, i, depth);
      case Ordered(n, text) => list := Some(OpenList(true, [Item(Some(n), text)])); AtOther(lines, i, depth);
      case FenceMark => fence := Some([]); AtOther(lines, i, depth);
      case Blank => AtOther(lines, i, depth);
    }
  }

  /** Whether the line continues what is open. */
  predicate Continues(kind: Kind, para: seq<string>, list: Option<OpenList>) {
    (para != [] && kind.Plain?) || (list.Some? && IsItem(kind, list.value.numbered))
  }

  method Continue(lines: seq<Line>, i: nat, depth: nat, start: nat, para: seq<string>,
                  list: Option<OpenList>, kind: Kind)
    returns (para': seq<string>, list': Option<OpenList>)
    requires start < i < |lines| && Sound(lines, depth) && depth <= MAX_DEPTH && OneOpen(para, list, None)
    requires kind == lines[i].kind && Continues(kind, para, list)
    ensures OneOpen(para', list', None)
    ensures Rest(lines, i + 1, depth, start, para', list', None) == Rest(lines, i, depth, start, para, list, None)
  {
    para', list' := para, list;
    if para != [] {
      ParagraphGrows(lines, start, i, para, depth);
      para' := para + [Trim(lines[i].raw)];
    } else {
      ListGrows(lines, start, i, list.value.numbered, list.value.items, depth);
      list' := Some(list.value.(items := list.value.items + [ItemOf(kind)]));
    }
  }

  /** A line while a fence is open: the block it closes, or the fence with one more line. */
  method InFence(lines: seq<Line>, i: nat, depth: nat, start: nat, texts: seq<string>)
    returns (out: seq<Block>, fence: Option<seq<string>>)
    requires start < i < |lines| && Sound(lines, depth) && depth <= MAX_DEPTH
    ensures out + Rest(lines, i + 1, depth, start, [], None, fence)
         == Rest(lines, i, depth, start, [], None, Some(texts))
  {
    assert Fits(lines, i, depth);
    if IsFence(lines[i].raw) {
      FenceStops(lines, start, i, texts, depth);
      return [Fence(start, i + 1, texts)], None;
    }
    FenceGrows(lines, start, i, texts, depth);
    return [], Some(texts + [lines[i].raw]);
  }

  /** One turn of the loop: what it emits and what is open before line `next`. */
  method Advance(lines: seq<Line>, i: nat, depth: nat, start: nat, para: seq<string>,
                 list: Option<OpenList>, fence: Option<seq<string>>)
    returns (made: seq<Block>, start': nat, para': seq<string>, list': Option<OpenList>,
             fence': Option<seq<string>>, next: nat)
    requires i < |lines| && Sound(lines, depth) && depth <= MAX_DEPTH && OneLines(lines)
    requires OneOpen(para, list, fence) && (para != [] || list.Some? || fence.Some? ==> start < i)
    ensures i < next <= |lines| && start' < next && OneOpen(para', list', fence')
    ensures made + Rest(lines, next, depth, start', para', list', fence')
         == Rest(lines, i, depth, start, para, list, fence)
    decreases MAX_DEPTH - depth, 3
  {
    made, start', para', list', fence', next := [], Min(start, i), para, list, None, i + 1;
    if fence.Some? {
      made, fence' := InFence(lines, i, depth, start, fence.value);
      return;
    }
    var kind := lines[i].kind;
    if Continues(kind, para, list) {
      para', list' := Continue(lines, i, depth, start, para, list, kind);
      return;
    }
    start' := i;
    made, para', list', fence', next := Break(lines, i, depth, start, para, list, kind);
  }

  lemma Regroup(a: seq<Block>, b: seq<Block>, c: seq<Block>)
    ensures a + b + c == a + (b + c)
  {
  }

  /** A line that does not continue what is open: that is closed, and the line begins its own. */
  method Break(lines: seq<Line>, i: nat, depth: nat, start: nat, para: seq<string>,
               list: Option<OpenList>, kind: Kind)
    returns (made: seq<Block>, para': seq<string>, list': Option<OpenList>, fence': Option<seq<string>>, next: nat)
    requires i < |lines| && Sound(lines, depth) && depth <= MAX_DEPTH && OneLines(lines)
    requires OneOpen(para, list, None) && (para != [] || list.Some? ==> start < i)
    requires kind == lines[i].kind && !Continues(kind, para, list)
    ensures i < next <= |lines| && OneOpen(para', list', fence')
    ensures made + Rest(lines, next, depth, i, para', list', fence')
         == Rest(lines, i, depth, start, para, list, None)
    decreases MAX_DEPTH - depth, 2
  {
    var closed := Flush(lines, i, depth, start, para, list);
    made, para', list', fence', next := Begin(lines, i, depth, kind);
    Regroup(closed, made, Rest(lines, next, depth, i, para', list', fence'));
    made := closed + made;
  }

  /** With what is out and what is still open, the blocks of the text are complete. */
  ghost predicate Emits(lines: seq<Line>, depth: nat, out: seq<Block>, i: nat, start: nat, para: seq<string>,
                        list: Option<OpenList>, fence: Option<seq<string>>) {
    && i <= |lines| && Sound(lines, depth) && depth <= MAX_DEPTH && OneOpen(para, list, fence)
    && (para != [] || list.Some? || fence.Some? ==> start < i)
    && out + Rest(lines, i, depth, start, para, list, fence) == Blocks(lines, 0, depth)
  }

  lemma Emitted(out: seq<Block>, made: seq<Block>, left: seq<Block>, rest: seq<Block>, all: seq<Block>)
    requires made + left == rest && out + rest == all
    ensures out + made + left == all
  {
    assert out + (made + left) == out + made + left;
  }

  /** mdToHtml: one pass over the lines with at most one construct open. */
  method MdToHtml(text: string, depth: nat) returns (out: seq<Block>)
    requires depth <= MAX_DEPTH
    ensures Sound(Read(Split(text), depth), depth)
    ensures out == Blocks(Read(Split(text), depth), 0, depth)
    decreases MAX_DEPTH - depth, 5
  {
    var lines := Read(Split(text), depth);
    ReadSound(Split(text), depth);
    SplitOneLines(text, "");
    out := [];
    var para: seq<string>, list: Option<OpenList>, fence: Option<seq<string>> := [], None, None;
    var i: nat, start: nat := 0, 0;
    while i < |lines|
      invariant Emits(lines, depth, out, i, start, para, list, fence)
      decreases |lines| - i
    {
      var made;
      made, start, para, list, fence, i := Turn(lines, out, i, depth, start, para, list, fence);
      out := out + made;
    }
    var last := Finish(lines, depth, start, para, list, fence);
    out := out + last;
  }

  /** One turn of the loop. */
  method Turn(lines: seq<Line>, ghost out: seq<Block>, i: nat, depth: nat, start: nat, para: seq<string>,
              list: Option<OpenList>, fence: Option<seq<string>>)
    returns (made: seq<Block>, start': nat, para': seq<string>, list': Option<OpenList>, fence': Option<seq<string>>,
             next: nat)
    requires i < |lines| && OneLines(lines) && Emits(lines, depth, out, i, start, para, list, fence)
    ensures i < next && Emits(lines, depth, out + made, next, start', para', list', fence')
    decreases MAX_DEPTH - depth, 4
  {
    ghost var rest := Rest(lines, i, depth, start, para, list, fence);
    made, start', para', list', fence', next := Advance(lines, i, depth, start, para, list, fence);
    Emitted(out, made, Rest(lines, next, depth, start', para', list', fence'), rest, Blocks(lines, 0, depth));
  }

  /** What is still open at the end of the text, an unterminated fence included. */
  method Finish(lines: seq<Line>, depth: nat, start: nat, para: seq<string>, list: Option<OpenList>,
                fence: Option<seq<string>>) returns (last: seq<Block>)
    requires Sound(lines, depth) && depth <= MAX_DEPTH && OneOpen(para, list, fence)
    requires para != [] || list.Some? || fence.Some? ==> start < |lines|
    ensures last == Rest(lines, |lines|, depth, start, para, list, fence)
  {
    if fence.Some? {
      FenceStops(lines, start, |lines|, fence.value, depth);
      return [Fence(start, |lines|, fence.value)];
    }
    last := Flush(lines, |lines|, depth, start, para, list);
    assert last + Blocks(lines, |lines|, depth) == last;
  }

  // ---------------------------------------------------------------------- nothing is lost

  /** A paragraph is every plain line of its stretch, trimmed, and the stretch goes on as far as it can. */
  predicate ParagraphSays(lines: seq<Line>, start: nat, end: nat, texts: seq<string>)
    requires start < end <= |lines|
  {
    && |texts| == end - start
    && (forall k :: start <= k < end ==> lines[k].kind.Plain? && texts[k - start] == Trim(lines[k].raw))
    && (end < |lines| ==> !lines[end].kind.Plain?)
  }

  predicate ItemSays(kind: Kind, numbered: bool, item: Item) {
    match kind
    case Bullet(text) => !numbered && item == Item(None, text)
    case Ordered(num, text) => numbered && item == Item(Some(num), text)
    case _ => false
  }

  predicate ListSays(lines: seq<Line>, start: nat, end: nat, numbered: bool, items: seq<Item>)
    requires start < end <= |lines|
  {
    && |items| == end - start
    && (forall k :: start <= k < end ==> ItemSays(lines[k].kind, numbered, items[k - start]))
    && (end < |lines| ==> !(if numbered then lines[end].kind.Ordered? else lines[end].kind.Bullet?))
  }

  predicate FenceSays(lines: seq<Line>, start: nat, end: nat, texts: seq<string>)
    requires start < end <= |lines|
  {
    var close := start + 1 + |texts|;
    && lines[start].kind.FenceMark? && close <= |lines| && end == Min(close + 1, |lines|)
    && (forall k :: start < k < close ==> !lines[k].kind.FenceMark? && texts[k - start - 1] == lines[k].raw)
    && (close < |lines| ==> lines[close].kind.FenceMark?)
  }

  /** A row's cells, in the header's width. */
  predicate RowSays(raw: string, width: nat, row: seq<string>) {
    |row| == width && forall c :: 0 <= c < width ==> row[c] == if c < |Cells(raw)| then Cells(raw)[c] else ""
  }

  /** The line goes on with the table above it. */
  predicate RowLike(raw: string) {
    Trim(raw) != "" && '|' in raw
  }

  /** As many lines as go on with it. */
  predicate RowStretch(lines: seq<Line>, i: nat, j: nat)
    requires i <= j <= |lines|
  {
    (forall k :: i <= k < j ==> RowLike(lines[k].raw)) && (j < |lines| ==> !RowLike(lines[j].raw))
  }

  predicate RowsSay(lines: seq<Line>, i: nat, j: nat, width: nat, rows: seq<seq<string>>)
    requires i <= j <= |lines|
  {
    |rows| == j - i && forall k :: i <= k < j ==> RowSays(lines[k].raw, width, rows[k - i])
  }

  predicate TableSays(lines: seq<Line>, start: nat, end: nat, head: seq<string>,
                      aligns: seq<Align>, rows: seq<seq<string>>)
    requires start < end <= |lines|
  {
    && lines[start].kind == TableHead(aligns) && head == Cells(lines[start].raw)
    && start + 2 <= end && RowStretch(lines, start + 2, end) && RowsSay(lines, start + 2, end, |head|, rows)
  }

  /** What the block says is what its lines say. */
  predicate Faithful(b: Block, lines: seq<Line>, depth: nat)
    requires b.start < b.end <= |lines|
    decreases b, 0
  {
    match b
    case Paragraph(start, end, texts) =>
      ParagraphSays(lines, start, end, texts)
    case List(start, end, numbered, items) =>
      ListSays(lines, start, end, numbered, items)
    case Fence(start, end, texts) =>
      FenceSays(lines, start, end, texts)
    case Head(start, end, level, text) =>
      end == start + 1 && lines[start].kind == Heading(level, text)
    case Quote(start, end, inner) =>
      && Sound(lines, depth) && depth < MAX_DEPTH && (forall k :: start <= k < end ==> lines[k].kind.QuoteLine?)
      && (end < |lines| ==> !lines[end].kind.QuoteLine?)
      && var body := seq(end - start, k requires 0 <= k < end - start => Unquoted(lines[start + k].raw));
         Conserves(inner, Read(body, depth + 1), 0, depth + 1)
    case Table(start, end, head, aligns, rows) =>
      TableSays(lines, start, end, head, aligns, rows)
  }

  /** The blocks follow each other down the lines from `i`, each faithful, with only blank lines
      between them and after them. */
  predicate Conserves(bs: seq<Block>, lines: seq<Line>, i: nat, depth: nat)
    requires i <= |lines|
    decreases bs, 1
  {
    if bs == [] then forall k :: i <= k < |lines| ==> lines[k].kind.Blank?
    else
      && i <= bs[0].start < bs[0].end <= |lines|
      && (forall k :: i <= k < bs[0].start ==> lines[k].kind.Blank?)
      && Faithful(bs[0], lines, depth)
      && Conserves(bs[1..], lines, bs[0].end, depth)
  }

  lemma {:induction false} TextEndPlain(lines: seq<Line>, i: nat)
    requires i <= |lines|
    ensures forall k :: i <= k < TextEnd(lines, i) ==> lines[k].kind.Plain?
    ensures TextEnd(lines, i) < |lines| ==> !lines[TextEnd(lines, i)].kind.Plain?
    decreases |lines| - i
  {
    if i < |lines| && lines[i].kind.Plain? { TextEndPlain(lines, i + 1); }
  }

  lemma {:induction false} ListEndItems(lines: seq<Line>, i: nat, numbered: bool)
    requires i <= |lines|
    ensures forall k :: i <= k < ListEnd(lines, i, numbered) ==> IsItem(lines[k].kind, numbered)
    ensures ListEnd(lines, i, numbered) < |lines| ==> !IsItem(lines[ListEnd(lines, i, numbered)].kind, numbered)
    decreases |lines| - i
  {
    if i < |lines| && IsItem(lines[i].kind, numbered) {
      ListEndItems(lines, i + 1, numbered);
    }
  }

  lemma {:induction false} FenceEndOpen(lines: seq<Line>, i: nat)
    requires i <= |lines|
    ensures
      var j := FenceEnd(lines, i);
      && (forall k :: i <= k < j ==> !lines[k].kind.FenceMark?)
      && (j < |lines| ==> lines[j].kind.FenceMark?)
    decreases |lines| - i
  {
    if i < |lines| && !lines[i].kind.FenceMark? { FenceEndOpen(lines, i + 1); }
  }

  lemma {:induction false} QuoteEndQuoted(lines: seq<Line>, i: nat)
    requires i <= |lines|
    ensures
      var j := QuoteEnd(lines, i);
      (forall k :: i <= k < j ==> lines[k].kind.QuoteLine?) && (j < |lines| ==> !lines[j].kind.QuoteLine?)
    decreases |lines| - i
  {
    if i < |lines| && lines[i].kind.QuoteLine? { QuoteEndQuoted(lines, i + 1); }
  }

  lemma {:induction false} TableEndRows(lines: seq<Line>, i: nat)
    requires i <= |lines|
    ensures
      var j := TableEnd(lines, i);
      (forall k :: i <= k < j ==> IsRow(lines[k].raw)) && (j < |lines| ==> !IsRow(lines[j].raw))
    decreases |lines| - i
  {
    if i < |lines| && IsRow(lines[i].raw) { TableEndRows(lines, i + 1); }
  }

  lemma {:induction false} ParagraphFaithful(lines: seq<Line>, i: nat)
    requires i < |lines| && lines[i].kind.Plain?
    ensures
      var j := TextEnd(lines, i + 1);
      ParagraphSays(lines, i, j, [Trim(lines[i].raw)] + Texts(lines, i + 1, j))
  {
    var j := TextEnd(lines, i + 1);
    TextEndPlain(lines, i + 1);
    assert [Trim(lines[i].raw)] + Texts(lines, i + 1, j) == Texts(lines, i, j);
  }

  lemma {:induction false} ItemsAre(lines: seq<Line>, i: nat, j: nat, k: nat)
    requires i <= j <= |lines| && k < j - i
    ensures Items(lines, i, j)[k] == ItemOf(lines[i + k].kind)
    decreases k
  {
    ItemsNext(lines, i, j);
    if k > 0 { ItemsAre(lines, i + 1, j, k - 1); }
  }

  lemma {:induction false} ListFaithful(lines: seq<Line>, i: nat, numbered: bool)
    requires i < |lines| && IsItem(lines[i].kind, numbered)
    ensures
      var j := ListEnd(lines, i + 1, numbered);
      ListSays(lines, i, j, numbered, [ItemOf(lines[i].kind)] + Items(lines, i + 1, j))
  {
    ListEndItems(lines, i + 1, numbered);
    var j := ListEnd(lines, i + 1, numbered);
    ItemsNext(lines, i, j);
    forall k | i <= k < j ensures ItemSays(lines[k].kind, numbered, Items(lines, i, j)[k - i]) {
      ItemsAre(lines, i, j, k - i);
    }
  }

  lemma {:induction false} FenceFaithful(lines: seq<Line>, i: nat)
    requires i < |lines| && lines[i].kind.FenceMark?
    ensures
      var j := FenceEnd(lines, i + 1);
      FenceSays(lines, i, Min(j + 1, |lines|), [] + Raws(lines, i + 1, j))
  {
    FenceEndOpen(lines, i + 1);
    var j := FenceEnd(lines, i + 1);
    FenceHolds(lines, i, j, [] + Raws(lines, i + 1, j));
  }

  lemma RawsAre(lines: seq<Line>, i: nat, j: nat, texts: seq<string>)
    requires i <= j <= |lines| && texts == [] + Raws(lines, i, j)
    ensures |texts| == j - i && forall k :: i <= k < j ==> texts[k - i] == lines[k].raw
  {
  }

  lemma {:induction false} FenceHolds(lines: seq<Line>, i: nat, j: nat, texts: seq<string>)
    requires i < j <= |lines| && lines[i].kind.FenceMark? && texts == [] + Raws(lines, i + 1, j)
    requires (forall k :: i < k < j ==> !lines[k].kind.FenceMark?) && (j < |lines| ==> lines[j].kind.FenceMark?)
    ensures FenceSays(lines, i, Min(j + 1, |lines|), texts)
  {
    RawsAre(lines, i + 1, j, texts);
    forall k | i < k < j ensures texts[k - i - 1] == lines[k].raw { }
  }

  lemma {:induction false} QuoteFaithful(lines: seq<Line>, i: nat, depth: nat, inner: seq<Block>)
    requires i < |lines| && Sound(lines, depth) && depth < MAX_DEPTH && lines[i].kind.QuoteLine?
    requires Conserves(inner, Read(QuoteBody(lines, i, QuoteEnd(lines, i + 1)), depth + 1), 0, depth + 1)
    ensures Faithful(Quote(i, QuoteEnd(lines, i + 1), inner), lines, depth)
  {
    QuoteEndQuoted(lines, i + 1);
    var n := QuoteEnd(lines, i + 1) - i;
    assert QuoteBody(lines, i, i + n) == seq(n, k requires 0 <= k < n => Unquoted(lines[i + k].raw));
  }

  lemma QuoteCons(lines: seq<Line>, i: nat, depth: nat, inner: seq<Block>,
                                     rest: seq<Block>, whole: seq<Block>)
    requires i < |lines| && Sound(lines, depth) && depth < MAX_DEPTH && lines[i].kind.QuoteLine?
    requires whole == [Quote(i, QuoteEnd(lines, i + 1), inner)] + rest
    requires Conserves(inner, QuoteLines(lines, i, depth), 0, depth + 1)
    requires Conserves(rest, lines, QuoteEnd(lines, i + 1), depth)
    ensures Conserves(whole, lines, i, depth)
  {
    QuoteFaithful(lines, i, depth, inner);
    ConservesCons(Quote(i, QuoteEnd(lines, i + 1), inner), rest, lines, depth);
  }

  lemma RowFits(raw: string, width: nat)
    ensures RowSays(raw, width, Fit(Cells(raw), width))
  {
  }

  lemma {:induction false} RowsFit(lines: seq<Line>, i: nat, j: nat, width: nat)
    requires i <= j <= |lines|
    ensures RowsSay(lines, i, j, width, Rows(lines, i, j, width))
  {
    forall k | i <= k < j ensures RowSays(lines[k].raw, width, Rows(lines, i, j, width)[k - i]) {
      RowFits(lines[k].raw, width);
    }
  }

  lemma RowIff(raw: string)
    ensures IsRow(raw) <==> RowLike(raw)
  {
    HasIff(raw, '|');
  }

  lemma TableRowsEnd(lines: seq<Line>, i: nat)
    requires i <= |lines|
    ensures RowStretch(lines, i, TableEnd(lines, i))
  {
    TableEndRows(lines, i);
    var j := TableEnd(lines, i);
    forall k | i <= k < j ensures RowLike(lines[k].raw) { RowIff(lines[k].raw); }
    if j < |lines| { RowIff(lines[j].raw); }
  }

  lemma {:induction false} TableFaithful(lines: seq<Line>, i: nat, j: nat, head: seq<string>, rows: seq<seq<string>>)
    requires i + 2 <= |lines| && lines[i].kind.TableHead?
    requires j == TableEnd(lines, i + 2) && head == Cells(lines[i].raw) && rows == Rows(lines, i + 2, j, |head|)
    ensures TableSays(lines, i, j, head, lines[i].kind.aligns, rows)
  {
    TableRowsEnd(lines, i + 2);
    RowsFit(lines, i + 2, j, |head|);
  }

  lemma ConservesBlank(bs: seq<Block>, lines: seq<Line>, i: nat, depth: nat)
    requires i < |lines| && lines[i].kind.Blank? && Conserves(bs, lines, i + 1, depth)
    ensures Conserves(bs, lines, i, depth)
  {
  }

  lemma ConservesCons(b: Block, rest: seq<Block>, lines: seq<Line>, depth: nat)
    requires b.start < b.end <= |lines| && Faithful(b, lines, depth) && Conserves(rest, lines, b.end, depth)
    ensures Conserves([b] + rest, lines, b.start, depth)
  {
    assert ([b] + rest)[1..] == rest;
  }

  /** The parser conserves its text: every line that is not blank is in exactly one block, in source
      order, and each block holds what its lines say, down through nested quotes. */
  lemma BlocksConserve(lines: seq<Line>, i: nat, depth: nat)
    requires i <= |lines| && Sound(lines, depth) && depth <= MAX_DEPTH
    ensures Conserves(Blocks(lines, i, depth), lines, i, depth)
    decreases MAX_DEPTH - depth, |lines| - i, 1
  {
    if i < |lines| {
      match lines[i].kind {
        case Blank => BlankConserves(lines, i, depth);
        case Heading(_, _) => HeadConserves(lines, i, depth);
        case Plain => ParagraphConserves(lines, i, depth);
        case FenceMark => FenceConserves(lines, i, depth);
        case Bullet(_) => ListConserves(lines, i, depth, false);
        case Ordered(_, _) => ListConserves(lines, i, depth, true);
        case QuoteLine => AtQuote(lines, i, depth); QuoteConserves(lines, i, depth);
        case TableHead(_) => TableConserves(lines, i, depth);
      }
    } else {
      NothingLeft(lines, i, depth);
    }
  }

  lemma NothingLeft(lines: seq<Line>, i: nat, depth: nat)
    requires i == |lines| && Sound(lines, depth) && depth <= MAX_DEPTH
    ensures Conserves(Blocks(lines, i, depth), lines, i, depth)
  {
  }

  lemma BlankConserves(lines: seq<Line>, i: nat, depth: nat)
    requires i < |lines| && Sound(lines, depth) && depth <= MAX_DEPTH && lines[i].kind.Blank?
    ensures Conserves(Blocks(lines, i, depth), lines, i, depth)
    decreases MAX_DEPTH - depth, |lines| - i, 0
  {
    AtOther(lines, i, depth);
    BlocksConserve(lines, i + 1, depth);
    ConservesBlank(Blocks(lines, i + 1, depth), lines, i, depth);
  }

  lemma HeadConserves(lines: seq<Line>, i: nat, depth: nat)
    requires i < |lines| && Sound(lines, depth) && depth <= MAX_DEPTH && lines[i].kind.Heading?
    ensures Conserves(Blocks(lines, i, depth), lines, i, depth)
    decreases MAX_DEPTH - depth, |lines| - i, 0
  {
    AtOther(lines, i, depth);
    BlocksConserve(lines, i + 1, depth);
    var k := lines[i].kind;
    ConservesCons(Head(i, i + 1, k.level, k.text), Blocks(lines, i + 1, depth), lines, depth);
  }

  lemma ParagraphConserves(lines: seq<Line>, i: nat, depth: nat)
    requires i < |lines| && Sound(lines, depth) && depth <= MAX_DEPTH && lines[i].kind.Plain?
    ensures Conserves(Blocks(lines, i, depth), lines, i, depth)
    decreases MAX_DEPTH - depth, |lines| - i, 0
  {
    AtOther(lines, i, depth);
    var j := TextEnd(lines, i + 1);
    BlocksConserve(lines, j, depth);
    ParagraphFaithful(lines, i);
    ConservesCons(Paragraph(i, j, [Trim(lines[i].raw)] + Texts(lines, i + 1, j)),
                  Blocks(lines, j, depth), lines, depth);
  }

  lemma {:induction false} FenceConserves(lines: seq<Line>, i: nat, depth: nat)
    requires i < |lines| && Sound(lines, depth) && depth <= MAX_DEPTH && lines[i].kind.FenceMark?
    ensures Conserves(Blocks(lines, i, depth), lines, i, depth)
    decreases MAX_DEPTH - depth, |lines| - i, 0
  {
    AtFence(lines, i, depth);
    var j := FenceEnd(lines, i + 1);
    var end := Min(j + 1, |lines|);
    BlocksConserve(lines, end, depth);
    FenceFaithful(lines, i);
    ConservesCons(Fence(i, end, [] + Raws(lines, i + 1, j)), Blocks(lines, end, depth), lines, depth);
  }

  lemma ListConserves(lines: seq<Line>, i: nat, depth: nat, numbered: bool)
    requires i < |lines| && Sound(lines, depth) && depth <= MAX_DEPTH && IsItem(lines[i].kind, numbered)
    ensures Conserves(Blocks(lines, i, depth), lines, i, depth)
    decreases MAX_DEPTH - depth, |lines| - i, 0
  {
    AtOther(lines, i, depth);
    var j := ListEnd(lines, i + 1, numbered);
    BlocksConserve(lines, j, depth);
    ListFaithful(lines, i, numbered);
    ConservesCons(List(i, j, numbered, [ItemOf(lines[i].kind)] + Items(lines, i + 1, j)),
                  Blocks(lines, j, depth), lines, depth);
  }

  lemma QuoteParts(lines: seq<Line>, i: nat, depth: nat) returns (inner: seq<Block>, rest: seq<Block>)
    requires i < |lines| && Sound(lines, depth) && depth < MAX_DEPTH
    ensures Sound(QuoteLines(lines, i, depth), depth + 1)
    ensures inner == Blocks(QuoteLines(lines, i, depth), 0, depth + 1)
    ensures rest == Blocks(lines, QuoteEnd(lines, i + 1), depth)
    ensures QuoteThen(lines, i, depth) == [Quote(i, QuoteEnd(lines, i + 1), inner)] + rest
  {
    ReadSound(QuoteBody(lines, i, QuoteEnd(lines, i + 1)), depth + 1);
    inner := Blocks(QuoteLines(lines, i, depth), 0, depth + 1);
    rest := Blocks(lines, QuoteEnd(lines, i + 1), depth);
  }

  lemma QuoteConserves(lines: seq<Line>, i: nat, depth: nat)
    requires i < |lines| && Sound(lines, depth) && depth < MAX_DEPTH
    requires lines[i].kind.QuoteLine?
    ensures Conserves(QuoteThen(lines, i, depth), lines, i, depth)
    decreases MAX_DEPTH - depth, |lines| - i, 0
  {
    BlocksConserve(lines, QuoteEnd(lines, i + 1), depth);
    QuoteInner(lines, i, depth);
    var inner, rest := QuoteParts(lines, i, depth);
    QuoteCons(lines, i, depth, inner, rest, QuoteThen(lines, i, depth));
  }

  lemma QuoteInner(lines: seq<Line>, i: nat, depth: nat)
    requires i < |lines| && Sound(lines, depth) && depth < MAX_DEPTH
    ensures
      var body := QuoteLines(lines, i, depth);
      Sound(body, depth + 1) && Conserves(Blocks(body, 0, depth + 1), body, 0, depth + 1)
    decreases MAX_DEPTH - depth, 0, 0
  {
    ReadSound(QuoteBody(lines, i, QuoteEnd(lines, i + 1)), depth + 1);
    BlocksConserve(QuoteLines(lines, i, depth), 0, depth + 1);
  }

  lemma TableConserves(lines: seq<Line>, i: nat, depth: nat)
    requires i < |lines| && Sound(lines, depth) && depth <= MAX_DEPTH && lines[i].kind.TableHead?
    ensures Conserves(Blocks(lines, i, depth), lines, i, depth)
    decreases MAX_DEPTH - depth, |lines| - i, 0
  {
    AtTable(lines, i, depth);
    var j := TableEnd(lines, i + 2);
    BlocksConserve(lines, j, depth);
    var head := Cells(lines[i].raw);
    TableFaithful(lines, i, j, head, Rows(lines, i + 2, j, |head|));
    ConservesCons(Table(i, j, Cells(lines[i].raw), lines[i].kind.aligns,
                        Rows(lines, i + 2, j, |Cells(lines[i].raw)|)), Blocks(lines, j, depth), lines, depth);
  }

  /** In plain words: blocks are disjoint and in order, and each line with something on it is in one. */
  lemma {:induction false} EachLineOnce(bs: seq<Block>, lines: seq<Line>, i: nat, depth: nat)
    requires i <= |lines| && Conserves(bs, lines, i, depth)
    ensures forall x :: 0 <= x < |bs| ==> i <= bs[x].start < bs[x].end <= |lines|
    ensures forall x, y :: 0 <= x < y < |bs| ==> bs[x].end <= bs[y].start
    ensures forall k :: i <= k < |lines| && !lines[k].kind.Blank? ==>
              exists x :: 0 <= x < |bs| && bs[x].start <= k < bs[x].end
  {
    if bs != [] {
      EachLineOnce(bs[1..], lines, bs[0].end, depth);
      forall k | i <= k < |lines| && !lines[k].kind.Blank?
        ensures exists x :: 0 <= x < |bs| && bs[x].start <= k < bs[x].end
      {
        if k >= bs[0].end {
          var x :| 0 <= x < |bs| - 1 && bs[1..][x].start <= k < bs[1..][x].end;
          assert bs[x + 1].start <= k < bs[x + 1].end;
        }
      }
    }
  }

  /** What the parser makes of any text: blocks that are disjoint and in order, that hold what their
      lines say, and that leave out only blank lines. */
  lemma NothingLost(text: string)
    ensures
      var lines := Read(Split(text), 0);
      && |lines| == |Split(text)| && Sound(lines, 0)
      && var bs := Blocks(lines, 0, 0);
      && Conserves(bs, lines, 0, 0)
      && (forall x :: 0 <= x < |bs| ==> bs[x].start < bs[x].end <= |lines|)
      && (forall x, y :: 0 <= x < y < |bs| ==> bs[x].end <= bs[y].start)
      && (forall k :: 0 <= k < |lines| && Trim(Split(text)[k]) != "" ==>
            exists x :: 0 <= x < |bs| && bs[x].start <= k < bs[x].end)
  {
    var lines := Read(Split(text), 0);
    ReadSound(Split(text), 0);
    BlocksConserve(lines, 0, 0);
    EachLineOnce(Blocks(lines, 0, 0), lines, 0, 0);
    forall k | 0 <= k < |lines| && Trim(Split(text)[k]) != "" ensures !lines[k].kind.Blank? {
      assert Fits(lines, k, 0);
    }
  }

  /** Every row of a table has as many cells as its header, and one alignment for each. */
  lemma TablesAreSquare(b: Block, lines: seq<Line>, depth: nat)
    requires b.Table? && b.start < b.end <= |lines| && Faithful(b, lines, depth) && Sound(lines, depth)
    ensures |b.aligns| == |b.head| && forall r <- b.rows :: |r| == |b.head|
  {
    assert TableSays(lines, b.start, b.end, b.head, b.aligns, b.rows);
    assert Fits(lines, b.start, depth);
    forall k | 0 <= k < |b.rows| ensures |b.rows[k]| == |b.head| {
      var i := b.start + 2 + k;
      assert RowSays(lines[i].raw, |b.head|, b.rows[i - (b.start + 2)]);
    }
  }
}
