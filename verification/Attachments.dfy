/** The block a message with file attachments ends with, printed and read back (src/rsched/conversations.py). */
module Attachments {
  import opened Basics

  const MARK := "[attached files "

  // ---------------------------------------------------------------------- text

  /** A line boundary of str.splitlines. */
  predicate IsBreak(c: char) {
    var n := c as int;
    0x0a <= n <= 0x0d || 0x1c <= n <= 0x1e || n == 0x85 || n == 0x2028 || n == 0x2029
  }

  predicate OneLine(s: string) {
    forall k :: 0 <= k < |s| ==> !IsBreak(s[k])
  }

  /** str.splitlines of what is left, `line` being the line being read. */
  function Lines(s: string, line: string): seq<string> {
    if s == "" then if line == "" then [] else [line]
    else if !IsBreak(s[0]) then Lines(s[1..], line + [s[0]])
    else if s[0] == '\r' && |s| > 1 && s[1] == '\n' then [line] + Lines(s[2..], "")
    else [line] + Lines(s[1..], "")
  }

  predicate At(s: string, m: string, i: nat) {
    i <= |s| && m <= s[i..]
  }

  /** str.rpartition: the last place from `i` down where `m` stands. */
  function LastAt(s: string, m: string, i: nat): (r: Option<nat>)
    ensures r.Some? ==> r.value <= i && At(s, m, r.value)
    ensures forall k: nat :: k <= i && (r.None? || r.value < k) ==> !At(s, m, k)
  {
    if At(s, m, i) then Some(i) else if i == 0 then None else LastAt(s, m, i - 1)
  }

  ghost predicate Contains(s: string, m: string) {
    exists i: nat :: At(s, m, i)
  }

  // ---------------------------------------------------------------------- the note

  /** "- " and the path, one to a line. */
  function List(paths: seq<string>): string
    requires paths != []
  {
    if |paths| == 1 then "- " + paths[0] else "- " + paths[0] + "\n" + List(paths[1..])
  }

  /** attachment_note; `how` is the sentence that says how to read the files. */
  function Note(paths: seq<string>, how: string): string {
    if paths == [] then "" else "\n\n" + MARK + how + "]\n" + List(paths)
  }

  /** The paths at the head of the lines, up to the first that is not an item. */
  function Items(lines: seq<string>): seq<string> {
    if lines == [] || !("- " <= lines[0]) then [] else [Strip(lines[0][2..])] + Items(lines[1..])
  }

  function Rels(text: string): seq<string> {
    var at := LastAt(text, MARK, |text|);
    if at.None? then []
    else
      var lines := Lines(text[at.value + |MARK|..], "");
      if lines == [] then [] else Items(lines[1..])
  }

  method AttachmentRels(text: string) returns (rels: seq<string>)
    ensures rels == Rels(text)
  {
    var at := LastAt(text, MARK, |text|);
    if at.None? {
      return [];
    }
    var lines := Lines(text[at.value + |MARK|..], "");
    rels := [];
    var i := 1;
    while i < |lines|
      invariant lines != [] ==> 1 <= i <= |lines| && rels + Items(lines[i..]) == Items(lines[1..])
      invariant lines == [] ==> rels == []
    {
      if !("- " <= lines[i]) {
        break;
      }
      assert lines[i..][1..] == lines[i + 1..];
      rels := rels + [Strip(lines[i][2..])];
      i := i + 1;
    }
  }

  /** What a path must be for its line to say it and nothing else. */
  ghost predicate Clean(path: string) {
    Strip(path) == path && OneLine(path) && !Contains(path, MARK)
  }

  /** The sentence in the note: one line, without the bracket the marker begins with. */
  predicate Sentence(how: string) {
    OneLine(how) && '[' !in how
  }

  // ---------------------------------------------------------------------- printing then reading

  lemma {:induction false} LinesBefore(s: string, rest: string, line: string)
    requires OneLine(s)
    ensures Lines(s + "\n" + rest, line) == [line + s] + Lines(rest, "")
  {
    var all := s + "\n" + rest;
    if s == "" {
      assert all[0] == '\n' && all[1..] == rest && line + s == line;
    } else {
      assert all[0] == s[0] && all[1..] == s[1..] + "\n" + rest;
      assert line + [s[0]] + s[1..] == line + s;
      LinesBefore(s[1..], rest, line + [s[0]]);
    }
  }

  lemma {:induction false} LinesEnd(s: string, line: string)
    requires OneLine(s)
    ensures Lines(s, line) == if line + s == "" then [] else [line + s]
  {
    if s == "" {
      assert line + s == line;
    } else {
      assert line + [s[0]] + s[1..] == line + s;
      LinesEnd(s[1..], line + [s[0]]);
    }
  }

  lemma {:induction false} ListItems(paths: seq<string>)
    requires paths != [] && forall p :: p in paths ==> Clean(p)
    ensures Items(Lines(List(paths), "")) == paths
  {
    var p, item := paths[0], "- " + paths[0];
    assert p in paths;
    ItemReads(p);
    if |paths| == 1 {
      LinesEnd(item, "");
      assert "" + item == item && [item][1..] == [];
    } else {
      var rest := Lines(List(paths[1..]), "");
      LinesBefore(item, List(paths[1..]), "");
      assert List(paths) == item + "\n" + List(paths[1..]) && "" + item == item;
      ListItems(paths[1..]);
      assert ([item] + rest)[1..] == rest && ([item] + rest)[0] == item;
    }
  }

  lemma ItemReads(p: string)
    requires Clean(p)
    ensures "- " <= "- " + p && Strip(("- " + p)[2..]) == p && OneLine("- " + p)
  {
    assert ("- " + p)[2..] == p;
  }

  lemma MarkIs()
    ensures |MARK| == 16 && MARK[0] == '[' && forall k :: 0 < k < 16 ==> MARK[k] != '[' && MARK[k] != '\n'
  {
  }

  /** One character that is not the marker's is enough. */
  lemma NotAt(s: string, i: nat, k: nat)
    requires i + k < |s| && k < 16 && s[i + k] != MARK[k]
    ensures !At(s, MARK, i)
  {
    assert s[i..][k] == s[i + k];
  }

  lemma AtInside(a: string, p: string, b: string, i: nat)
    requires |a| <= i && i + 16 <= |a| + |p|
    ensures At(a + p + b, MARK, i) <==> At(p, MARK, i - |a|)
  {
    var s := a + p + b;
    assert s[i..][..16] == p[i - |a|..][..16];
    assert At(s, MARK, i) <==> s[i..][..16] == MARK;
    assert At(p, MARK, i - |a|) <==> p[i - |a|..][..16] == MARK;
  }

  /** The marker stands nowhere in the list of paths that do not hold it. */
  lemma {:induction false} ListUnmarked(paths: seq<string>, i: nat)
    requires paths != [] && forall p :: p in paths ==> !Contains(p, MARK)
    ensures !At(List(paths), MARK, i)
  {
    var p, all := paths[0], List(paths);
    assert p in paths;
    MarkIs();
    var tail := if |paths| == 1 then "" else "\n" + List(paths[1..]);
    assert all == "- " + p + tail;
    if i < 2 {
      NotAt(all, i, 0);
    } else if i + 16 <= 2 + |p| {
      AtInside("- ", p, tail, i);
    } else if i <= 2 + |p| < |all| {
      NotAt(all, i, 2 + |p| - i);
    } else if 2 + |p| < i <= |all| {
      assert all[i..] == List(paths[1..])[i - 3 - |p|..];
      ListUnmarked(paths[1..], i - 3 - |p|);
    }
  }

  /** The last place of the marker: nothing after it is one. */
  lemma LastIs(s: string, i: nat)
    requires i <= |s| && At(s, MARK, i) && forall k: nat :: i < k <= |s| ==> !At(s, MARK, k)
    ensures LastAt(s, MARK, |s|) == Some(i)
  {
  }

  /** In a text that ends with a note, the last marker is the note's own. */
  lemma NoteIsLast(text: string, paths: seq<string>, how: string)
    requires paths != [] && Sentence(how) && forall p :: p in paths ==> !Contains(p, MARK)
    ensures LastAt(text + Note(paths, how), MARK, |text + Note(paths, how)|) == Some(|text| + 2)
  {
    var all, block := text + Note(paths, how), MARK + how + "]\n" + List(paths);
    var before := text + "\n\n";
    MarkIs();
    assert "\n\n" + MARK + how + "]\n" + List(paths) == "\n\n" + block;
    assert all == before + block;
    assert all[|before|..] == block && block[..16] == MARK;
    forall k: nat | |before| < k <= |all| ensures !At(all, MARK, k) {
      assert all[k..] == block[k - |before|..];
      BlockOnce(paths, how, k - |before|);
    }
    LastIs(all, |before|);
  }

  lemma BlockOnce(paths: seq<string>, how: string, n: nat)
    requires paths != [] && Sentence(how) && forall p :: p in paths ==> !Contains(p, MARK)
    requires 0 < n <= |MARK + how + "]\n" + List(paths)|
    ensures !At(MARK + how + "]\n" + List(paths), MARK, n)
  {
    var head, list := MARK + how + "]\n", List(paths);
    MarkIs();
    if n < |head| {
      HeadUnmarked(how, n);
      assert (head + list)[n..] != "" && (head + list)[n..][0] == head[n];
    } else {
      assert (head + list)[n..] == list[n - |head|..];
      ListUnmarked(paths, n - |head|);
    }
  }

  lemma HeadUnmarked(how: string, n: nat)
    requires Sentence(how) && 0 < n < |MARK + how + "]\n"|
    ensures (MARK + how + "]\n")[n] != '['
  {
    MarkIs();
    if 16 <= n < 16 + |how| {
      assert how[n - 16] in how;
    }
  }

  lemma Parts(a: string, b: string, c: string, d: string)
    ensures (a + (b + c + d))[|a| + |b| + |c|..] == d
  {
  }

  /** A note of clean paths is read back as it was written, whatever text it follows. */
  lemma RoundTrip(text: string, paths: seq<string>, how: string)
    requires paths != [] && Sentence(how) && forall p :: p in paths ==> Clean(p)
    ensures Rels(text + Note(paths, how)) == paths
  {
    NoteIsLast(text, paths, how);
    NoteTail(text, paths, how);
    BlockReads(paths, how + "]");
  }

  lemma NoteTail(text: string, paths: seq<string>, how: string)
    requires paths != []
    ensures (text + Note(paths, how))[|text| + 2 + |MARK|..] == how + "]" + "\n" + List(paths)
  {
    var tail := how + "]" + "\n" + List(paths);
    assert "\n\n" + MARK + how + "]\n" + List(paths) == "\n\n" + MARK + tail;
    Parts(text, "\n\n", MARK, tail);
  }

  lemma BlockReads(paths: seq<string>, head: string)
    requires paths != [] && OneLine(head) && forall p :: p in paths ==> Clean(p)
    ensures
      var lines := Lines(head + "\n" + List(paths), "");
      lines != [] && Items(lines[1..]) == paths
  {
    LinesBefore(head, List(paths), "");
    var rest := Lines(List(paths), "");
    assert ([head] + rest)[1..] == rest;
    ListItems(paths);
  }

  // ---------------------------------------------------------------------- what is read is clean

  /** `x` stands in `s` as a whole. */
  ghost predicate Within(x: string, s: string) {
    exists a, b :: s == a + x + b
  }

  lemma ContainsWithin(x: string, s: string, m: string)
    requires Contains(x, m) && Within(x, s)
    ensures Contains(s, m)
  {
    var i: nat :| At(x, m, i);
    var a, b :| s == a + x + b;
    assert s[|a| + i..] == x[i..] + b;
    assert At(s, m, |a| + i);
  }

  lemma WithinAgain(x: string, y: string, z: string)
    requires Within(x, y) && Within(y, z)
    ensures Within(x, z)
  {
    var a, b :| y == a + x + b;
    var c, d :| z == c + y + d;
    assert z == (c + a) + x + (b + d);
  }

  lemma OneLineWithin(x: string, s: string)
    requires Within(x, s) && OneLine(s)
    ensures OneLine(x)
  {
    var a, b :| s == a + x + b;
    assert forall k :: 0 <= k < |x| ==> x[k] == s[|a| + k];
  }

  lemma StripWithin(s: string)
    ensures Within(Strip(s), s)
    ensures Strip(Strip(s)) == Strip(s)
  {
    var a := StartCut(s);
    var b := EndCut(StripStart(s));
    assert s == a + Strip(s) + b;
    var r := Strip(s);
    if r != "" {
      StartCut'(StripStart(s), r);
      assert StripStart(r) == r && StripEnd(r) == r;
    }
  }

  lemma {:induction false} StartCut(s: string) returns (a: string)
    ensures s == a + StripStart(s)
  {
    a := "";
    if s != "" && IsPySpace(s[0]) {
      var rest := StartCut(s[1..]);
      a := [s[0]] + rest;
      assert s == [s[0]] + s[1..];
    }
  }

  lemma {:induction false} EndCut(s: string) returns (b: string)
    ensures s == StripEnd(s) + b
  {
    b := "";
    if s != "" && IsPySpace(s[|s| - 1]) {
      var rest := EndCut(s[..|s| - 1]);
      b := rest + [s[|s| - 1]];
      assert s == s[..|s| - 1] + [s[|s| - 1]];
    }
  }

  lemma StartCut'(s: string, r: string)
    requires r != "" && r == StripEnd(s) && (s != "" ==> !IsPySpace(s[0]))
    ensures !IsPySpace(r[0])
  {
    var b := EndCut(s);
    assert s[0] == r[0];
  }

  /** A line break and what it takes up. */
  function BreakLength(s: string): nat
    requires s != "" && IsBreak(s[0])
    ensures 0 < BreakLength(s) <= |s|
  {
    if s[0] == '\r' && |s| > 1 && s[1] == '\n' then 2 else 1
  }

  lemma {:induction false} LinesOneLine(s: string, line: string)
    requires OneLine(line)
    ensures forall x :: x in Lines(s, line) ==> OneLine(x)
    decreases |s|
  {
    if s != "" {
      if IsBreak(s[0]) {
        LinesOneLine(s[BreakLength(s)..], "");
      } else {
        LinesOneLine(s[1..], line + [s[0]]);
      }
    }
  }

  lemma EndsWithin(line: string, s: string, n: nat)
    requires n <= |s|
    ensures Within(line, line + s) && Within(s[n..], line + s)
  {
    assert line + s == "" + line + s;
    assert line + s == (line + s[..n]) + s[n..] + "";
  }

  lemma {:induction false} LinesWithin(s: string, line: string)
    ensures forall x :: x in Lines(s, line) ==> Within(x, line + s)
    decreases |s|
  {
    if s == "" {
      EndsWithin(line, s, 0);
    } else if !IsBreak(s[0]) {
      LinesWithin(s[1..], line + [s[0]]);
      assert line + [s[0]] + s[1..] == line + s;
    } else {
      var rest := s[BreakLength(s)..];
      LinesWithin(rest, "");
      assert "" + rest == rest;
      EndsWithin(line, s, BreakLength(s));
      forall x | x in Lines(rest, "") ensures Within(x, line + s) {
        WithinAgain(x, rest, line + s);
      }
    }
  }

  lemma {:induction false} ItemsClean(lines: seq<string>, block: string)
    requires forall x :: x in lines ==> OneLine(x) && Within(x, block)
    requires !Contains(block, MARK)
    ensures forall p :: p in Items(lines) ==> Clean(p)
  {
    if lines != [] && "- " <= lines[0] {
      var x := lines[0];
      assert x in lines;
      ItemClean(x, block);
      ItemsClean(lines[1..], block);
    }
  }

  lemma ItemClean(x: string, block: string)
    requires OneLine(x) && Within(x, block) && !Contains(block, MARK) && |x| >= 2
    ensures Clean(Strip(x[2..]))
  {
    var r := Strip(x[2..]);
    StripWithin(x[2..]);
    assert x == x[..2] + x[2..] + "";
    WithinAgain(r, x[2..], x);
    OneLineWithin(r, x);
    if Contains(r, MARK) {
      ContainsWithin(r, x, MARK);
      ContainsWithin(x, block, MARK);
    }
  }

  /** Every path that is read, from any text at all, is clean. */
  lemma ReadIsClean(text: string)
    ensures forall p :: p in Rels(text) ==> Clean(p)
  {
    var at := LastAt(text, MARK, |text|);
    if at.Some? {
      var block := text[at.value + |MARK|..];
      BlockUnmarked(text, at.value);
      LinesOneLine(block, "");
      LinesWithin(block, "");
      assert "" + block == block;
      var lines := Lines(block, "");
      if lines != [] {
        ItemsClean(lines[1..], block);
      }
    }
  }

  lemma {:induction false} BlockUnmarked(text: string, i: nat)
    requires LastAt(text, MARK, |text|) == Some(i)
    ensures !Contains(text[i + |MARK|..], MARK)
  {
    var block := text[i + |MARK|..];
    if k: nat :| At(block, MARK, k) {
      assert block[k..] == text[i + |MARK| + k..];
      assert At(text, MARK, i + |MARK| + k);
    }
  }

  /** The note is read back as it was written exactly when each of its paths is without white space
      at its ends, on one line, and without the marker. */
  lemma RoundTripIff(text: string, paths: seq<string>, how: string)
    requires paths != [] && Sentence(how)
    ensures Rels(text + Note(paths, how)) == paths <==> forall p :: p in paths ==> Clean(p)
  {
    if forall p :: p in paths ==> Clean(p) {
      RoundTrip(text, paths, how);
    }
    ReadIsClean(text + Note(paths, how));
  }
}
