/** The per-file transformation of the example generator: the lines of a C
    example file become a Markdown document. Comment lines become prose,
    every other line goes into a fenced C code block, and one flag records
    whether a block is open. Reading the file, testing whether a PNG of the
    same name exists and writing the result are left to the caller: the
    lines, the file stem and that test's answer are the inputs. */
module Generate {
  import opened Wrappers

  // Python string operations, as the generator uses them.

  /** Python's `str.isspace` for one character. */
  predicate IsSpace(c: char) {
    || c == ' '
    || ('\t' <= c <= '\r')
    || ('\U{1C}' <= c <= '\U{1F}')
    || c == '\U{85}' || c == '\U{A0}' || c == '\U{1680}'
    || ('\U{2000}' <= c <= '\U{200A}')
    || c == '\U{2028}' || c == '\U{2029}' || c == '\U{202F}' || c == '\U{205F}' || c == '\U{3000}'
  }

  /** `s.lstrip()`: the longest suffix of s that does not start with whitespace. */
  function LStrip(s: string): (r: string)
    ensures |r| <= |s|
    ensures r == [] || !IsSpace(r[0])
    decreases |s|
  {
    if |s| > 0 && IsSpace(s[0]) then LStrip(s[1..]) else s
  }

  lemma LStripKeeps(s: string)
    requires |s| > 0 && s[0] == TAG[0]
    ensures LStrip(s) == s
  {
  }

  /** `lstrip` keeps a suffix and what it removes is whitespace. */
  lemma {:induction false} LStripDropsSpace(s: string)
    ensures LStrip(s) == s[|s| - |LStrip(s)|..]
    ensures forall i | 0 <= i < |s| - |LStrip(s)| :: IsSpace(s[i])
    decreases |s|
  {
    if |s| > 0 && IsSpace(s[0]) {
      LStripDropsSpace(s[1..]);
      forall i | 1 <= i < |s| - |LStrip(s)| ensures IsSpace(s[i]) {
        assert s[i] == s[1..][i - 1];
      }
    }
  }

  /** `s.rstrip()`: the longest prefix of s that does not end with whitespace. */
  function RStrip(s: string): (r: string)
    ensures |r| <= |s|
    ensures r == [] || !IsSpace(r[|r| - 1])
    decreases |s|
  {
    if |s| > 0 && IsSpace(s[|s| - 1]) then RStrip(s[..|s| - 1]) else s
  }

  /** `rstrip` keeps a prefix and what it removes is whitespace. */
  lemma {:induction false} RStripDropsSpace(s: string)
    ensures RStrip(s) == s[..|RStrip(s)|]
    ensures forall i | |RStrip(s)| <= i < |s| :: IsSpace(s[i])
    decreases |s|
  {
    if |s| > 0 && IsSpace(s[|s| - 1]) {
      RStripDropsSpace(s[..|s| - 1]);
      forall i | |RStrip(s)| <= i < |s| - 1 ensures IsSpace(s[i]) {
        assert s[i] == s[..|s| - 1][i];
      }
    }
  }

  /** `s.strip()`. */
  function Strip(s: string): string {
    RStrip(LStrip(s))
  }

  /** `s.startswith(p)`. */
  predicate StartsWith(s: string, p: string) {
    |p| <= |s| && s[..|p|] == p
  }

  predicate EndsWith(s: string, p: string) {
    |p| <= |s| && s[|s| - |p|..] == p
  }

  lemma Associative(a: string, b: string, c: string)
    ensures a + (b + c) == a + b + c
  {
  }

  lemma StartsWithAppend(a: string, b: string)
    ensures StartsWith(a + b, a)
  {
    assert (a + b)[..|a|] == a;
  }

  lemma EndsWithAppend(a: string, b: string)
    ensures EndsWith(a + b, b)
  {
    assert (a + b)[|a|..] == b;
  }

  lemma StartsWithTrans(s: string, t: string, p: string)
    requires StartsWith(s, t) && StartsWith(t, p)
    ensures StartsWith(s, p)
  {
    assert s[..|p|] == s[..|t|][..|p|];
  }

  lemma StartsWithSplit(s: string, p: string, q: string)
    ensures StartsWith(s, p + q) <==> StartsWith(s, p) && StartsWith(s[|p|..], q)
  {
    if StartsWith(s, p + q) {
      assert s[..|p|] == (p + q)[..|p|];
      assert s[|p|..][..|q|] == (p + q)[|p|..];
    }
    if StartsWith(s, p) && StartsWith(s[|p|..], q) {
      assert s[..|p| + |q|] == s[..|p|] + s[|p|..][..|q|];
    }
  }

  lemma StartsWithFirst(s: string, p: string)
    requires StartsWith(s, p) && |p| > 0
    ensures s[0] == p[0]
  {
    assert s[0] == s[..|p|][0];
  }

  /** A string stripped on both sides is empty exactly when it is all whitespace. */
  lemma StripEmptyIffBlank(s: string)
    ensures Strip(s) == [] <==> forall i | 0 <= i < |s| :: IsSpace(s[i])
  {
    var l := LStrip(s);
    var r := RStrip(l);
    LStripDropsSpace(s);
    RStripDropsSpace(l);
    if l != [] {
      assert l[0] == s[|s| - |l|];
    }
  }

  // The document as a sequence of writes.

  /** The marker the first line must start with, once stripped. */
  const MARKER: string := "//" + TAG

  /** What the marker says after the comment leader. */
  const TAG: string := "genexample"

  /** One `out.write` of the generator. */
  datatype Chunk =
    | Title(stem: string)           // "# <stem>\n"
    | Screenshot(path: string)      // "![Example Screenshot](<path>)\n\n"
    | Prose(text: string)           // the text of a comment line
    | OpenFence                     // "```c\n"
    | CloseFence(blankAfter: bool)  // "```\n\n" inside the loop, "```\n" after it
    | CodeLine(line: string)        // a source line, copied verbatim
    | BlankLine                     // "\n"
    | Footer(name: string)          // "###### Automatically generated from [<name>](<name>)\n"

  function Text(c: Chunk): string {
    match c
    case Title(stem) => "# " + stem + "\n"
    case Screenshot(path) => "![Example Screenshot](" + path + ")\n\n"
    case Prose(t) => t
    case OpenFence => "```c\n"
    case CloseFence(blankAfter) => if blankAfter then "```\n\n" else "```\n"
    case CodeLine(line) => line
    case BlankLine => "\n"
    case Footer(name) => "###### Automatically generated from [" + name + "](" + name + ")\n"
  }

  /** The characters a sequence of writes puts in the file. */
  function Render(cs: seq<Chunk>): string
    decreases |cs|
  {
    if |cs| == 0 then "" else Render(cs[..|cs| - 1]) + Text(cs[|cs| - 1])
  }

  /** A line whose left-stripped form starts with `//`. */
  predicate IsComment(line: string) {
    StartsWith(LStrip(line), "//")
  }

  /** One iteration of the loop over the lines: the new value of
      `in_code_block` and what the iteration writes. */
  function Step(inCodeBlock: bool, line: string): (bool, seq<Chunk>) {
    var s := LStrip(line);
    if StartsWith(s, "//") then
      (false, (if inCodeBlock then [CloseFence(true)] else []) + [Prose(LStrip(s[2..]))])
    else
      (true, (if inCodeBlock then [] else [OpenFence]) + (if Strip(line) != "" then [CodeLine(line)] else []))
  }

  /** The loop over `lines`, from `in_code_block = False`. */
  function Scan(lines: seq<string>): (bool, seq<Chunk>)
    decreases |lines|
  {
    if |lines| == 0 then (false, [])
    else
      var prev := Scan(lines[..|lines| - 1]);
      var next := Step(prev.0, lines[|lines| - 1]);
      (next.0, prev.1 + next.1)
  }

  function ImagePath(stem: string): string { stem + ".png" }

  function SourceName(stem: string): string { stem + ".c" }

  /** The writes for one example file, or None when its first line does not
      carry the marker and no document is produced. */
  function Document(lines: seq<string>, stem: string, pngExists: bool): (r: Option<seq<Chunk>>)
    requires |lines| > 0
    ensures r.None? <==> !StartsWith(Strip(lines[0]), MARKER)
  {
    if !StartsWith(Strip(lines[0]), MARKER) then None
    else
      var body := Scan(lines);
      Some([Title(stem)]
           + (if pngExists then [Screenshot(ImagePath(stem))] else [])
           + body.1
           + (if body.0 then [CloseFence(false)] else [])
           + [BlankLine, Footer(SourceName(stem))])
  }

  /** The text of the Markdown file for one example, if any. */
  function Markdown(lines: seq<string>, stem: string, pngExists: bool): Option<string>
    requires |lines| > 0
  {
    match Document(lines, stem, pngExists)
    case None => None
    case Some(cs) => Some(Render(cs))
  }

  // Rendering distributes over concatenation.

  lemma {:induction false} RenderAppend(a: seq<Chunk>, b: seq<Chunk>)
    ensures Render(a + b) == Render(a) + Render(b)
    decreases |b|
  {
    if |b| > 0 {
      var b' := b[..|b| - 1];
      assert (a + b)[..|a + b| - 1] == a + b';
      RenderAppend(a, b');
    } else {
      assert a + b == a;
    }
  }

  lemma RenderOne(c: Chunk)
    ensures Render([c]) == Text(c)
  {
    assert [c][..0] == [];
  }

  lemma RenderTwo(c: Chunk, d: Chunk)
    ensures Render([c, d]) == Text(c) + Text(d)
  {
    assert [c, d][..1] == [c];
    RenderOne(c);
  }

  lemma ScanLast(lines: seq<string>, line: string)
    ensures Scan(lines + [line]).0 == Step(Scan(lines).0, line).0
    ensures Scan(lines + [line]).1 == Scan(lines).1 + Step(Scan(lines).0, line).1
  {
    assert (lines + [line])[..|lines|] == lines;
  }

  /** The loop's output after one more line is its output before it
      followed by what that line's iteration writes. */
  lemma ScanRender(lines: seq<string>, line: string)
    ensures Scan(lines + [line]).0 == Step(Scan(lines).0, line).0
    ensures Render(Scan(lines + [line]).1) == Render(Scan(lines).1) + Render(Step(Scan(lines).0, line).1)
  {
    ScanLast(lines, line);
    RenderAppend(Scan(lines).1, Step(Scan(lines).0, line).1);
  }

  lemma StepComment(open: bool, line: string)
    requires IsComment(line)
    ensures !Step(open, line).0
    ensures Render(Step(open, line).1) == (if open then "```\n\n" else "") + LStrip(LStrip(line)[2..])
  {
    var t := LStrip(LStrip(line)[2..]);
    if open {
      RenderTwo(CloseFence(true), Prose(t));
    } else {
      RenderOne(Prose(t));
    }
  }

  lemma StepCode(open: bool, line: string)
    requires !IsComment(line)
    ensures Step(open, line).0
    ensures Render(Step(open, line).1)
         == (if open then "" else "```c\n") + (if Strip(line) != "" then line else "")
  {
    var fence: seq<Chunk> := if open then [] else [OpenFence];
    var code: seq<Chunk> := if Strip(line) != "" then [CodeLine(line)] else [];
    assert Step(open, line).1 == fence + code;
    RenderAppend(fence, code);
    if !open { RenderOne(OpenFence); }
    if Strip(line) != "" { RenderOne(CodeLine(line)); }
  }

  /** What the loop writes for a comment line: a closing fence and a blank
      line if a block was open, then the text after `//`, left-stripped;
      afterwards no block is open. */
  lemma CommentLineOutput(lines: seq<string>, line: string)
    requires IsComment(line)
    ensures !Scan(lines + [line]).0
    ensures Render(Scan(lines + [line]).1)
         == Render(Scan(lines).1) + (if Scan(lines).0 then "```\n\n" else "") + LStrip(LStrip(line)[2..])
  {
    var prev := Scan(lines);
    var fence := if prev.0 then "```\n\n" else "";
    var t := LStrip(LStrip(line)[2..]);
    ScanRender(lines, line);
    StepComment(prev.0, line);
    Associative(Render(prev.1), fence, t);
  }

  /** A comment that is only `//` and whitespace writes nothing when no
      block is open. */
  lemma BlankCommentSilent(lines: seq<string>, line: string)
    requires IsComment(line) && !Scan(lines).0
    requires forall i | 2 <= i < |LStrip(line)| :: IsSpace(LStrip(line)[i])
    ensures Render(Scan(lines + [line]).1) == Render(Scan(lines).1)
  {
    CommentLineOutput(lines, line);
    var t := LStrip(LStrip(line)[2..]);
    LStripDropsSpace(LStrip(line)[2..]);
    assert t == [];
    assert Render(Scan(lines).1) + "" + t == Render(Scan(lines).1);
  }

  /** What the loop writes for any other line: an opening fence if no block
      was open, then the line itself unless it is blank; afterwards a block
      is open. */
  lemma CodeLineOutput(lines: seq<string>, line: string)
    requires !IsComment(line)
    ensures Scan(lines + [line]).0
    ensures Render(Scan(lines + [line]).1)
         == Render(Scan(lines).1) + (if Scan(lines).0 then "" else "```c\n")
            + (if Strip(line) != "" then line else "")
  {
    var prev := Scan(lines);
    var fence := if prev.0 then "" else "```c\n";
    var code := if Strip(line) != "" then line else "";
    ScanRender(lines, line);
    StepCode(prev.0, line);
    Associative(Render(prev.1), fence, code);
  }

  // Fences are balanced.

  /** Where a write may appear: code and closing fences only inside a block,
      opening fences and everything else only outside. The result is whether
      a block is open afterwards, or None on a misplaced write. */
  function Move(open: bool, c: Chunk): Option<bool> {
    match c
    case OpenFence => if open then None else Some(true)
    case CloseFence(_) => if open then Some(false) else None
    case CodeLine(_) => if open then Some(true) else None
    case _ => if open then None else Some(false)
  }

  function Walk(open: bool, cs: seq<Chunk>): Option<bool>
    decreases |cs|
  {
    if |cs| == 0 then Some(open)
    else
      match Walk(open, cs[..|cs| - 1])
      case None => None
      case Some(o) => Move(o, cs[|cs| - 1])
  }

  /** Every write is in its place and no block is left open. */
  predicate WellFenced(cs: seq<Chunk>) {
    Walk(false, cs) == Some(false)
  }

  lemma {:induction false} WalkAppend(open: bool, a: seq<Chunk>, b: seq<Chunk>)
    ensures Walk(open, a + b) == match Walk(open, a) case None => None case Some(o) => Walk(o, b)
    decreases |b|
  {
    if |b| > 0 {
      var b' := b[..|b| - 1];
      assert (a + b)[..|a + b| - 1] == a + b';
      WalkAppend(open, a, b');
    } else {
      assert a + b == a;
    }
  }

  lemma WalkOne(open: bool, c: Chunk)
    ensures Walk(open, [c]) == Move(open, c)
  {
    assert [c][..0] == [];
  }

  lemma WalkTwo(open: bool, c: Chunk, d: Chunk)
    ensures Walk(open, [c, d]) == match Move(open, c) case None => None case Some(o) => Move(o, d)
  {
    assert [c, d][..1] == [c];
    WalkOne(open, c);
  }

  /** One iteration keeps every write in its place, and its flag says
      whether a block is open afterwards. */
  lemma StepWalks(open: bool, line: string)
    ensures Walk(open, Step(open, line).1) == Some(Step(open, line).0)
  {
    var s := LStrip(line);
    if StartsWith(s, "//") {
      if open { WalkTwo(true, CloseFence(true), Prose(LStrip(s[2..]))); }
      else { WalkOne(false, Prose(LStrip(s[2..]))); }
    } else {
      var fence: seq<Chunk> := if open then [] else [OpenFence];
      var code: seq<Chunk> := if Strip(line) != "" then [CodeLine(line)] else [];
      assert Step(open, line).1 == fence + code;
      WalkAppend(open, fence, code);
      if !open { WalkOne(false, OpenFence); }
      if Strip(line) != "" { WalkOne(true, CodeLine(line)); }
    }
  }

  /** The loop keeps every write in its place, and its flag is whether a
      block is open. */
  lemma {:induction false} ScanWalks(lines: seq<string>)
    ensures Walk(false, Scan(lines).1) == Some(Scan(lines).0)
    decreases |lines|
  {
    if |lines| > 0 {
      var init := lines[..|lines| - 1];
      var line := lines[|lines| - 1];
      ScanWalks(init);
      WalkAppend(false, Scan(init).1, Step(Scan(init).0, line).1);
      StepWalks(Scan(init).0, line);
    }
  }

  /** After the loop and the final close, every fence is balanced and every
      write is in its place. */
  lemma DocumentWellFenced(lines: seq<string>, stem: string, pngExists: bool)
    requires |lines| > 0 && Document(lines, stem, pngExists).Some?
    ensures WellFenced(Document(lines, stem, pngExists).value)
  {
    var body := Scan(lines);
    var head: seq<Chunk> := [Title(stem)] + (if pngExists then [Screenshot(ImagePath(stem))] else []);
    var close: seq<Chunk> := if body.0 then [CloseFence(false)] else [];
    var tail: seq<Chunk> := [BlankLine, Footer(SourceName(stem))];
    assert Document(lines, stem, pngExists).value == head + body.1 + close + tail;
    if pngExists { WalkTwo(false, Title(stem), Screenshot(ImagePath(stem))); }
    else { WalkOne(false, Title(stem)); }
    ScanWalks(lines);
    WalkAppend(false, head, body.1);
    if body.0 { WalkOne(true, CloseFence(false)); }
    WalkAppend(false, head + body.1, close);
    WalkTwo(false, BlankLine, Footer(SourceName(stem)));
    WalkAppend(false, head + body.1 + close, tail);
  }

  /** In a well-fenced sequence every opening fence is followed, later on,
      by a closing fence. */
  lemma OpenFenceIsClosed(cs: seq<Chunk>, i: nat)
    requires WellFenced(cs) && i < |cs| && cs[i] == OpenFence
    ensures exists j :: i < j < |cs| && cs[j].CloseFence?
  {
    WalkAppend(false, cs[..i], cs[i..]);
    assert cs[..i] + cs[i..] == cs;
    var o := Walk(false, cs[..i]);
    assert o == Some(false) by {
      if o == Some(true) {
        assert cs[i..] == [cs[i]] + cs[i + 1..];
        WalkAppend(true, [cs[i]], cs[i + 1..]);
        WalkOne(true, cs[i]);
      }
    }
    if forall j | i < j < |cs| :: !cs[j].CloseFence? {
      StaysOpen(cs, i + 1);
      assert cs[..i + 1] == cs[..i] + [cs[i]];
      WalkAppend(false, cs[..i], [cs[i]]);
      WalkOne(false, cs[i]);
    }
  }

  /** Without a closing fence, an open block stays open (or the sequence
      goes wrong). */
  lemma {:induction false} StaysOpen(cs: seq<Chunk>, k: nat)
    requires k <= |cs|
    requires forall j | k <= j < |cs| :: !cs[j].CloseFence?
    ensures Walk(false, cs[..k]) == Some(true) ==> Walk(false, cs) != Some(false)
    decreases |cs| - k
  {
    if k < |cs| && Walk(false, cs[..k]) == Some(true) {
      assert cs[..k + 1][..k] == cs[..k];
      if Walk(false, cs[..k + 1]) == Some(true) {
        StaysOpen(cs, k + 1);
      } else {
        assert Walk(false, cs[..k + 1]) == None;
        NoneSticks(cs, k + 1);
      }
    } else if k == |cs| {
      assert cs[..k] == cs;
    }
  }

  lemma {:induction false} NoneSticks(cs: seq<Chunk>, k: nat)
    requires k <= |cs| && Walk(false, cs[..k]) == None
    ensures Walk(false, cs) == None
    decreases |cs| - k
  {
    if k < |cs| {
      assert cs[..k + 1][..k] == cs[..k];
      NoneSticks(cs, k + 1);
    } else {
      assert cs[..k] == cs;
    }
  }

  // The frame of the document: header, image line, marker text, footer.

  /** The writes of the first lines come first. */
  lemma {:induction false} ScanPrefix(lines: seq<string>, k: nat)
    requires k <= |lines|
    ensures StartsWith(Render(Scan(lines).1), Render(Scan(lines[..k]).1))
    decreases |lines| - k
  {
    if k == |lines| {
      assert lines[..k] == lines;
      var r := Render(Scan(lines).1);
      assert r[..|r|] == r;
    } else {
      assert lines[..k + 1] == lines[..k] + [lines[k]];
      ScanPrefix(lines, k + 1);
      ScanRender(lines[..k], lines[k]);
      StartsWithAppend(Render(Scan(lines[..k]).1), Render(Step(Scan(lines[..k]).0, lines[k]).1));
      StartsWithTrans(Render(Scan(lines).1), Render(Scan(lines[..k + 1]).1), Render(Scan(lines[..k]).1));
    }
  }

  /** The marker line is itself a comment: it is written as prose that
      starts with the marker's tag. */
  lemma MarkerLineComment(line: string)
    requires StartsWith(Strip(line), MARKER)
    ensures IsComment(line)
    ensures LStrip(LStrip(line)[2..]) == LStrip(line)[2..]
    ensures StartsWith(LStrip(line)[2..], TAG)
  {
    var l := LStrip(line);
    var st := Strip(line);
    RStripDropsSpace(l);
    assert l == st + l[|st|..];
    StartsWithAppend(st, l[|st|..]);
    StartsWithTrans(l, st, MARKER);
    StartsWithSplit(l, "//", TAG);
    var rest := l[2..];
    StartsWithFirst(rest, TAG);
    LStripKeeps(rest);
  }

  lemma MarkerLineProse(lines: seq<string>)
    requires |lines| > 0 && StartsWith(Strip(lines[0]), MARKER)
    ensures IsComment(lines[0])
    ensures StartsWith(Render(Scan(lines).1), TAG)
  {
    MarkerLineComment(lines[0]);
    var rest := LStrip(lines[0])[2..];
    CommentLineOutput([], lines[0]);
    TakeOneMore(lines, 0);
    assert lines[..0] == [];
    EmptyLeft(rest);
    ScanPrefix(lines, 1);
    StartsWithTrans(Render(Scan(lines).1), Render(Scan(lines[..1]).1), TAG);
  }

  function Header(stem: string): string { "# " + stem + "\n" }

  function ImageLine(stem: string): string { "![Example Screenshot](" + ImagePath(stem) + ")\n\n" }

  function FooterLine(stem: string): string {
    "###### Automatically generated from [" + SourceName(stem) + "](" + SourceName(stem) + ")\n"
  }

  /** What comes before the loop's output. */
  function HeadText(stem: string, pngExists: bool): string {
    Header(stem) + (if pngExists then ImageLine(stem) else "")
  }

  /** The fence that closes a block left open at the end of the file. */
  function CloseText(open: bool): string {
    if open then "```\n" else ""
  }

  /** The document is the header, the loop's output, the closing fence if
      a block is still open, a blank line and the footer. */
  lemma DocumentText(lines: seq<string>, stem: string, pngExists: bool)
    requires |lines| > 0 && StartsWith(Strip(lines[0]), MARKER)
    ensures Markdown(lines, stem, pngExists)
         == Some(HeadText(stem, pngExists) + Render(Scan(lines).1) + CloseText(Scan(lines).0)
                 + ("\n" + FooterLine(stem)))
  {
    var body := Scan(lines);
    var head: seq<Chunk> := [Title(stem)] + (if pngExists then [Screenshot(ImagePath(stem))] else []);
    var close: seq<Chunk> := if body.0 then [CloseFence(false)] else [];
    var tail: seq<Chunk> := [BlankLine, Footer(SourceName(stem))];
    assert Document(lines, stem, pngExists).value == head + body.1 + close + tail;
    RenderAppend(head + body.1 + close, tail);
    RenderAppend(head + body.1, close);
    RenderAppend(head, body.1);
    RenderTwo(BlankLine, Footer(SourceName(stem)));
    if pngExists {
      RenderTwo(Title(stem), Screenshot(ImagePath(stem)));
    } else {
      RenderOne(Title(stem));
      assert Header(stem) + "" == Header(stem);
    }
    if body.0 { RenderOne(CloseFence(false)); }
  }

  /** A document starts with the title, followed by the image line exactly
      when the PNG exists, then the marker's tag; it ends with a blank line
      and the footer. */
  lemma DocumentFrame(lines: seq<string>, stem: string, pngExists: bool)
    requires |lines| > 0 && StartsWith(Strip(lines[0]), MARKER)
    ensures Markdown(lines, stem, pngExists).Some?
    ensures StartsWith(Markdown(lines, stem, pngExists).value, Header(stem))
    ensures StartsWith(Markdown(lines, stem, pngExists).value, Header(stem) + ImageLine(stem)) <==> pngExists
    ensures StartsWith(Markdown(lines, stem, pngExists).value, HeadText(stem, pngExists) + TAG)
    ensures EndsWith(Markdown(lines, stem, pngExists).value, "\n" + FooterLine(stem))
  {
    DocumentText(lines, stem, pngExists);
    MarkerLineProse(lines);
    var h := HeadText(stem, pngExists);
    var r := Render(Scan(lines).1);
    var c := CloseText(Scan(lines).0);
    var t := "\n" + FooterLine(stem);
    var d := h + r + c + t;
    EndsWithAppend(h + r + c, t);
    StartsWithAppend(h + r + c, t);
    StartsWithAppend(h + r, c);
    StartsWithTrans(d, h + r + c, h + r);
    StartsWithSplit(d, h, r);
    StartsWithTrans(d[|h|..], r, TAG);
    StartsWithSplit(d, h, TAG);
    StartsWithSplit(d, Header(stem), if pngExists then ImageLine(stem) else "");
    StartsWithSplit(d, Header(stem), ImageLine(stem));
    if !pngExists {
      assert h == Header(stem) + "";
      assert h == Header(stem);
      StartsWithFirst(d[|h|..], TAG);
      assert ImageLine(stem)[0] == '!';
    }
  }

  lemma TakeOneMore(lines: seq<string>, i: nat)
    requires i < |lines|
    ensures lines[..i + 1] == lines[..i] + [lines[i]]
  {
  }

  lemma EmptyLeft(a: string)
    ensures "" + "" + a == a
  {
  }

  lemma EmptyRight(a: string)
    ensures a + "" == a
  {
  }

  lemma AppendPieces(h: string, r: string, f: string, t: string)
    ensures h + (r + f + t) == h + r + f + t
  {
  }

  /** The generator, as it runs over one file's lines. */
  method Generate(lines: seq<string>, stem: string, pngExists: bool) returns (doc: Option<string>)
    requires |lines| > 0
    ensures doc == Markdown(lines, stem, pngExists)
  {
    if !StartsWith(Strip(lines[0]), MARKER) {
      return None;
    }
    var out := Header(stem);
    if pngExists {
      out := out + ImageLine(stem);
    } else {
      EmptyRight(out);
    }
    ghost var head := out;
    var inCodeBlock := false;
    for i := 0 to |lines|
      invariant inCodeBlock == Scan(lines[..i]).0
      invariant out == head + Render(Scan(lines[..i]).1)
    {
      var line := lines[i];
      ghost var prefix := lines[..i];
      TakeOneMore(lines, i);
      ghost var r := Render(Scan(prefix).1);
      ghost var fence: string;
      ghost var text: string;
      var s := LStrip(line);
      if StartsWith(s, "//") {
        fence, text := if inCodeBlock then "```\n\n" else "", LStrip(s[2..]);
        CommentLineOutput(prefix, line);
        if inCodeBlock {
          out := out + "```\n\n";
          inCodeBlock := false;
        } else {
          EmptyRight(out);
        }
        out := out + LStrip(s[2..]);
      } else {
        fence, text := if inCodeBlock then "" else "```c\n", if Strip(line) != "" then line else "";
        CodeLineOutput(prefix, line);
        if !inCodeBlock {
          out := out + "```c\n";
          inCodeBlock := true;
        } else {
          EmptyRight(out);
        }
      }
      if inCodeBlock && Strip(line) != "" {
        out := out + line;
      } else if !StartsWith(s, "//") {
        EmptyRight(out);
      }
      AppendPieces(head, r, fence, text);
    }
    assert lines[..|lines|] == lines;
    DocumentText(lines, stem, pngExists);
    if inCodeBlock {
      out := out + "```\n";
    } else {
      EmptyRight(out);
    }
    Associative(out, "\n", FooterLine(stem));
    out := out + "\n";
    out := out + FooterLine(stem);
    return Some(out);
  }

  // Fences on lines of their own.

  predicate EndsLine(s: string) {
    |s| > 0 && s[|s| - 1] == '\n'
  }

  /** Writes that Markdown only recognises at the start of a line. */
  predicate NeedsLineStart(c: Chunk) {
    c.OpenFence? || c.CloseFence? || c.Footer?
  }

  /** Every fence and the footer start a line of the output. */
  predicate FencesStartLines(cs: seq<Chunk>) {
    forall i | 0 < i < |cs| && NeedsLineStart(cs[i]) :: EndsLine(Render(cs[..i]))
  }

  /** What `readlines` returns: every line but the last ends in a newline. */
  predicate ReadLines(lines: seq<string>) {
    forall j | 0 <= j < |lines| - 1 :: EndsLine(lines[j])
  }

  /** The corrected generator: a newline is written before the final fence
      when the output does not already end in one. */
  function DocumentFixed(lines: seq<string>, stem: string, pngExists: bool): (r: Option<seq<Chunk>>)
    requires |lines| > 0
    ensures r.None? <==> !StartsWith(Strip(lines[0]), MARKER)
  {
    if !StartsWith(Strip(lines[0]), MARKER) then None
    else
      var body := Scan(lines);
      var head: seq<Chunk> := [Title(stem)] + (if pngExists then [Screenshot(ImagePath(stem))] else []);
      Some(head + body.1 + FixedClose(head + body.1, body.0) + [BlankLine, Footer(SourceName(stem))])
  }

  /** The corrected final fence: a newline first if the output so far does
      not end in one. */
  function FixedClose(done: seq<Chunk>, open: bool): seq<Chunk> {
    if open then (if EndsLine(Render(done)) then [] else [BlankLine]) + [CloseFence(false)] else []
  }

  lemma Pair(c: Chunk, d: Chunk)
    ensures [c] + [d] == [c, d]
  {
  }

  lemma ChunksAssociative(a: seq<Chunk>, b: seq<Chunk>, c: seq<Chunk>)
    ensures a + (b + c) == a + b + c
  {
  }

  lemma SuffixLast(s: string, r: string)
    requires |r| <= |s| && r == s[|s| - |r|..] && |r| > 0
    ensures r[|r| - 1] == s[|s| - 1]
  {
  }

  lemma {:induction false} SnocStartsLines(cs: seq<Chunk>, c: Chunk)
    requires FencesStartLines(cs)
    requires NeedsLineStart(c) ==> EndsLine(Render(cs))
    ensures FencesStartLines(cs + [c])
    ensures Render(cs + [c]) == Render(cs) + Text(c)
  {
    var ds := cs + [c];
    assert ds[..|cs|] == cs;
    forall i | 0 < i < |ds| && NeedsLineStart(ds[i]) ensures EndsLine(Render(ds[..i])) {
      if i < |cs| {
        assert ds[..i] == cs[..i];
      }
    }
  }

  lemma LastOfAppend(a: string, b: string)
    requires |b| > 0
    ensures (a + b)[|a + b| - 1] == b[|b| - 1]
  {
  }

  lemma EndsWithLast(s: string, p: string)
    requires EndsWith(s, p) && |p| > 0
    ensures s[|s| - 1] == p[|p| - 1]
  {
    assert s[|s| - 1] == s[|s| - |p|..][|p| - 1];
  }

  /** The text kept from a comment line ends in that line's newline,
      unless nothing is kept. */
  lemma ProseKeepsNewline(line: string)
    requires IsComment(line) && EndsLine(line) && LStrip(LStrip(line)[2..]) != ""
    ensures EndsLine(LStrip(LStrip(line)[2..]))
  {
    var s := LStrip(line);
    var t := LStrip(s[2..]);
    LStripDropsSpace(s[2..]);
    LStripDropsSpace(line);
    SuffixLast(s[2..], t);
    SuffixLast(line, s);
  }

  lemma StepCommentStartsLines(cs: seq<Chunk>, open: bool, line: string)
    requires FencesStartLines(cs) && EndsLine(Render(cs)) && IsComment(line)
    ensures FencesStartLines(cs + Step(open, line).1)
    ensures EndsLine(line) ==> EndsLine(Render(cs + Step(open, line).1))
  {
    var t := LStrip(LStrip(line)[2..]);
    var first: seq<Chunk> := if open then [CloseFence(true)] else [];
    assert Step(open, line).1 == first + [Prose(t)];
    var cs1 := cs + first;
    if open {
      SnocStartsLines(cs, CloseFence(true));
      LastOfAppend(Render(cs), Text(CloseFence(true)));
    } else {
      assert cs1 == cs;
    }
    SnocStartsLines(cs1, Prose(t));
    ChunksAssociative(cs, first, [Prose(t)]);
    if t == "" {
      EmptyRight(Render(cs1));
    } else if EndsLine(line) {
      ProseKeepsNewline(line);
      LastOfAppend(Render(cs1), t);
    }
  }

  lemma StepCodeStartsLines(cs: seq<Chunk>, open: bool, line: string)
    requires FencesStartLines(cs) && EndsLine(Render(cs)) && !IsComment(line)
    ensures FencesStartLines(cs + Step(open, line).1)
    ensures EndsLine(line) ==> EndsLine(Render(cs + Step(open, line).1))
  {
    var first: seq<Chunk> := if open then [] else [OpenFence];
    var code: seq<Chunk> := if Strip(line) != "" then [CodeLine(line)] else [];
    var cs1 := cs + first;
    if open {
      assert cs1 == cs;
    } else {
      SnocStartsLines(cs, OpenFence);
      LastOfAppend(Render(cs), Text(OpenFence));
    }
    assert EndsLine(Render(cs1));
    if Strip(line) != "" {
      SnocStartsLines(cs1, CodeLine(line));
      if EndsLine(line) { LastOfAppend(Render(cs1), line); }
    } else {
      assert cs1 + code == cs1;
    }
    ChunksAssociative(cs, first, code);
  }

  /** One iteration keeps fences at line starts, and ends its output with a
      newline when its line has one. */
  lemma StepStartsLines(cs: seq<Chunk>, open: bool, line: string)
    requires FencesStartLines(cs) && EndsLine(Render(cs))
    ensures FencesStartLines(cs + Step(open, line).1)
    ensures EndsLine(line) ==> EndsLine(Render(cs + Step(open, line).1))
  {
    if IsComment(line) {
      StepCommentStartsLines(cs, open, line);
    } else {
      StepCodeStartsLines(cs, open, line);
    }
  }

  /** Over lines as `readlines` returns them, the loop keeps fences at line
      starts after any header that ends in a newline. */
  lemma {:induction false} ScanStartsLines(head: seq<Chunk>, lines: seq<string>)
    requires FencesStartLines(head) && EndsLine(Render(head))
    requires ReadLines(lines)
    ensures FencesStartLines(head + Scan(lines).1)
    ensures (|lines| == 0 || EndsLine(lines[|lines| - 1])) ==> EndsLine(Render(head + Scan(lines).1))
    decreases |lines|
  {
    if |lines| == 0 {
      assert head + Scan(lines).1 == head;
    } else {
      var init := lines[..|lines| - 1];
      var line := lines[|lines| - 1];
      assert ReadLines(init) by {
        forall j | 0 <= j < |init| - 1 ensures EndsLine(init[j]) {
          assert init[j] == lines[j];
        }
      }
      ScanStartsLines(head, init);
      if |init| > 0 {
        assert init[|init| - 1] == lines[|lines| - 2];
      }
      StepStartsLines(head + Scan(init).1, Scan(init).0, line);
      ChunksAssociative(head, Scan(init).1, Step(Scan(init).0, line).1);
    }
  }

  /** The header: title and image line, both ending in a newline. */
  lemma HeadStartsLines(stem: string, pngExists: bool)
    ensures FencesStartLines([Title(stem)] + (if pngExists then [Screenshot(ImagePath(stem))] else []))
    ensures EndsLine(Render([Title(stem)] + (if pngExists then [Screenshot(ImagePath(stem))] else [])))
  {
    RenderOne(Title(stem));
    if pngExists {
      assert [Title(stem)] + [Screenshot(ImagePath(stem))] == [Title(stem), Screenshot(ImagePath(stem))];
      RenderTwo(Title(stem), Screenshot(ImagePath(stem)));
    } else {
      assert [Title(stem)] + [] == [Title(stem)];
    }
  }

  lemma CloseStartsLines(x: seq<Chunk>, open: bool)
    requires FencesStartLines(x)
    ensures FencesStartLines(x + FixedClose(x, open))
  {
    if open {
      var pad: seq<Chunk> := if EndsLine(Render(x)) then [] else [BlankLine];
      var x1 := x + pad;
      if pad != [] {
        SnocStartsLines(x, BlankLine);
        LastOfAppend(Render(x), "\n");
      } else {
        assert x1 == x;
      }
      SnocStartsLines(x1, CloseFence(false));
      ChunksAssociative(x, pad, [CloseFence(false)]);
    } else {
      assert x + FixedClose(x, open) == x;
    }
  }

  lemma TailStartsLines(y: seq<Chunk>, name: string)
    requires FencesStartLines(y)
    ensures FencesStartLines(y + [BlankLine, Footer(name)])
  {
    SnocStartsLines(y, BlankLine);
    LastOfAppend(Render(y), "\n");
    SnocStartsLines(y + [BlankLine], Footer(name));
    ChunksAssociative(y, [BlankLine], [Footer(name)]);
    Pair(BlankLine, Footer(name));
  }

  /** In the corrected generator every fence and the footer start a line,
      for every file as `readlines` returns it. */
  lemma FixedFencesStartLines(lines: seq<string>, stem: string, pngExists: bool)
    requires |lines| > 0 && ReadLines(lines) && DocumentFixed(lines, stem, pngExists).Some?
    ensures FencesStartLines(DocumentFixed(lines, stem, pngExists).value)
  {
    var head: seq<Chunk> := [Title(stem)] + (if pngExists then [Screenshot(ImagePath(stem))] else []);
    var body := Scan(lines);
    HeadStartsLines(stem, pngExists);
    ScanStartsLines(head, lines);
    var x := head + body.1;
    CloseStartsLines(x, body.0);
    TailStartsLines(x + FixedClose(x, body.0), SourceName(stem));
  }

  /** The correction changes nothing when the file ends in a newline. */
  lemma FixAgreesOnTerminatedFiles(lines: seq<string>, stem: string, pngExists: bool)
    requires |lines| > 0 && ReadLines(lines) && EndsLine(lines[|lines| - 1])
    ensures DocumentFixed(lines, stem, pngExists) == Document(lines, stem, pngExists)
  {
    var head: seq<Chunk> := [Title(stem)] + (if pngExists then [Screenshot(ImagePath(stem))] else []);
    HeadStartsLines(stem, pngExists);
    ScanStartsLines(head, lines);
    var none: seq<Chunk> := [];
    assert none + [CloseFence(false)] == [CloseFence(false)];
  }

  /** The output of a loop whose last line is non-blank code ends with
      that line, and a block is still open. */
  lemma LastCodeLineRendered(lines: seq<string>)
    requires |lines| > 0
    requires !IsComment(lines[|lines| - 1]) && Strip(lines[|lines| - 1]) != ""
    ensures Scan(lines).0
    ensures EndsWith(Render(Scan(lines).1), lines[|lines| - 1])
  {
    var line := lines[|lines| - 1];
    var prev := Scan(lines[..|lines| - 1]);
    var next := Step(prev.0, line);
    assert Scan(lines) == (next.0, prev.1 + next.1);
    StepCode(prev.0, line);
    RenderAppend(prev.1, next.1);
    var fence := if prev.0 then "" else "```c\n";
    Associative(Render(prev.1), fence, line);
    EndsWithAppend(Render(prev.1) + fence, line);
  }

  /** A closing fence after output that does not end in a newline does
      not start a line. */
  lemma GluedFence(x: seq<Chunk>, tail: seq<Chunk>)
    requires |x| > 0 && !EndsLine(Render(x))
    ensures !FencesStartLines(x + [CloseFence(false)] + tail)
  {
    var cs := x + [CloseFence(false)] + tail;
    assert cs[..|x|] == x;
    assert cs[|x|] == CloseFence(false);
  }

  /** As written, a last line of code without a newline is followed
      directly by the closing fence, which then does not start a line, so
      the block is never closed in the Markdown output. */
  lemma UnterminatedCodeLineGluesFence(lines: seq<string>, stem: string, pngExists: bool)
    requires |lines| > 0 && StartsWith(Strip(lines[0]), MARKER)
    requires !IsComment(lines[|lines| - 1]) && Strip(lines[|lines| - 1]) != ""
    requires !EndsLine(lines[|lines| - 1])
    ensures !FencesStartLines(Document(lines, stem, pngExists).value)
  {
    var line := lines[|lines| - 1];
    LastCodeLineRendered(lines);
    var head: seq<Chunk> := [Title(stem)] + (if pngExists then [Screenshot(ImagePath(stem))] else []);
    var body := Scan(lines);
    var x := head + body.1;
    RenderAppend(head, body.1);
    var r := Render(body.1);
    EndsWithLast(r, line);
    LastOfAppend(Render(head), r);
    GluedFence(x, [BlankLine, Footer(SourceName(stem))]);
  }

  /** A two-line file whose last line `int x;` has no newline: its closing
      fence lands on that line. */
  lemma UnterminatedCodeLineExample()
    ensures !FencesStartLines(Document(["//genexample\n", "int x;"], "example", false).value)
  {
    var marker := "//genexample\n";
    var code := "int x;";
    assert LStrip(marker) == marker;
    assert RStrip(marker[..|marker| - 1]) == MARKER;
    assert Strip(marker) == MARKER;
    assert StartsWith(Strip(marker), MARKER);
    assert LStrip(code) == code;
    assert RStrip(code) == code;
    assert !IsComment(code);
    UnterminatedCodeLineGluesFence([marker, code], "example", false);
  }
}
