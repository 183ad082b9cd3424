/**
  The article page's Markdown subset. The content is trimmed and cut into
  lines; each line is classified as a heading, an opening code fence, a list
  item or a paragraph, and blank lines are skipped. A fence swallows the lines
  up to the next fence, and a list swallows the run of list lines that
  follows it. Paragraph text is cut on backticks (odd pieces are code) and
  the text pieces on `**` (odd parts are bold).

  The rendered markup is replaced by the `Block` and `Inline` values below;
  element keys are kept because the renderer numbers its elements.
 */
module Markdown {
  import opened Wrappers

  // ---------------------------------------------------------------------------
  // String primitives, with the semantics of their JavaScript counterparts

  /** `s.startsWith(prefix)` */
  predicate StartsWith(s: string, prefix: string) {
    |prefix| <= |s| && s[..|prefix|] == prefix
  }

  /** `s.slice(n)` for a non-negative `n`: empty once `n` passes the end. */
  function Slice(s: string, n: nat): (r: string)
    ensures |r| == if n <= |s| then |s| - n else 0
    ensures forall k :: 0 <= k < |r| ==> r[k] == s[n + k]
  {
    if n <= |s| then s[n..] else ""
  }

  /** The characters `String.prototype.trim` removes: WhiteSpace (tab,
      vertical tab, form feed, space, no-break space, byte order mark and
      the space separators) and LineTerminator (LF, CR, LS, PS). */
  predicate IsJsSpace(c: char) {
    || c == '\t' || c == '\n' || c == '\U{000B}' || c == '\U{000C}' || c == '\r' || c == ' '
    || c == '\U{00A0}' || c == '\U{1680}' || ('\U{2000}' <= c <= '\U{200A}')
    || c == '\U{2028}' || c == '\U{2029}' || c == '\U{202F}' || c == '\U{205F}'
    || c == '\U{3000}' || c == '\U{FEFF}'
  }

  predicate AllSpace(s: string) {
    forall k :: 0 <= k < |s| ==> IsJsSpace(s[k])
  }

  /** The first index at or after `i` that holds a non-space, or `|s|`. */
  function SkipSpaces(s: string, i: nat): (k: nat)
    requires i <= |s|
    ensures i <= k <= |s|
    ensures AllSpace(s[i..k])
    ensures k < |s| ==> !IsJsSpace(s[k])
    decreases |s| - i
  {
    if i == |s| || !IsJsSpace(s[i]) then i
    else
      var k := SkipSpaces(s, i + 1);
      assert s[i..k] == [s[i]] + s[i + 1..k];
      k
  }

  /** The end of `s[..j]` once its trailing spaces are dropped. */
  function DropTrailingSpaces(s: string, j: nat): (k: nat)
    requires j <= |s|
    ensures k <= j
    ensures AllSpace(s[k..j])
    ensures 0 < k ==> !IsJsSpace(s[k - 1])
  {
    if j == 0 || !IsJsSpace(s[j - 1]) then j
    else
      var k := DropTrailingSpaces(s, j - 1);
      assert s[k..j] == s[k..j - 1] + [s[j - 1]];
      k
  }

  /** `s.trim()`: `s` without its leading and trailing spaces. */
  function Trim(s: string): (r: string)
    ensures |r| <= |s|
    ensures r == [] <==> AllSpace(s)
    ensures r != [] ==> !IsJsSpace(r[0]) && !IsJsSpace(r[|r| - 1])
  {
    var i := SkipSpaces(s, 0);
    var j := DropTrailingSpaces(s, |s|);
    if j <= i then
      assert AllSpace(s) by {
        forall k | 0 <= k < |s| ensures IsJsSpace(s[k]) {
          if k < i { assert s[0..i][k] == s[k]; } else { assert s[j..|s|][k - j] == s[k]; }
        }
      }
      []
    else
      s[i..j]
  }

  /** What `trim` returns is a piece of `s` with nothing but spaces around it. */
  lemma TrimInfix(s: string)
    ensures var r := Trim(s);
            exists i :: 0 <= i <= |s| - |r| && r == s[i..i + |r|] && AllSpace(s[..i]) && AllSpace(s[i + |r|..])
  {
    var r := Trim(s);
    var i := SkipSpaces(s, 0);
    var j := DropTrailingSpaces(s, |s|);
    if j <= i {
      assert s[..|s|] == s && s[|s|..] == [];
      assert r == s[|s|..|s| + |r|];
    } else {
      assert s[..i] == s[0..i] && s[j..] == s[j..|s|];
      assert r == s[i..i + |r|];
    }
  }

  /** `d` occurs in `s` at position `j`. */
  predicate OccursAt(s: string, d: string, j: nat) {
    j + |d| <= |s| && s[j..j + |d|] == d
  }

  /** `s.indexOf(d, i)`: the first position at or after `i` where `d` occurs. */
  function IndexOf(s: string, d: string, i: nat): (r: Option<nat>)
    requires i <= |s|
    ensures r.Some? ==> i <= r.value && OccursAt(s, d, r.value)
    ensures forall j: nat :: i <= j && (r.None? || j < r.value) ==> !OccursAt(s, d, j)
    decreases |s| - i
  {
    if i + |d| > |s| then None
    else if OccursAt(s, d, i) then Some(i)
    else IndexOf(s, d, i + 1)
  }

  /** When `d` first occurs in `s` at `k`, it first occurs in `s[..k] + d`
      at `k` too: nothing before `k` can match across the cut. */
  lemma FirstOccurrenceKept(s: string, d: string, k: nat)
    requires IndexOf(s, d, 0) == Some(k)
    ensures IndexOf(s[..k] + d, d, 0) == Some(k)
  {
    var t := s[..k] + d;
    assert t == s[..k + |d|];
    assert OccursAt(t, d, k);
    forall j: nat | j < k ensures !OccursAt(t, d, j) {
      assert !OccursAt(s, d, j);
    }
  }

  /** `s.split(d)` for a non-empty separator: the pieces between the
      occurrences of `d`, found from left to right without overlap. */
  function Split(s: string, d: string): (r: seq<string>)
    requires d != []
    ensures |r| >= 1
    decreases |s|
  {
    match IndexOf(s, d, 0)
    case None => [s]
    case Some(k) => [s[..k]] + Split(s[k + |d|..], d)
  }

  /** `p + d` holds its first `d` right after `p`. */
  predicate CutAtFirst(p: string, d: string) {
    IndexOf(p + d, d, 0) == Some(|p|)
  }

  /** `d` does not occur in `p`. */
  predicate HoldsNo(p: string, d: string) {
    IndexOf(p, d, 0).None?
  }

  /** Every piece of a split but the last is cut at the first occurrence of
      `d` after it, and the last piece holds no `d`. With `SplitJoin` this
      fixes the pieces: they are the cuts at the leftmost occurrences. */
  lemma {:induction false} SplitPieces(s: string, d: string)
    requires d != []
    ensures forall k :: 0 <= k < |Split(s, d)| - 1 ==> CutAtFirst(Split(s, d)[k], d)
    ensures HoldsNo(Split(s, d)[|Split(s, d)| - 1], d)
    decreases |s|
  {
    match IndexOf(s, d, 0)
    case None =>
      assert Split(s, d) == [s];
    case Some(k) =>
      var rest := Split(s[k + |d|..], d);
      var r := Split(s, d);
      assert r == [s[..k]] + rest;
      FirstOccurrenceKept(s, d, k);
      assert CutAtFirst(r[0], d);
      SplitPieces(s[k + |d|..], d);
      forall j | 1 <= j < |r| - 1 ensures CutAtFirst(r[j], d) {
        assert r[j] == rest[j - 1];
      }
      var last := rest[|rest| - 1];
      assert HoldsNo(last, d);
      assert r[|r| - 1] == last;
  }

  /** `parts.join(d)` */
  function JoinWith(parts: seq<string>, d: string): string {
    if |parts| == 0 then ""
    else if |parts| == 1 then parts[0]
    else parts[0] + d + JoinWith(parts[1..], d)
  }

  lemma JoinCons(x: string, rest: seq<string>, d: string)
    requires rest != []
    ensures JoinWith([x] + rest, d) == x + d + JoinWith(rest, d)
  {
    assert ([x] + rest)[1..] == rest;
  }

  /** Joining the pieces of a split with its separator gives back the string. */
  lemma {:induction false} SplitJoin(s: string, d: string)
    requires d != []
    ensures JoinWith(Split(s, d), d) == s
    decreases |s|
  {
    match IndexOf(s, d, 0)
    case None =>
    case Some(k) =>
      var rest := Split(s[k + |d|..], d);
      SplitJoin(s[k + |d|..], d);
      JoinCons(s[..k], rest, d);
      assert s == s[..k] + s[k..k + |d|] + s[k + |d|..];
  }

  // ---------------------------------------------------------------------------
  // Inline markup inside a paragraph

  /** A piece of paragraph text: plain text, an inline code span (keyed by
      its index among the backtick pieces) or a bold run (keyed by the index
      of the text piece it came from and its index among the `**` parts). */
  datatype Inline =
    | Text(text: string)
    | Code(key: nat, text: string)
    | Strong(group: nat, part: nat, text: string)

  function Texts(es: seq<Inline>): (r: seq<string>)
    ensures |r| == |es|
    ensures forall k :: 0 <= k < |es| ==> r[k] == es[k].text
  {
    seq(|es|, k requires 0 <= k < |es| => es[k].text)
  }

  /** `processInlineCode`: the line cut on backticks; odd pieces are code. */
  function InlineCode(line: string): (r: seq<Inline>)
    ensures |r| == |Split(line, "`")|
    ensures forall k :: 0 <= k < |r| ==> (r[k].Code? <==> k % 2 == 1) && !r[k].Strong?
    ensures forall k :: 0 <= k < |r| ==> r[k].text == Split(line, "`")[k] && (r[k].Code? ==> r[k].key == k)
  {
    var parts := Split(line, "`");
    seq(|parts|, k requires 0 <= k < |parts| => if k % 2 == 1 then Code(k, parts[k]) else Text(parts[k]))
  }

  /** Joining the pieces' texts with backticks gives back the line. */
  lemma InlineCodeRoundTrip(line: string)
    ensures JoinWith(Texts(InlineCode(line)), "`") == line
  {
    assert Texts(InlineCode(line)) == Split(line, "`");
    SplitJoin(line, "`");
  }

  /** The `**` parts of the text piece at index `group`; odd parts are bold. */
  function BoldParts(group: nat, s: string): (r: seq<Inline>)
    ensures |r| >= 1
    ensures forall k :: 0 <= k < |r| ==> !r[k].Code? && (r[k].Strong? <==> k % 2 == 1)
    ensures forall k :: 0 <= k < |r| && r[k].Strong? ==> r[k].group == group && r[k].part == k
    ensures Texts(r) == Split(s, "**")
    ensures JoinWith(Texts(r), "**") == s
  {
    var parts := Split(s, "**");
    var r := seq(|parts|, k requires 0 <= k < |parts| => if k % 2 == 1 then Strong(group, k, parts[k]) else Text(parts[k]));
    assert Texts(r) == parts;
    SplitJoin(s, "**");
    r
  }

  /** What `processBold` maps each piece to before flattening: text pieces
      are cut on `**`, code spans stay as they are. */
  function BoldGroups(es: seq<Inline>): (r: seq<seq<Inline>>)
    ensures |r| == |es|
  {
    seq(|es|, k requires 0 <= k < |es| => if es[k].Text? then BoldParts(k, es[k].text) else [es[k]])
  }

  function Flatten(gs: seq<seq<Inline>>): seq<Inline> {
    if gs == [] then [] else gs[0] + Flatten(gs[1..])
  }

  /** `processBold` */
  function ProcessBold(es: seq<Inline>): seq<Inline> {
    Flatten(BoldGroups(es))
  }

  /** The content of a paragraph line. */
  function ParagraphContent(line: string): seq<Inline> {
    ProcessBold(InlineCode(line))
  }

  /** Re-inserting `**` within each group and backticks between groups gives
      back the paragraph line. */
  lemma ParagraphRoundTrip(line: string)
    ensures var gs := BoldGroups(InlineCode(line));
            JoinWith(seq(|gs|, k requires 0 <= k < |gs| => JoinWith(Texts(gs[k]), "**")), "`") == line
  {
    var es := InlineCode(line);
    var gs := BoldGroups(es);
    var restored := seq(|gs|, k requires 0 <= k < |gs| => JoinWith(Texts(gs[k]), "**"));
    forall k | 0 <= k < |gs| ensures restored[k] == es[k].text {
      if !es[k].Text? {
        assert Texts(gs[k]) == [es[k].text];
      }
    }
    assert restored == Texts(es);
    InlineCodeRoundTrip(line);
  }

  /** The code spans of a sequence of pieces, in order. */
  function Codes(es: seq<Inline>): seq<Inline> {
    if es == [] then []
    else if es[0].Code? then [es[0]] + Codes(es[1..])
    else Codes(es[1..])
  }

  lemma {:induction false} CodesAppend(a: seq<Inline>, b: seq<Inline>)
    ensures Codes(a + b) == Codes(a) + Codes(b)
  {
    if a != [] {
      assert (a + b)[0] == a[0];
      assert (a + b)[1..] == a[1..] + b;
      CodesAppend(a[1..], b);
    } else {
      assert a + b == b;
    }
  }

  lemma {:induction false} CodesNone(es: seq<Inline>)
    requires forall k :: 0 <= k < |es| ==> !es[k].Code?
    ensures Codes(es) == []
  {
    if es != [] {
      CodesNone(es[1..]);
    }
  }

  lemma {:induction false} FlattenSnoc(gs: seq<seq<Inline>>, g: seq<Inline>)
    ensures Flatten(gs + [g]) == Flatten(gs) + g
  {
    if gs != [] {
      assert (gs + [g])[1..] == gs[1..] + [g];
      FlattenSnoc(gs[1..], g);
    }
  }

  /** Bold splitting never touches code spans: the paragraph keeps exactly the
      code spans of the backtick split, in order. */
  lemma ProcessBoldKeepsCode(es: seq<Inline>)
    ensures Codes(ProcessBold(es)) == Codes(es)
  {
    var gs := BoldGroups(es);
    for n := 0 to |es|
      invariant Codes(Flatten(gs[..n])) == Codes(es[..n])
    {
      assert gs[..n + 1] == gs[..n] + [gs[n]];
      assert es[..n + 1] == es[..n] + [es[n]];
      FlattenSnoc(gs[..n], gs[n]);
      CodesAppend(Flatten(gs[..n]), gs[n]);
      CodesAppend(es[..n], [es[n]]);
      if es[n].Text? {
        CodesNone(gs[n]);
      }
    }
    assert gs[..|es|] == gs && es[..|es|] == es;
  }

  // ---------------------------------------------------------------------------
  // Line classification

  predicate IsFence(line: string) { StartsWith(line, "```") }
  predicate IsListLine(line: string) { StartsWith(line, "- ") }
  predicate IsBlank(line: string) { Trim(line) == "" }

  /** The first index at or after `j` that holds a fence, or `|lines|`. */
  function FenceEnd(lines: seq<string>, j: nat): (k: nat)
    requires j <= |lines|
    ensures j <= k <= |lines|
    ensures forall m :: j <= m < k ==> !IsFence(lines[m])
    ensures k < |lines| ==> IsFence(lines[k])
    decreases |lines| - j
  {
    if j == |lines| || IsFence(lines[j]) then j else FenceEnd(lines, j + 1)
  }

  /** The first index at or after `j` that is not a list line, or `|lines|`. */
  function ListEnd(lines: seq<string>, j: nat): (k: nat)
    requires j <= |lines|
    ensures j <= k <= |lines|
    ensures forall m :: j <= m < k ==> IsListLine(lines[m])
    ensures k < |lines| ==> !IsListLine(lines[k])
    decreases |lines| - j
  {
    if j == |lines| || !IsListLine(lines[j]) then j else ListEnd(lines, j + 1)
  }

  /** The renderer's tests on a line outside a code block, in its order:
      the first that matches decides. */
  datatype LineClass = Heading1 | Heading2 | Heading3 | FenceLine | ListLine | BlankLine | TextLine

  function Classify(line: string): (c: LineClass)
    ensures c == FenceLine ==> IsFence(line)
    ensures c == ListLine <==> IsListLine(line)
  {
    if StartsWith(line, "# ") then Heading1
    else if StartsWith(line, "## ") then Heading2
    else if StartsWith(line, "### ") then Heading3
    else if IsFence(line) then FenceLine
    else if IsListLine(line) then
      assert line[0] == line[..2][0] == '-';
      ListLine
    else if IsBlank(line) then BlankLine
    else TextLine
  }

  /** The prefixes exclude one another (a line starting with `## ` does not
      start with `# `, and a blank line starts with none of them), so each
      class holds exactly when its own test does. */
  lemma ClassifyExact(line: string)
    ensures Classify(line) == Heading1 <==> StartsWith(line, "# ")
    ensures Classify(line) == Heading2 <==> StartsWith(line, "## ")
    ensures Classify(line) == Heading3 <==> StartsWith(line, "### ")
    ensures Classify(line) == FenceLine <==> IsFence(line)
    ensures Classify(line) == ListLine <==> IsListLine(line)
    ensures Classify(line) == BlankLine <==> IsBlank(line)
  {
    if StartsWith(line, "# ") {
      assert line[0] == line[..2][0] && line[1] == line[..2][1];
    } else if StartsWith(line, "## ") {
      assert line[0] == line[..3][0] && line[1] == line[..3][1] && line[2] == line[..3][2];
    } else if StartsWith(line, "### ") {
      assert line[0] == line[..4][0] && line[3] == line[..4][3];
    } else if IsFence(line) {
      assert line[0] == line[..3][0];
    }
  }

  // ---------------------------------------------------------------------------
  // Blocks

  datatype Block =
    | H1(text: string)
    | H2(text: string)
    | H3(text: string)
    | CodeBlock(language: string, code: string)
    | List(items: seq<string>)
    | Paragraph(content: seq<Inline>)

  /** A rendered element and the key the renderer gives it. */
  datatype Element = Element(key: nat, block: Block)

  /** The list items of a run of list lines: each line without `"- "`. */
  function Items(run: seq<string>): (r: seq<string>)
    ensures |r| == |run|
  {
    seq(|run|, m requires 0 <= m < |run| => Slice(run[m], 2))
  }

  /** The block the line at `i` opens, if any. */
  function BlockAt(lines: seq<string>, i: nat): Option<Block>
    requires i < |lines|
  {
    var line := lines[i];
    match Classify(line)
    case Heading1 => Some(H1(Slice(line, 2)))
    case Heading2 => Some(H2(Slice(line, 3)))
    case Heading3 => Some(H3(Slice(line, 4)))
    case FenceLine => Some(CodeBlock(Slice(line, 3), JoinWith(lines[i + 1..FenceEnd(lines, i + 1)], "\n")))
    case ListLine => Some(List(Items(lines[i..ListEnd(lines, i + 1)])))
    case BlankLine => None
    case TextLine => Some(Paragraph(ParagraphContent(line)))
  }

  /** The block each kind of line opens: the first of the renderer's tests
      that the line passes decides, and a blank line opens nothing. */
  lemma BlockAtByPrefix(lines: seq<string>, i: nat)
    requires i < |lines|
    ensures StartsWith(lines[i], "# ") ==> BlockAt(lines, i) == Some(H1(Slice(lines[i], 2)))
    ensures StartsWith(lines[i], "## ") ==> BlockAt(lines, i) == Some(H2(Slice(lines[i], 3)))
    ensures StartsWith(lines[i], "### ") ==> BlockAt(lines, i) == Some(H3(Slice(lines[i], 4)))
    ensures IsFence(lines[i]) ==>
              BlockAt(lines, i) == Some(CodeBlock(Slice(lines[i], 3), JoinWith(lines[i + 1..FenceEnd(lines, i + 1)], "\n")))
    ensures IsListLine(lines[i]) ==> BlockAt(lines, i) == Some(List(Items(lines[i..ListEnd(lines, i + 1)])))
    ensures BlockAt(lines, i).None? <==> IsBlank(lines[i])
    ensures !StartsWith(lines[i], "# ") && !StartsWith(lines[i], "## ") && !StartsWith(lines[i], "### ")
            && !IsFence(lines[i]) && !IsListLine(lines[i]) && !IsBlank(lines[i]) ==>
              BlockAt(lines, i) == Some(Paragraph(ParagraphContent(lines[i])))
  {
    ClassifyExact(lines[i]);
  }

  /** Where the renderer resumes after the line at `i`: past the closing
      fence of a code block (or past the end when there is none), at the
      first non-list line after a list, else at the next line. */
  function Next(lines: seq<string>, i: nat): (k: nat)
    requires i < |lines|
    ensures i < k <= |lines| + 1
  {
    match Classify(lines[i])
    case FenceLine => FenceEnd(lines, i + 1) + 1
    case ListLine => ListEnd(lines, i + 1)
    case _ => i + 1
  }

  function Emit(b: Option<Block>): (r: seq<Block>)
    ensures |r| <= 1
  {
    match b
    case Some(x) => [x]
    case None => []
  }

  lemma ItemsSnoc(run: seq<string>, line: string)
    ensures Items(run + [line]) == Items(run) + [Slice(line, 2)]
  {
  }

  /** The blocks of `lines[i..]`, consuming lines as the renderer does. */
  function ParseFrom(lines: seq<string>, i: nat): seq<Block>
    decreases |lines| + 1 - i
  {
    if i >= |lines| then [] else Emit(BlockAt(lines, i)) + ParseFrom(lines, Next(lines, i))
  }

  /** The trimmed content cut into lines. */
  function Lines(text: string): seq<string> {
    Split(Trim(text), "\n")
  }

  /** The blocks of a whole article body. */
  function Render(text: string): seq<Block> {
    ParseFrom(Lines(text), 0)
  }

  /** The fence case's inner loop: the lines from `from` up to the next
      fence (or the end), and the index it stops at. */
  method CodeLinesFrom(lines: seq<string>, from: nat) returns (codeLines: seq<string>, i: nat)
    requires from <= |lines|
    ensures i == FenceEnd(lines, from)
    ensures codeLines == lines[from..i]
  {
    codeLines := [];
    i := from;
    while i < |lines| && !StartsWith(lines[i], "```")
      invariant from <= i <= |lines|
      invariant codeLines == lines[from..i]
      invariant FenceEnd(lines, i) == FenceEnd(lines, from)
    {
      codeLines := codeLines + [lines[i]];
      i := i + 1;
    }
  }

  /** The list case's inner loop: the items of the list line at `start`
      and of the list lines right after it, and the index of the first line
      that is not a list line. */
  method ListItemsFrom(lines: seq<string>, start: nat) returns (listItems: seq<string>, i: nat)
    requires start < |lines|
    ensures i == ListEnd(lines, start + 1)
    ensures listItems == Items(lines[start..i])
  {
    listItems := [Slice(lines[start], 2)];
    i := start + 1;
    while i < |lines| && StartsWith(lines[i], "- ")
      invariant start + 1 <= i <= |lines|
      invariant listItems == Items(lines[start..i])
      invariant ListEnd(lines, i) == ListEnd(lines, start + 1)
    {
      assert lines[start..i + 1] == lines[start..i] + [lines[i]];
      ItemsSnoc(lines[start..i], lines[i]);
      listItems := listItems + [Slice(lines[i], 2)];
      i := i + 1;
    }
  }

  /** One step of `ParseFrom`. */
  lemma ParseStep(lines: seq<string>, i: nat)
    requires i < |lines|
    ensures ParseFrom(lines, i) == Emit(BlockAt(lines, i)) + ParseFrom(lines, Next(lines, i))
  {
  }

  /** One step of the renderer moves the block at `i` from the blocks still
      to come to the blocks already emitted, and changes nothing else. */
  lemma ParseAdvance(emitted: seq<Block>, lines: seq<string>, i: nat)
    requires i < |lines|
    ensures emitted + ParseFrom(lines, i) == (emitted + Emit(BlockAt(lines, i))) + ParseFrom(lines, Next(lines, i))
  {
    ParseStep(lines, i);
  }

  /** One pass of `renderMarkdown`'s loop at index `i`: the element the
      line opens, if any, and the index the loop continues at. The fence and
      list cases advance the index in inner loops, and the list case backs
      it up by one before the loop's own increment. */
  method RenderLine(lines: seq<string>, i: nat) returns (block: Option<Block>, next: nat)
    requires i < |lines|
    ensures block == BlockAt(lines, i)
    ensures next == Next(lines, i)
  {
    var line := lines[i];
    next := i;
    if StartsWith(line, "# ") {
      block := Some(H1(Slice(line, 2)));
    } else if StartsWith(line, "## ") {
      block := Some(H2(Slice(line, 3)));
    } else if StartsWith(line, "### ") {
      block := Some(H3(Slice(line, 4)));
    } else if StartsWith(line, "```") {
      var language := Slice(line, 3);
      var codeLines;
      codeLines, next := CodeLinesFrom(lines, next + 1);
      block := Some(CodeBlock(language, JoinWith(codeLines, "\n")));
    } else if StartsWith(line, "- ") {
      var listItems;
      listItems, next := ListItemsFrom(lines, next);
      next := next - 1;
      block := Some(List(listItems));
    } else if Trim(line) != "" {
      block := Some(Paragraph(ProcessBold(InlineCode(line))));
    } else {
      block := None;
    }
    next := next + 1;
  }

  /** `renderMarkdown`: the trimmed content cut into lines, rendered in one
      pass; every element gets the next key. */
  method RenderMarkdown(text: string) returns (elements: seq<Element>)
    ensures |elements| == |Render(text)|
    ensures forall j :: 0 <= j < |elements| ==> elements[j] == Element(j, Render(text)[j])
  {
    var lines := Split(Trim(text), "\n");
    elements := [];
    var currentIndex := 0;
    ghost var emitted: seq<Block> := [];
    ghost var target := Render(text);
    var i := 0;
    while i < |lines|
      invariant 0 <= i <= |lines| + 1
      invariant currentIndex == |elements| == |emitted|
      invariant forall j :: 0 <= j < |elements| ==> elements[j] == Element(j, emitted[j])
      invariant emitted + ParseFrom(lines, i) == target
      decreases |lines| + 1 - i
    {
      ghost var before := emitted;
      ParseAdvance(emitted, lines, i);
      var block;
      block, i := RenderLine(lines, i);
      if block.Some? {
        elements := elements + [Element(currentIndex, block.value)];
        emitted := emitted + [block.value];
        currentIndex := currentIndex + 1;
      }
      assert emitted == before + Emit(block);
    }
    assert emitted == target;
  }

  // ---------------------------------------------------------------------------
  // Line accounting: a one-pass classification of every line

  datatype Kind = KH1 | KH2 | KH3 | KCode | KList | KParagraph

  /** The role a line plays: it opens an element of some kind, or it is a
      code line, a closing fence, a further list item or a blank line. */
  datatype Role = Opens(kind: Kind) | CodeLine | CloseFence | ListItem | Blank

  /** Roles assigned left to right by a two-flag state machine, without
      looking ahead: `inCode` after an opening fence, `inList` after a list line. */
  function RolesFrom(lines: seq<string>, i: nat, inCode: bool, inList: bool): (r: seq<Role>)
    ensures |r| == if i <= |lines| then |lines| - i else 0
    decreases |lines| - i
  {
    if i >= |lines| then []
    else
      var line := lines[i];
      if inCode then
        if IsFence(line) then [CloseFence] + RolesFrom(lines, i + 1, false, false)
        else [CodeLine] + RolesFrom(lines, i + 1, true, false)
      else
        match Classify(line)
        case Heading1 => [Opens(KH1)] + RolesFrom(lines, i + 1, false, false)
        case Heading2 => [Opens(KH2)] + RolesFrom(lines, i + 1, false, false)
        case Heading3 => [Opens(KH3)] + RolesFrom(lines, i + 1, false, false)
        case FenceLine => [Opens(KCode)] + RolesFrom(lines, i + 1, true, false)
        case ListLine => [if inList then ListItem else Opens(KList)] + RolesFrom(lines, i + 1, false, true)
        case BlankLine => [Blank] + RolesFrom(lines, i + 1, false, false)
        case TextLine => [Opens(KParagraph)] + RolesFrom(lines, i + 1, false, false)
  }

  /** The kinds of the element-opening roles, in order. */
  function Starts(roles: seq<Role>): (r: seq<Kind>)
    ensures |r| <= |roles|
  {
    if roles == [] then []
    else if roles[0].Opens? then [roles[0].kind] + Starts(roles[1..])
    else Starts(roles[1..])
  }

  function KindOf(b: Block): Kind {
    match b
    case H1(_) => KH1
    case H2(_) => KH2
    case H3(_) => KH3
    case CodeBlock(_, _) => KCode
    case List(_) => KList
    case Paragraph(_) => KParagraph
  }

  function Kinds(bs: seq<Block>): (r: seq<Kind>)
    ensures |r| == |bs|
  {
    seq(|bs|, k requires 0 <= k < |bs| => KindOf(bs[k]))
  }

  /** Inside a code block the roles open nothing until the closing fence. */
  lemma {:induction false} CodeRoles(lines: seq<string>, j: nat)
    requires j <= |lines|
    ensures Starts(RolesFrom(lines, j, true, false)) == Starts(RolesFrom(lines, FenceEnd(lines, j) + 1, false, false))
    decreases |lines| - j
  {
    if j < |lines| {
      CodeStep(lines, j);
      if IsFence(lines[j]) {
        StartsCons(CloseFence, RolesFrom(lines, j + 1, false, false));
      } else {
        StartsCons(CodeLine, RolesFrom(lines, j + 1, true, false));
        CodeRoles(lines, j + 1);
      }
    }
  }

  /** One step of the role machine inside a code block. */
  lemma CodeStep(lines: seq<string>, j: nat)
    requires j < |lines|
    ensures RolesFrom(lines, j, true, false)
            == if IsFence(lines[j]) then [CloseFence] + RolesFrom(lines, j + 1, false, false)
               else [CodeLine] + RolesFrom(lines, j + 1, true, false)
  {
  }

  /** After a list line, further list lines open nothing. */
  lemma {:induction false} ListRoles(lines: seq<string>, j: nat)
    requires j <= |lines|
    ensures Starts(RolesFrom(lines, j, false, true)) == Starts(RolesFrom(lines, ListEnd(lines, j), false, false))
    decreases |lines| - j
  {
    if j < |lines| && IsListLine(lines[j]) {
      assert RolesFrom(lines, j, false, true) == [ListItem] + RolesFrom(lines, j + 1, false, true);
      StartsCons(ListItem, RolesFrom(lines, j + 1, false, true));
      ListRoles(lines, j + 1);
    } else {
      OutsideListRoles(lines, j);
    }
  }

  /** Off a list line, whether a list was open makes no difference. */
  lemma OutsideListRoles(lines: seq<string>, j: nat)
    requires j < |lines| ==> !IsListLine(lines[j])
    ensures RolesFrom(lines, j, false, true) == RolesFrom(lines, j, false, false)
  {
  }

  lemma KindsCons(b: Block, bs: seq<Block>)
    ensures Kinds([b] + bs) == [KindOf(b)] + Kinds(bs)
  {
  }

  lemma StartsCons(r: Role, rs: seq<Role>)
    ensures Starts([r] + rs) == (if r.Opens? then [r.kind] else []) + Starts(rs)
  {
    assert ([r] + rs)[1..] == rs;
  }

  /** The role of a line of class `c` when no block is open. */
  function OpenRole(c: LineClass): Role {
    match c
    case Heading1 => Opens(KH1)
    case Heading2 => Opens(KH2)
    case Heading3 => Opens(KH3)
    case FenceLine => Opens(KCode)
    case ListLine => Opens(KList)
    case BlankLine => Blank
    case TextLine => Opens(KParagraph)
  }

  /** One step of the role machine when no block is open. */
  lemma RolesStep(lines: seq<string>, i: nat)
    requires i < |lines|
    ensures var c := Classify(lines[i]);
            RolesFrom(lines, i, false, false) == [OpenRole(c)] + RolesFrom(lines, i + 1, c == FenceLine, c == ListLine)
  {
  }

  /** The line opens a block exactly when its role says so, of that kind. */
  lemma BlockAtRole(lines: seq<string>, i: nat)
    requires i < |lines|
    ensures var role := OpenRole(Classify(lines[i]));
            match BlockAt(lines, i)
            case Some(b) => role == Opens(KindOf(b))
            case None => role == Blank
  {
  }

  /** Each emitted element corresponds, in order and by kind, to exactly one
      line that opens an element; every other line is a code line, a closing
      fence, a further list item or a blank line. */
  lemma {:induction false} ParseMatchesRoles(lines: seq<string>, i: nat)
    ensures Kinds(ParseFrom(lines, i)) == Starts(RolesFrom(lines, i, false, false))
    decreases |lines| + 1 - i
  {
    if i < |lines| {
      var c := Classify(lines[i]);
      var roles := RolesFrom(lines, i + 1, c == FenceLine, c == ListLine);
      var next := Next(lines, i);
      var tail := ParseFrom(lines, next);
      ParseMatchesRoles(lines, next);
      RolesResume(lines, i);
      ParseStep(lines, i);
      RolesStep(lines, i);
      BlockAtRole(lines, i);
      match BlockAt(lines, i)
      case None =>
        StartsCons(Blank, roles);
      case Some(b) =>
        KindsCons(b, tail);
        StartsCons(Opens(KindOf(b)), roles);
    }
  }

  /** The roles after the line at `i` open the same kinds as the roles from
      where the renderer resumes. */
  lemma RolesResume(lines: seq<string>, i: nat)
    requires i < |lines|
    ensures var c := Classify(lines[i]);
            Starts(RolesFrom(lines, i + 1, c == FenceLine, c == ListLine)) == Starts(RolesFrom(lines, Next(lines, i), false, false))
  {
    var c := Classify(lines[i]);
    if c == FenceLine {
      CodeRoles(lines, i + 1);
    } else if c == ListLine {
      ListRoles(lines, i + 1);
    } else {
      assert Next(lines, i) == i + 1;
    }
  }

  /** Every element consumes at least one line. */
  lemma RenderBound(text: string)
    ensures |Render(text)| <= |Lines(text)|
  {
    ParseMatchesRoles(Lines(text), 0);
  }
}
