/**
 * The comment cleaners and block rendering of the `nbe` documentation
 * generator (cmd/nbe/docs.go): how a parsed block becomes the text handed to
 * the Markdown renderer or the syntax highlighter, and which language links
 * an example page gets.
 */
module NbeDocs {
  import opened Wrappers
  import opened Strs
  import opened LineClass
  import opened Segment

  /**
   * The two ways the cleaners slice with index -1 and panic: every line is
   * blank (`lines[-1:]`), or the first non-blank line lacks the delimiter
   * (`l[:-1]`).
   */
  datatype CleanError = NoCommentLine | MissingDelimiter(line: nat)

  /** The index of the first line at or after `i` that strings.TrimSpace does not empty. */
  function FirstNonBlankFrom(lines: seq<string>, i: nat): (r: Option<nat>)
    ensures r.Some? ==>
      (i <= r.value < |lines| && !IsBlank(lines[r.value]) && forall j | i <= j < r.value :: IsBlank(lines[j]))
    ensures r.None? ==> forall j | i <= j < |lines| :: IsBlank(lines[j])
    decreases |lines| - i
  {
    if i >= |lines| then None
    else if !IsBlank(lines[i]) then Some(i)
    else FirstNonBlankFrom(lines, i + 1)
  }

  function FirstNonBlank(lines: seq<string>): Option<nat> {
    FirstNonBlankFrom(lines, 0)
  }

  /**
   * commonPrefixForLines: the text before the delimiter on the first
   * non-blank line, with that line's index; ("", -1) when all lines are blank.
   */
  function CommonPrefix(lines: seq<string>, delim: string): (r: Result<(string, int), CleanError>)
    ensures r.Ok? ==> -1 <= r.value.1 < |lines|
  {
    match FirstNonBlank(lines)
    case None => Ok(("", -1))
    case Some(i) =>
      var idx := Index(lines[i], delim);
      IndexBounds(lines[i], delim);
      if idx < 0 then Err(MissingDelimiter(i)) else Ok((lines[i][..idx], i as int))
  }

  /**
   * The prefix is exactly the indentation before the first delimiter of the
   * first non-blank line; an all-blank input gives ("", -1); the slice fails
   * exactly when that line has no delimiter.
   */
  lemma CommonPrefixSpec(lines: seq<string>, delim: string)
    ensures CommonPrefix(lines, delim) == Ok(("", -1)) <==> forall j | 0 <= j < |lines| :: IsBlank(lines[j])
    ensures CommonPrefix(lines, delim).Err? <==>
      exists i | 0 <= i < |lines| :: !IsBlank(lines[i]) && (forall j | 0 <= j < i :: IsBlank(lines[j])) && !Contains(lines[i], delim)
    ensures forall p, i | CommonPrefix(lines, delim) == Ok((p, i)) && i >= 0 ::
      !IsBlank(lines[i]) && (forall j | 0 <= j < i :: IsBlank(lines[j]))
      && HasPrefix(lines[i], p) && MatchAt(lines[i], |p|, delim)
      && forall j: nat | j < |p| :: !MatchAt(lines[i], j, delim)
  {
    match FirstNonBlank(lines)
    case None =>
    case Some(i) =>
      IndexSpec(lines[i], delim);
      IndexBounds(lines[i], delim);
      var idx := Index(lines[i], delim);
      if idx >= 0 {
        HasPrefixSlice(lines[i], lines[i][..idx]);
      }
      forall k | 0 <= k < |lines| && !IsBlank(lines[k]) && (forall j | 0 <= j < k :: IsBlank(lines[j]))
        ensures k == i
      {
      }
  }

  /** commonPrefixForLines as written: a loop that skips blank lines and returns at the first other one. */
  method CommonPrefixForLines(lines: seq<string>, delim: string) returns (r: Result<(string, int), CleanError>)
    ensures r == CommonPrefix(lines, delim)
  {
    var i := 0;
    while i < |lines|
      invariant i <= |lines|
      invariant FirstNonBlank(lines) == FirstNonBlankFrom(lines, i)
    {
      var l := lines[i];
      TrimSpaceEmpty(l);
      if TrimSpace(l) == "" {
        i := i + 1;
        continue;
      }
      var idx := Index(l, delim);
      IndexBounds(l, delim);
      if idx < 0 {
        return Err(MissingDelimiter(i));
      }
      return Ok((l[..idx], i));
    }
    return Ok(("", -1));
  }

  /** One line of a line-comment block: the indentation, the delimiter and one space go. */
  function CleanSingleLine(l: string, prefix: string, delim: string): string {
    TrimPrefix(TrimPrefix(TrimPrefix(l, prefix), delim), " ")
  }

  function CleanedSingle(ls: seq<string>, prefix: string, delim: string): seq<string> {
    seq(|ls|, k requires 0 <= k < |ls| => CleanSingleLine(ls[k], prefix, delim))
  }

  /**
   * cleanSingleCommentLines: every line from the first non-blank one is
   * cleaned, and the "\n"-join is trimmed; the prefix comes back alongside.
   */
  function CleanSingle(lines: seq<string>, delim: string): Result<(string, string), CleanError> {
    match CommonPrefix(lines, delim)
    case Err(e) => Err(e)
    case Ok((prefix, first)) =>
      if first < 0 then Err(NoCommentLine)
      else Ok((TrimSpace(Join(CleanedSingle(lines[first..], prefix, delim), "\n")), prefix))
  }

  method CleanSingleCommentLines(lines: seq<string>, delim: string) returns (r: Result<(string, string), CleanError>)
    ensures r == CleanSingle(lines, delim)
  {
    var c := CommonPrefixForLines(lines, delim);
    if c.Err? {
      return Err(c.error);
    }
    var (prefix, first) := c.value;
    if first < 0 {
      return Err(NoCommentLine);
    }
    var cleaned := UncommentLines(lines, first, prefix, delim);
    return Ok((TrimSpace(Join(cleaned, "\n")), prefix));
  }

  /** The loop of cleanSingleCommentLines: each line from `first` on loses the indentation, the delimiter and one space. */
  method UncommentLines(lines: seq<string>, first: nat, prefix: string, delim: string) returns (cleaned: seq<string>)
    requires first <= |lines|
    ensures cleaned == CleanedSingle(lines[first..], prefix, delim)
  {
    cleaned := [];
    var k := first;
    while k < |lines|
      invariant first <= k <= |lines|
      invariant |cleaned| == k - first
      invariant forall j | 0 <= j < |cleaned| :: cleaned[j] == CleanSingleLine(lines[first + j], prefix, delim)
    {
      var l := TrimPrefix(lines[k], prefix);
      l := TrimPrefix(l, delim);
      l := TrimPrefix(l, " ");
      cleaned := cleaned + [l];
      k := k + 1;
    }
  }

  /** How a line comment is written: the indentation, the delimiter, and a space before a non-empty body. */
  function Commented(prefix: string, delim: string, body: string): string {
    if body == "" then prefix + delim else prefix + delim + " " + body
  }

  /** Cleaning a written line comment gives its body back. */
  lemma UncommentLine(prefix: string, delim: string, body: string)
    ensures CleanSingleLine(Commented(prefix, delim, body), prefix, delim) == body
  {
    if body == "" {
      TrimPrefixConcat(prefix, delim);
      assert delim + "" == delim;
      TrimPrefixConcat(delim, "");
      assert !HasPrefix("", " ");
    } else {
      assert prefix + delim + " " + body == prefix + (delim + " " + body);
      TrimPrefixConcat(prefix, delim + " " + body);
      assert delim + " " + body == delim + (" " + body);
      TrimPrefixConcat(delim, " " + body);
      TrimPrefixConcat(" ", body);
    }
  }

  /** A blank line stays blank through the line cleaner when the delimiter starts with a non-space. */
  lemma CleanBlankLine(l: string, prefix: string, delim: string)
    requires IsBlank(l) && |delim| > 0 && !IsSpace(delim[0])
    ensures IsBlank(CleanSingleLine(l, prefix, delim))
  {
    var a := TrimPrefix(l, prefix);
    assert IsBlank(a) by {
      if HasPrefix(l, prefix) && |prefix| <= |l| {
        assert forall i | 0 <= i < |a| :: a[i] == l[|prefix| + i];
      }
    }
    TrimPrefixNoHead(a, delim);
    var b := TrimPrefix(a, " ");
    if HasPrefix(a, " ") && 1 <= |a| {
      assert forall i | 0 <= i < |b| :: b[i] == a[1 + i];
    }
  }

  /**
   * A written comment block: after `lead` blank lines, one line per body,
   * each `Commented` with the same indentation, then only blank lines.
   */
  predicate WrittenBlock(lines: seq<string>, lead: nat, prefix: string, delim: string, bodies: seq<string>) {
    lead + |bodies| <= |lines|
    && (forall k | 0 <= k < lead :: IsBlank(lines[k]))
    && (forall k | 0 <= k < |bodies| :: lines[lead + k] == Commented(prefix, delim, bodies[k]))
    && (forall k | lead + |bodies| <= k < |lines| :: IsBlank(lines[k]))
  }

  /** A written comment block is found at its first line, with its indentation as the prefix. */
  lemma CommentBlockFound(lines: seq<string>, lead: nat, prefix: string, delim: string, bodies: seq<string>)
    requires WrittenBlock(lines, lead, prefix, delim, bodies)
    requires IsBlank(prefix) && |delim| > 0 && !IsSpace(delim[0]) && |bodies| > 0
    ensures CommonPrefix(lines, delim) == Ok((prefix, lead as int))
  {
    var tail := if bodies[0] == "" then "" else " " + bodies[0];
    var first := lines[lead];
    assert first == prefix + delim + tail;
    assert !IsBlank(first) by {
      assert first[|prefix|] == delim[0];
    }
    assert FirstNonBlank(lines) == Some(lead);
    assert delim[0] !in prefix;
    IndexAfterPrefix(prefix, delim, tail);
    assert first[..|prefix|] == prefix;
  }

  /** Blank lines after the text change nothing once the join is trimmed. */
  lemma TrailingBlankLines(xs: seq<string>, rest: seq<string>)
    requires |xs| > 0 && forall k | 0 <= k < |rest| :: IsBlank(rest[k])
    ensures TrimSpace(Join(xs + rest, "\n")) == TrimSpace(Join(xs, "\n"))
  {
    if |rest| == 0 {
      assert xs + rest == xs;
    } else {
      var x, j := Join(xs, "\n"), Join(rest, "\n");
      JoinBlank(rest, "\n");
      BlankConcat("\n", j);
      calc {
        TrimSpace(Join(xs + rest, "\n"));
        { JoinAppend(xs, rest, "\n"); assert Join(xs + rest, "\n") == "" + x + ("\n" + j); }
        TrimSpace("" + x + ("\n" + j));
        { TrimSpaceAround("", x, "\n" + j); }
        TrimSpace(x);
      }
    }
  }

  /** Cleaning the lines of a written block from its first line gives the bodies, then blank lines. */
  lemma CleanedBlock(lines: seq<string>, lead: nat, prefix: string, delim: string, bodies: seq<string>, cleaned: seq<string>)
    requires WrittenBlock(lines, lead, prefix, delim, bodies)
    requires |delim| > 0 && !IsSpace(delim[0]) && |bodies| > 0
    requires cleaned == CleanedSingle(lines[lead..], prefix, delim)
    ensures TrimSpace(Join(cleaned, "\n")) == TrimSpace(Join(bodies, "\n"))
  {
    forall k | 0 <= k < |bodies| ensures cleaned[k] == bodies[k] {
      assert lines[lead..][k] == Commented(prefix, delim, bodies[k]);
      UncommentLine(prefix, delim, bodies[k]);
    }
    var rest := cleaned[|bodies|..];
    forall k | 0 <= k < |rest| ensures IsBlank(rest[k]) {
      assert rest[k] == CleanSingleLine(lines[lead + |bodies| + k], prefix, delim);
      CleanBlankLine(lines[lead + |bodies| + k], prefix, delim);
    }
    assert cleaned == bodies + rest;
    TrailingBlankLines(bodies, rest);
  }

  /**
   * Round trip: blank lines, then a line-comment block with a blank
   * indentation, then blank lines, cleans to the trimmed join of the bodies,
   * with the indentation returned as the prefix.
   */
  lemma CleanSingleUncomments(lines: seq<string>, lead: nat, prefix: string, delim: string, bodies: seq<string>)
    requires WrittenBlock(lines, lead, prefix, delim, bodies)
    requires IsBlank(prefix) && |delim| > 0 && !IsSpace(delim[0]) && |bodies| > 0
    ensures CleanSingle(lines, delim) == Ok((TrimSpace(Join(bodies, "\n")), prefix))
  {
    CommentBlockFound(lines, lead, prefix, delim, bodies);
    CleanedBlock(lines, lead, prefix, delim, bodies, CleanedSingle(lines[lead..], prefix, delim));
  }

  /** The lines of a multi-line comment from its opening line: the indentation goes everywhere, the opener from the first line only. */
  function KeptMulti(ls: seq<string>, prefix: string): seq<string> {
    seq(|ls|, k requires 0 <= k < |ls| => KeptLine(ls[k], prefix, k == 0))
  }

  function KeptLine(l: string, prefix: string, opening: bool): string {
    if opening then TrimPrefix(TrimPrefix(l, prefix), "/*") else TrimPrefix(l, prefix)
  }

  /**
   * cleanMultiCommentLines: the lines from the first non-blank one lose the
   * indentation, the first loses the opener, the last non-blank one (the
   * first line when all are blank) loses a closer at its end, and the
   * "\n"-join is trimmed.
   */
  function CleanMulti(lines: seq<string>): Result<(string, string), CleanError> {
    match CommonPrefix(lines, "/*")
    case Err(e) => Err(e)
    case Ok((prefix, first)) =>
      if first < 0 then Err(NoCommentLine)
      else
        var kept := KeptMulti(lines[first..], prefix);
        var last := LastNonBlank(kept);
        Ok((TrimSpace(Join(kept[last := TrimSuffix(kept[last], "*/")], "\n")), prefix))
  }

  /** One step of the loop: append the line and move `lastIdx` to it when it is not blank. */
  method KeepLine(cleaned: seq<string>, lastIdx: nat, l: string) returns (cleaned': seq<string>, lastIdx': nat)
    requires lastIdx == if cleaned == [] then 0 else LastNonBlank(cleaned)
    ensures cleaned' == cleaned + [l] && lastIdx' == LastNonBlank(cleaned')
  {
    LastNonBlankSnoc(cleaned, l);
    cleaned' := cleaned + [l];
    lastIdx' := lastIdx;
    TrimSpaceEmpty(l);
    if TrimSpace(l) != "" {
      lastIdx' := |cleaned|;
    }
  }

  method CleanMultiCommentLines(lines: seq<string>) returns (r: Result<(string, string), CleanError>)
    ensures r == CleanMulti(lines)
  {
    var c := CommonPrefixForLines(lines, "/*");
    if c.Err? {
      return Err(c.error);
    }
    var (prefix, first) := c.value;
    if first < 0 {
      return Err(NoCommentLine);
    }
    var cleaned, lastIdx := KeepLines(lines, first, prefix);
    var last := cleaned[lastIdx];
    cleaned := cleaned[lastIdx := TrimSuffix(last, "*/")];
    return Ok((TrimSpace(Join(cleaned, "\n")), prefix));
  }

  /** The loop of cleanMultiCommentLines: keep the lines from `first` on, tracking the last non-blank one. */
  method KeepLines(lines: seq<string>, first: nat, prefix: string) returns (cleaned: seq<string>, lastIdx: nat)
    requires first < |lines|
    ensures cleaned == KeptMulti(lines[first..], prefix) && lastIdx == LastNonBlank(cleaned)
  {
    cleaned := [];
    lastIdx := 0;
    var k := first;
    while k < |lines|
      invariant first <= k <= |lines|
      invariant |cleaned| == k - first
      invariant forall j | 0 <= j < |cleaned| :: cleaned[j] == KeptLine(lines[first + j], prefix, j == 0)
      invariant lastIdx == if cleaned == [] then 0 else LastNonBlank(cleaned)
    {
      cleaned, lastIdx := KeepLine(cleaned, lastIdx, KeptLine(lines[k], prefix, k == first));
      k := k + 1;
    }
    assert forall j | 0 <= j < |cleaned| :: cleaned[j] == KeptMulti(lines[first..], prefix)[j];
  }

  /**
   * A written multi-line comment: after `lead` blank lines, an opening line
   * line (the indentation and the opener), one line per body with the same
   * indentation, a closing line (the indentation and the closer), then only
   * blank lines.
   */
  predicate WrittenMulti(lines: seq<string>, lead: nat, prefix: string, bodies: seq<string>) {
    lead + |bodies| + 2 <= |lines|
    && (forall k | 0 <= k < lead :: IsBlank(lines[k]))
    && lines[lead] == prefix + "/*"
    && (forall k | 0 <= k < |bodies| :: lines[lead + 1 + k] == prefix + bodies[k])
    && lines[lead + 1 + |bodies|] == prefix + "*/"
    && (forall k | lead + |bodies| + 2 <= k < |lines| :: IsBlank(lines[k]))
  }

  /** The kept lines of a written multi-line comment: an empty opening line, the bodies, the bare close, then blank lines. */
  lemma KeptWritten(lines: seq<string>, lead: nat, prefix: string, bodies: seq<string>, kept: seq<string>)
    requires WrittenMulti(lines, lead, prefix, bodies)
    requires kept == KeptMulti(lines[lead..], prefix)
    ensures |kept| == |lines| - lead
    ensures kept[0] == "" && kept[1 + |bodies|] == "*/"
    ensures forall k | 0 <= k < |bodies| :: kept[1 + k] == bodies[k]
    ensures forall k | 2 + |bodies| <= k < |kept| :: IsBlank(kept[k])
  {
    TrimPrefixConcat(prefix, "/*");
    assert "/*" == "/*" + "";
    TrimPrefixConcat("/*", "");
    TrimPrefixConcat(prefix, "*/");
    forall k | 0 <= k < |bodies| ensures kept[1 + k] == bodies[k] {
      TrimPrefixConcat(prefix, bodies[k]);
    }
    forall k | 2 + |bodies| <= k < |kept| ensures IsBlank(kept[k]) {
      var l := lines[lead + k];
      assert kept[k] == TrimPrefix(l, prefix);
      if HasPrefix(l, prefix) && |prefix| <= |l| {
        assert forall i | 0 <= i < |kept[k]| :: kept[k][i] == l[|prefix| + i];
      }
    }
  }

  /**
   * Round trip: a written multi-line comment with a blank indentation cleans
   * to the trimmed join of its bodies, with the indentation as the prefix.
   */
  lemma CleanMultiUncomments(lines: seq<string>, lead: nat, prefix: string, bodies: seq<string>)
    requires WrittenMulti(lines, lead, prefix, bodies)
    requires IsBlank(prefix) && |bodies| > 0
    ensures CleanMulti(lines) == Ok((TrimSpace(Join(bodies, "\n")), prefix))
  {
    assert !IsBlank(lines[lead]) by {
      assert lines[lead][|prefix|] == '/';
    }
    assert FirstNonBlank(lines) == Some(lead);
    assert '/' !in prefix;
    IndexAfterPrefix(prefix, "/*", "");
    assert prefix + "/*" + "" == lines[lead];
    assert lines[lead][..|prefix|] == prefix;
    var kept := KeptMulti(lines[lead..], prefix);
    KeptWritten(lines, lead, prefix, bodies, kept);
    var close := 1 + |bodies|;
    assert !IsBlank(kept[close]) by {
      assert kept[close][0] == '*';
    }
    assert LastNonBlank(kept) == close;
    assert TrimSuffix("*/", "*/") == "";
    CleanedMultiText(kept, bodies);
  }

  /** The kept lines with the close cut join and trim to the bodies' text. */
  lemma CleanedMultiText(kept: seq<string>, bodies: seq<string>)
    requires |bodies| > 0 && |kept| >= |bodies| + 2
    requires kept[0] == "" && forall k | 0 <= k < |bodies| :: kept[1 + k] == bodies[k]
    requires forall k | 2 + |bodies| <= k < |kept| :: IsBlank(kept[k])
    ensures TrimSpace(Join(kept[1 + |bodies| := ""], "\n")) == TrimSpace(Join(bodies, "\n"))
  {
    var cleaned := kept[1 + |bodies| := ""];
    var rest := cleaned[1 + |bodies|..];
    forall k | 0 <= k < |rest| ensures IsBlank(rest[k]) {
      assert rest[k] == cleaned[1 + |bodies| + k];
    }
    assert cleaned == [""] + (bodies + rest);
    JoinAppend([""], bodies + rest, "\n");
    assert Join(cleaned, "\n") == "\n" + Join(bodies + rest, "\n") + "";
    TrimSpaceAround("\n", Join(bodies + rest, "\n"), "");
    TrailingBlankLines(bodies, rest);
  }

  /** languageLineCommentDelim; a language missing from the table gets "". */
  function LineCommentDelim(lang: Language): string {
    match lang
    case Shell => "#"
    case CLI => "#"
    case Python => "#"
    case Ruby => "#"
    case Elixir => "#"
    case CSharp => "///"
    case Other(_) => ""
    case _ => "//"
  }

  /**
   * What renderBlock hands on: the entry kind, the text given to the syntax
   * highlighter (code) or the Markdown renderer (comments), and the comment
   * indentation.
   */
  datatype Rendered = Rendered(kind: string, text: string, prefix: string)

  function RenderBlock(lang: Language, b: Block): Result<Rendered, CleanError> {
    match b.kind
    case CodeBlock => Ok(Rendered("code", Join(b.lines, "\n"), ""))
    case SingleLineCommentBlock =>
      (match CleanSingle(b.lines, LineCommentDelim(lang))
       case Err(e) => Err(e)
       case Ok((text, indent)) => Ok(Rendered("comment", text, indent)))
    case MultiLineCommentBlock =>
      (match CleanMulti(b.lines)
       case Err(e) => Err(e)
       case Ok((text, indent)) => Ok(Rendered("comment", text, indent)))
    case EmptyBlock => Ok(Rendered("", "", ""))
  }

  /**
   * Code blocks render as "code", both comment kinds as "comment", an Empty
   * block as "". The comment cleaners' panics are error results; the
   * highlighting error of a code block (cmd/nbe/docs.go:418-421) is left out
   * with syntax highlighting, so a code block never fails here. A code
   * block's text splits back into its lines.
   */
  lemma RenderKinds(lang: Language, b: Block)
    ensures b.kind == CodeBlock || b.kind == EmptyBlock ==> RenderBlock(lang, b).Ok?
    ensures RenderBlock(lang, b).Ok? ==>
      (RenderBlock(lang, b).value.kind == "code" <==> b.kind == CodeBlock)
      && (RenderBlock(lang, b).value.kind == "comment" <==> b.kind in {SingleLineCommentBlock, MultiLineCommentBlock})
      && (RenderBlock(lang, b).value.kind == "" <==> b.kind == EmptyBlock)
    ensures b.kind == CodeBlock && |b.lines| > 0 && (forall k | 0 <= k < |b.lines| :: '\n' !in b.lines[k]) ==>
      Split(RenderBlock(lang, b).value.text, '\n') == b.lines
  {
    if b.kind == CodeBlock && |b.lines| > 0 && (forall k | 0 <= k < |b.lines| :: '\n' !in b.lines[k]) {
      assert "\n" == ['\n'];
      SplitJoin(b.lines, '\n');
    }
  }

  /** The entry rendered for a code-first client before its blocks: an empty comment. */
  const LeadingComment: Rendered := Rendered("comment", "", "")

  /** renderBlock for the language of a client. */
  function Renderer(lang: Language): Block -> Result<Rendered, CleanError> {
    b => RenderBlock(lang, b)
  }

  /** The blocks rendered in order, stopping at the first that fails. */
  function RenderAll(render: Block -> Result<Rendered, CleanError>, blocks: seq<Block>): Result<seq<Rendered>, CleanError> {
    if |blocks| == 0 then Ok([])
    else
      match RenderAll(render, blocks[..|blocks| - 1])
      case Err(e) => Err(e)
      case Ok(rs) =>
        match render(blocks[|blocks| - 1])
        case Err(e) => Err(e)
        case Ok(x) => Ok(rs + [x])
  }

  /**
   * What the rendering loop of generateDocs yields for one client: an empty
   * comment entry first when the first block is code, then the rendered
   * blocks.
   */
  function RenderClientSpec(lang: Language, blocks: seq<Block>): Result<seq<Rendered>, CleanError>
    requires |blocks| > 0
  {
    match RenderAll(Renderer(lang), blocks)
    case Err(e) => Err(e)
    case Ok(rs) => Ok((if blocks[0].kind == CodeBlock then [LeadingComment] else []) + rs)
  }

  /**
   * The rendering loop of generateDocs for one client: the leading comment
   * entry, then the loop over the blocks with renderBlock for the client's
   * language.
   */
  method RenderClient(lang: Language, blocks: seq<Block>) returns (r: Result<seq<Rendered>, CleanError>)
    requires |blocks| > 0
    ensures r == RenderClientSpec(lang, blocks)
  {
    var rblocks: seq<Rendered> := [];
    if blocks[0].kind == CodeBlock {
      rblocks := [LeadingComment];
    }
    r := RenderEach(Renderer(lang), blocks, rblocks);
  }

  /** The loop over the blocks: each rendered entry is appended, and the first failure is returned. */
  method RenderEach(render: Block -> Result<Rendered, CleanError>, blocks: seq<Block>, head: seq<Rendered>)
    returns (r: Result<seq<Rendered>, CleanError>)
    ensures r == match RenderAll(render, blocks) case Err(e) => Err(e) case Ok(rs) => Ok(head + rs)
  {
    var rblocks := head;
    var i := 0;
    assert blocks[..0] == [] && rblocks[|head|..] == [];
    while i < |blocks|
      invariant i <= |blocks| && |head| <= |rblocks| && rblocks[..|head|] == head
      invariant RenderAll(render, blocks[..i]) == Ok(rblocks[|head|..])
    {
      assert blocks[..i + 1][..i] == blocks[..i];
      var rb := render(blocks[i]);
      if rb.Err? {
        assert RenderAll(render, blocks[..i + 1]) == Err(rb.error);
        RenderAllFails(render, blocks, i + 1);
        return Err(rb.error);
      }
      assert (rblocks + [rb.value])[|head|..] == rblocks[|head|..] + [rb.value];
      rblocks := rblocks + [rb.value];
      i := i + 1;
    }
    assert blocks[..i] == blocks;
    assert rblocks == head + rblocks[|head|..];
    return Ok(rblocks);
  }

  /** A failure on a prefix of the blocks is the failure of all of them. */
  lemma {:induction false} RenderAllFails(render: Block -> Result<Rendered, CleanError>, blocks: seq<Block>, n: nat)
    requires n <= |blocks| && RenderAll(render, blocks[..n]).Err?
    ensures RenderAll(render, blocks) == RenderAll(render, blocks[..n])
    decreases |blocks|
  {
    if n < |blocks| {
      var init := blocks[..|blocks| - 1];
      assert init[..n] == blocks[..n];
      RenderAllFails(render, init, n);
    } else {
      assert blocks[..n] == blocks;
    }
  }

  /**
   * The loop succeeds exactly when every block renders, with one entry per
   * block in order; otherwise it returns the error of the first block that
   * fails.
   */
  lemma {:induction false} RenderAllSpec(render: Block -> Result<Rendered, CleanError>, blocks: seq<Block>)
    ensures RenderAll(render, blocks).Ok? <==> forall i | 0 <= i < |blocks| :: render(blocks[i]).Ok?
    ensures RenderAll(render, blocks).Ok? ==>
      |RenderAll(render, blocks).value| == |blocks|
      && forall i | 0 <= i < |blocks| :: render(blocks[i]) == Ok(RenderAll(render, blocks).value[i])
    ensures RenderAll(render, blocks).Err? ==> exists i | 0 <= i < |blocks| ::
      render(blocks[i]) == Err(RenderAll(render, blocks).error)
      && forall j | 0 <= j < i :: render(blocks[j]).Ok?
  {
    if |blocks| > 0 {
      var init := blocks[..|blocks| - 1];
      RenderAllSpec(render, init);
      forall j | 0 <= j < |init| ensures blocks[j] == init[j] {}
    }
  }

  /** A client whose blocks all render gets a first entry that is never code. */
  lemma RenderedStartsWithComment(lang: Language, blocks: seq<Block>)
    requires |blocks| > 0 && RenderClientSpec(lang, blocks).Ok?
    ensures |RenderClientSpec(lang, blocks).value| > 0
    ensures RenderClientSpec(lang, blocks).value[0].kind != "code"
  {
    RenderAllSpec(Renderer(lang), blocks);
    RenderKinds(lang, blocks[0]);
  }

  /** The language tabs of an example page, in this order. */
  const LanguageOrder: seq<Language> := [CLI, Go, Python, Deno, Node, Rust, CSharp, Java, Ruby, Elixir, C]

  /** availableLanguages: the label of each language; "" for a language missing from the table. */
  function Label(l: Language): string {
    match l
    case CSharp => "C#"
    case Shell => "Shell"
    case CLI => "CLI"
    case Go => "Go"
    case Rust => "Rust"
    case Java => "Java"
    case Deno => "Deno"
    case Node => "Node"
    case Bun => "Bun"
    case WebSocket => "WebSocket"
    case C => "C"
    case Python => "Python"
    case Ruby => "Ruby"
    case Elixir => "Elixir"
    case Other(_) => ""
  }

  /** A client of an example, as the page generator sees it. */
  datatype Client = Client(language: Language, path: string)

  /**
   * The index page's link for an example: the path of the client named by
   * the first language in LanguageOrder that the example has, or "".
   */
  method IndexLinkPath(clients: map<string, Client>) returns (path: string)
    ensures (exists i | 0 <= i < |LanguageOrder| ::
                Name(LanguageOrder[i]) in clients
                && path == clients[Name(LanguageOrder[i])].path
                && forall j | 0 <= j < i :: Name(LanguageOrder[j]) !in clients)
            || (path == "" && forall i | 0 <= i < |LanguageOrder| :: Name(LanguageOrder[i]) !in clients)
  {
    path := "";
    var i := 0;
    while i < |LanguageOrder|
      invariant i <= |LanguageOrder|
      invariant path == "" && forall j | 0 <= j < i :: Name(LanguageOrder[j]) !in clients
    {
      var k := Name(LanguageOrder[i]);
      if k in clients {
        path := clients[k].path;
        return;
      }
      i := i + 1;
    }
  }

  datatype LanguageLink = LanguageLink(name: string, tabLabel: string, path: string)

  /**
   * The language links of an example page: one per entry of LanguageOrder,
   * in order, with the path of a client in that language, or "" when the
   * example has none.
   */
  method LanguageLinks(clients: map<string, Client>) returns (links: seq<LanguageLink>)
    ensures |links| == |LanguageOrder|
    ensures forall i | 0 <= i < |links| ::
      links[i].name == Name(LanguageOrder[i]) && links[i].tabLabel == Label(LanguageOrder[i])
    ensures forall i | 0 <= i < |links| ::
      (exists k | k in clients :: clients[k].language == LanguageOrder[i] && links[i].path == clients[k].path)
      || (links[i].path == "" && forall k | k in clients :: clients[k].language != LanguageOrder[i])
  {
    links := seq(|LanguageOrder|, _ => LanguageLink("", "", ""));
    var i := 0;
    while i < |LanguageOrder|
      invariant i <= |LanguageOrder| && |links| == |LanguageOrder|
      invariant forall j | 0 <= j < i ::
        links[j].name == Name(LanguageOrder[j]) && links[j].tabLabel == Label(LanguageOrder[j])
      invariant forall j | 0 <= j < i ::
        (exists k | k in clients :: clients[k].language == LanguageOrder[j] && links[j].path == clients[k].path)
        || (links[j].path == "" && forall k | k in clients :: clients[k].language != LanguageOrder[j])
    {
      var n := LanguageOrder[i];
      var l := LanguageLink(Name(n), Label(n), "");
      // Any client in the language: Go ranges over a map, in no fixed order.
      if exists k :: k in clients && clients[k].language == n {
        var k :| k in clients && clients[k].language == n;
        l := l.(path := clients[k].path);
      }
      links := links[i := l];
      i := i + 1;
    }
  }
}
