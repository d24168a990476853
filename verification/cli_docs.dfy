/**
 * The comment and code cleaners of the older `cli` documentation generator
 * (cli/docs.go). Unlike the `nbe` cleaners they do not strip a common
 * prefix taken from the first line: they remove the smallest indentation
 * (the match of `^(\s+)`) found across the lines.
 */
module CliDocs {
  import opened Wrappers
  import opened Strs
  import opened Segment
  import NbeDocs

  /** The length of the match of wsRe, `^(\s+)`; 0 when it does not match. */
  function Indent(l: string): (n: nat)
    ensures n <= |l|
  {
    ReSpacePrefix(l);
    ReSpacePrefixLen(l)
  }

  /** A line no `\s` rune starts has no indentation. */
  lemma NoIndent(l: string)
    requires |l| == 0 || !IsReSpace(l[0])
    ensures Indent(l) == 0
  {
    ReSpacePrefixLenIs(l, 0);
  }

  predicate AllReSpace(s: string) {
    forall i | 0 <= i < |s| :: IsReSpace(s[i])
  }

  /** Indentation in front of a line adds to its indentation. */
  lemma IndentConcat(ws: string, b: string)
    requires AllReSpace(ws)
    ensures Indent(ws + b) == |ws| + Indent(b)
  {
    var n := |ws| + Indent(b);
    ReSpacePrefix(b);
    assert forall k | 0 <= k < n :: IsReSpace((ws + b)[k]) by {
      forall k | 0 <= k < n ensures IsReSpace((ws + b)[k]) {
        if k >= |ws| {
          assert (ws + b)[k] == b[k - |ws|];
        }
      }
    }
    assert n == |ws + b| || (ws + b)[n] == b[Indent(b)];
    ReSpacePrefixLenIs(ws + b, n);
  }

  /** An RE2 `\s` rune is a unicode.IsSpace rune. */
  lemma ReSpaceIsSpace(s: string)
    requires AllReSpace(s)
    ensures IsBlank(s)
  {
  }

  /**
   * One update of an offset loop: -1 means that no line has been looked at;
   * a line wsRe does not match forces 0; otherwise the smaller indentation wins.
   */
  function Lower(offset: int, o: nat): int {
    if o == 0 then 0 else if offset == -1 || o < offset then o else offset
  }

  /** Whether an offset loop looks at `l`: every line, or with `skipBlank` only those strings.TrimSpace does not empty. */
  predicate Counted(l: string, skipBlank: bool) {
    !skipBlank || !IsBlank(l)
  }

  /** The offset after a loop has looked at `ls`. */
  function MinIndent(ls: seq<string>, skipBlank: bool): (r: int)
    ensures r >= -1
  {
    if |ls| == 0 then -1
    else
      var m := MinIndent(ls[..|ls| - 1], skipBlank);
      var l := ls[|ls| - 1];
      if Counted(l, skipBlank) then Lower(m, Indent(l)) else m
  }

  /**
   * The offset is -1 exactly when no line is counted, and otherwise the least
   * indentation of a counted line.
   */
  lemma {:induction false} MinIndentSpec(ls: seq<string>, skipBlank: bool)
    ensures MinIndent(ls, skipBlank) == -1 <==> forall k | 0 <= k < |ls| :: !Counted(ls[k], skipBlank)
    ensures MinIndent(ls, skipBlank) >= 0 ==>
      forall k | 0 <= k < |ls| && Counted(ls[k], skipBlank) :: MinIndent(ls, skipBlank) <= Indent(ls[k])
    ensures MinIndent(ls, skipBlank) >= 0 ==>
      exists k | 0 <= k < |ls| && Counted(ls[k], skipBlank) :: MinIndent(ls, skipBlank) == Indent(ls[k])
  {
    if |ls| > 0 {
      var init := ls[..|ls| - 1];
      MinIndentSpec(init, skipBlank);
      assert forall k | 0 <= k < |init| :: init[k] == ls[k];
    }
  }

  lemma MinIndentSnoc(ls: seq<string>, l: string, skipBlank: bool)
    ensures MinIndent(ls + [l], skipBlank) ==
      if Counted(l, skipBlank) then Lower(MinIndent(ls, skipBlank), Indent(l)) else MinIndent(ls, skipBlank)
  {
    assert (ls + [l])[..|ls|] == ls;
  }

  // cleanSingleCommentLines

  /** The first loop's line: the leading `\s` run removed, then one "//". */
  function StripComment(l: string): string {
    TrimPrefix(DropReSpace(l), "//")
  }

  function StrippedLines(lines: seq<string>): seq<string> {
    seq(|lines|, k requires 0 <= k < |lines| => StripComment(lines[k]))
  }

  /** Whether the dedent loop leaves `l` alone: an empty line, or with `skipBlank` any blank line. */
  predicate Kept(l: string, skipBlank: bool) {
    if skipBlank then IsBlank(l) else l == ""
  }

  /** The dedent loop: every line it does not leave alone loses its first `off` runes. */
  function Dedent(ls: seq<string>, off: int, skipBlank: bool): seq<string>
    requires forall k | 0 <= k < |ls| :: Kept(ls[k], skipBlank) || 0 <= off <= |ls[k]|
  {
    seq(|ls|, k requires 0 <= k < |ls| => if Kept(ls[k], skipBlank) then ls[k] else ls[k][off..])
  }

  /**
   * cleanSingleCommentLines as written: the offset counts every stripped
   * line, so one empty line (an empty comment, a blank line) makes it 0.
   */
  function CleanSingleAsWritten(lines: seq<string>): string {
    var ls := StrippedLines(lines);
    MinIndentSpec(ls, false);
    TrimSpace(Join(Dedent(ls, MinIndent(ls, false), false), "\n"))
  }

  /** cleanSingleCommentLines with blank lines left out of the offset and of the dedent. */
  function CleanSingle(lines: seq<string>): string {
    var ls := StrippedLines(lines);
    MinIndentSpec(ls, true);
    TrimSpace(Join(Dedent(ls, MinIndent(ls, true), true), "\n"))
  }

  method CleanSingleCommentLines(lines: seq<string>) returns (text: string)
    ensures text == CleanSingleAsWritten(lines)
  {
    var stripped, offset := StripLines(lines);
    MinIndentSpec(stripped, false);
    var cleaned := DedentLines(stripped, offset);
    text := TrimSpace(Join(cleaned, "\n"));
  }

  /** The first loop of cleanSingleCommentLines: strip every line and track the offset. */
  method StripLines(lines: seq<string>) returns (cleaned: seq<string>, offset: int)
    ensures cleaned == StrippedLines(lines) && offset == MinIndent(cleaned, false)
  {
    cleaned := [];
    offset := -1;
    for i := 0 to |lines|
      invariant |cleaned| == i
      invariant forall j | 0 <= j < i :: cleaned[j] == StripComment(lines[j])
      invariant offset == MinIndent(cleaned, false)
    {
      var l := DropReSpace(lines[i]);
      l := TrimPrefix(l, "//");
      var o := Indent(l);
      MinIndentSnoc(cleaned, l, false);
      if o == 0 {
        offset := 0;
      } else if offset == -1 || o < offset {
        offset := o;
      }
      cleaned := cleaned + [l];
    }
  }

  /** The second loop of cleanSingleCommentLines: every non-empty line loses its first `offset` runes. */
  method DedentLines(stripped: seq<string>, offset: int) returns (cleaned: seq<string>)
    requires forall j | 0 <= j < |stripped| :: Kept(stripped[j], false) || 0 <= offset <= |stripped[j]|
    ensures cleaned == Dedent(stripped, offset, false)
  {
    cleaned := stripped;
    for i := 0 to |cleaned|
      invariant |cleaned| == |stripped|
      invariant forall j | 0 <= j < |cleaned| ::
        cleaned[j] == if j < i && stripped[j] != "" then stripped[j][offset..] else stripped[j]
    {
      if cleaned[i] == "" {
        continue;
      }
      cleaned := cleaned[i := cleaned[i][offset..]];
    }
  }

  /** A line comment as written: indentation, "//", then one space and the body unless the body is empty. */
  function LineComment(ws: string, body: string): string {
    if body == "" then ws + "//" else ws + "// " + body
  }

  /**
   * Every line is a line comment of its body behind `\s` indentation of its
   * own, or bare indentation standing for an empty body; no body starts with
   * white space.
   */
  predicate WrittenLineComments(lines: seq<string>, ws: seq<string>, bodies: seq<string>) {
    |lines| == |ws| == |bodies|
    && forall k | 0 <= k < |lines| ::
      AllReSpace(ws[k]) && (bodies[k] == "" || !IsSpace(bodies[k][0]))
      && (lines[k] == LineComment(ws[k], bodies[k]) || (lines[k] == ws[k] && bodies[k] == ""))
  }

  /** A written line strips to its body behind one space, or to "" for an empty body. */
  lemma StripWritten(l: string, ws: string, body: string)
    requires AllReSpace(ws) && (body == "" || !IsSpace(body[0]))
    requires l == LineComment(ws, body) || (l == ws && body == "")
    ensures StripComment(l) == if body == "" then "" else " " + body
  {
    var rest := if body == "" then "" else " " + body;
    if l == ws {
      ReSpacePrefixLenIs(ws, |ws|);
      assert DropReSpace(l) == "";
    } else {
      assert l == ws + ("//" + rest);
      ReSpacePrefixLenIs(l, |ws|);
      assert DropReSpace(l) == "//" + rest;
      TrimPrefixConcat("//", rest);
    }
  }

  /**
   * Round trip: written line comments clean to the trimmed join of their
   * bodies. This is what cli/docs_test.go expects of cleanSingleCommentLines.
   */
  lemma CleanSingleUncomments(lines: seq<string>, ws: seq<string>, bodies: seq<string>)
    requires WrittenLineComments(lines, ws, bodies)
    ensures CleanSingle(lines) == TrimSpace(Join(bodies, "\n"))
  {
    var ls := StrippedLines(lines);
    forall k | 0 <= k < |ls|
      ensures ls[k] == (if bodies[k] == "" then "" else " " + bodies[k])
      ensures bodies[k] != "" ==> !IsBlank(ls[k]) && Indent(ls[k]) == 1
    {
      StripWritten(lines[k], ws[k], bodies[k]);
      if bodies[k] != "" {
        assert ls[k][1] == bodies[k][0];
        IndentConcat(" ", bodies[k]);
        NoIndent(bodies[k]);
      }
    }
    var off := MinIndent(ls, true);
    MinIndentSpec(ls, true);
    assert off == -1 || off == 1;
    assert Dedent(ls, off, true) == bodies;
  }

  /**
   * As written, written line comments with one empty body clean to the bodies
   * still behind their one space, except where TrimSpace takes it off the
   * first line.
   */
  lemma CleanSingleAsWrittenKeepsSpace(lines: seq<string>, ws: seq<string>, bodies: seq<string>, e: nat)
    requires WrittenLineComments(lines, ws, bodies)
    requires e < |bodies| && bodies[e] == ""
    ensures CleanSingleAsWritten(lines) == TrimSpace(Join(StrippedLines(lines), "\n"))
    ensures forall k | 0 <= k < |lines| :: StrippedLines(lines)[k] == if bodies[k] == "" then "" else " " + bodies[k]
  {
    var ls := StrippedLines(lines);
    forall k | 0 <= k < |ls|
      ensures ls[k] == (if bodies[k] == "" then "" else " " + bodies[k])
    {
      StripWritten(lines[k], ws[k], bodies[k]);
    }
    NoIndent(ls[e]);
    MinIndentSpec(ls, false);
    assert MinIndent(ls, false) == 0;
    assert Dedent(ls, 0, false) == ls;
  }

  /**
   * The discrepancy: two comment lines and the blank line after them clean to
   * "a\n b" as written, where "a\nb" is meant.
   */
  lemma CleanSingleEmptyLineCounterexample()
    ensures CleanSingleAsWritten(["// a", "// b", ""]) == "a\n b"
    ensures CleanSingle(["// a", "// b", ""]) == "a\nb"
  {
    ExampleStripped();
    ExampleAsWritten();
    ExampleIntended();
  }

  lemma ExampleStripped()
    ensures StrippedLines(["// a", "// b", ""]) == [" a", " b", ""]
  {
    var lines := ["// a", "// b", ""];
    StripWritten(lines[0], "", "a");
    StripWritten(lines[1], "", "b");
    StripWritten(lines[2], "", "");
  }

  lemma ExampleAsWritten()
    requires StrippedLines(["// a", "// b", ""]) == [" a", " b", ""]
    ensures CleanSingleAsWritten(["// a", "// b", ""]) == "a\n b"
  {
    var ls := [" a", " b", ""];
    NoIndent("");
    assert ls[..2] == [" a", " b"];
    assert MinIndent(ls, false) == 0;
    assert Dedent(ls, 0, false) == ls;
    TrimmedJoin(" a", " b", " ", "a\n b");
  }

  lemma ExampleIntended()
    requires StrippedLines(["// a", "// b", ""]) == [" a", " b", ""]
    ensures CleanSingle(["// a", "// b", ""]) == "a\nb"
  {
    var ls := [" a", " b", ""];
    ExampleOffset();
    assert " a"[1] == 'a' && " b"[1] == 'b';
    assert Dedent(ls, 1, true) == ["a", "b", ""];
    TrimmedJoin("a", "b", "", "a\nb");
  }

  lemma ExampleOffset()
    ensures MinIndent([" a", " b", ""], true) == 1
  {
    var ls := [" a", " b", ""];
    IndentConcat(" ", "a");
    NoIndent("a");
    IndentConcat(" ", "b");
    NoIndent("b");
    assert " a"[1] == 'a' && " b"[1] == 'b';
    assert ls[..2] == [" a", " b"] && [" a", " b"][..1] == [" a"] && [" a"][..0] == [];
    assert MinIndent([" a"], true) == 1;
    assert MinIndent([" a", " b"], true) == 1;
  }

  /** The trimmed join of two lines and an empty one, when the first line is `pad` and then the start of `text`. */
  lemma TrimmedJoin(x: string, y: string, pad: string, text: string)
    requires IsBlank(pad) && |x| > |pad| && x[..|pad|] == pad && text == x[|pad|..] + "\n" + y
    requires !IsSpace(x[|pad|]) && |y| > 0 && !IsSpace(y[|y| - 1])
    ensures TrimSpace(Join([x, y, ""], "\n")) == text
  {
    JoinThree(x, y, "");
    assert x + "\n" + y + "\n" + "" == pad + text + "\n";
    TrimSpaceAround(pad, text, "\n");
    TrimSpaceFixed(text);
  }

  lemma JoinThree(x: string, y: string, z: string)
    ensures Join([x, y, z], "\n") == x + "\n" + y + "\n" + z
  {
    assert [x, y, z][1..] == [y, z];
    assert [y, z][1..] == [z];
    assert Join([y, z], "\n") == y + "\n" + z;
  }

  /** A string whose ends are not white space is its own TrimSpace. */
  lemma TrimSpaceFixed(s: string)
    requires |s| > 0 && !IsSpace(s[0]) && !IsSpace(s[|s| - 1])
    ensures TrimSpace(s) == s
  {
  }

  // cleanMultiCommentLines

  /** The two panics of cleanMultiCommentLines: no line holds an opener, or the last non-blank line holds no closer. */
  datatype MultiError = NoOpener | NoCloser

  function OpenerFrom(lines: seq<string>, i: nat): (r: Option<nat>)
    ensures r.Some? ==>
      (i <= r.value < |lines| && Contains(lines[r.value], "/*") && forall j | i <= j < r.value :: !Contains(lines[j], "/*"))
    ensures r.None? ==> forall j | i <= j < |lines| :: !Contains(lines[j], "/*")
    decreases |lines| - i
  {
    if i >= |lines| then None
    else if Contains(lines[i], "/*") then Some(i)
    else OpenerFrom(lines, i + 1)
  }

  /** The index of the first line holding an opener. */
  function Opener(lines: seq<string>): Option<nat> {
    OpenerFrom(lines, 0)
  }

  /** The opening line from just after its first opener. */
  function AfterOpener(l: string): string {
    var i := Index(l, "/*");
    IndexBounds(l, "/*");
    if i < 0 then l else l[i + 2..]
  }

  /**
   * The lines as the first loop looks at them for the offset: all of them,
   * the discarded ones before the opener included, with the opening line cut.
   */
  function SeenLines(lines: seq<string>, first: Option<nat>): seq<string> {
    seq(|lines|, k requires 0 <= k < |lines| => if first == Some(k) then AfterOpener(lines[k]) else lines[k])
  }

  /** The dedent loop: every non-blank line loses its first `off` runes and its trailing spaces. */
  function DedentTrim(ls: seq<string>, off: int): seq<string>
    requires forall k | 0 <= k < |ls| :: IsBlank(ls[k]) || 0 <= off <= |ls[k]|
  {
    seq(|ls|, k requires 0 <= k < |ls| => DedentTrimLine(ls[k], off))
  }

  function DedentTrimLine(l: string, off: int): string
    requires IsBlank(l) || 0 <= off <= |l|
  {
    if IsBlank(l) then l else TrimRightChar(l[off..], ' ')
  }

  /**
   * cleanMultiCommentLines: the lines from the opening one are kept, that
   * one cut after its opener; the offset is the least indentation of a
   * non-blank line looked at, kept or not; the non-blank kept lines are
   * dedented and right-trimmed; the last non-blank kept line (the first when
   * all are blank) is cut at its first closer; the "\n"-join is trimmed.
   */
  function CleanMulti(lines: seq<string>): Result<string, MultiError> {
    var first := Opener(lines);
    var seen := SeenLines(lines, first);
    var offset := MinIndent(seen, true);
    MinIndentSpec(seen, true);
    match first
    case None => Err(NoOpener)
    case Some(f) =>
      var kept := seen[f..];
      assert forall k | 0 <= k < |kept| :: kept[k] == seen[f + k];
      var cleaned := DedentTrim(kept, offset);
      var last := LastNonBlank(kept);
      var cut := Index(cleaned[last], "*/");
      IndexBounds(cleaned[last], "*/");
      if cut < 0 then Err(NoCloser)
      else Ok(TrimSpace(Join(cleaned[last := cleaned[last][..cut]], "\n")))
  }

  /** One step of the first loop, for the line at index `i`. */
  method LookAt(lines: seq<string>, i: nat, firstLine: int, cleaned: seq<string>, ghost seen: seq<string>)
    returns (l: string, firstLine': int, cleaned': seq<string>)
    requires i < |lines| && |seen| == i && firstLine >= -1
    requires firstLine == -1 ==> cleaned == [] && forall j | 0 <= j < i :: !Contains(lines[j], "/*")
    requires firstLine >= 0 ==> firstLine < i && Opener(lines) == Some(firstLine) && cleaned == seen[firstLine..]
    requires forall j | 0 <= j < i :: seen[j] == SeenLines(lines, Opener(lines))[j]
    ensures l == SeenLines(lines, Opener(lines))[i]
    ensures firstLine' >= -1
    ensures firstLine' == -1 ==> cleaned' == [] && forall j | 0 <= j <= i :: !Contains(lines[j], "/*")
    ensures firstLine' >= 0 ==> firstLine' <= i && Opener(lines) == Some(firstLine') && cleaned' == (seen + [l])[firstLine'..]
  {
    l := lines[i];
    firstLine', cleaned' := firstLine, cleaned;
    if firstLine == -1 {
      var idx := Index(l, "/*");
      if idx >= 0 {
        IndexBounds(l, "/*");
        assert Opener(lines) == Some(i) by {
          assert Contains(lines[i], "/*");
          var o := Opener(lines);
          assert o.Some? && o.value >= i;
        }
        l := l[idx + 2..];
        firstLine' := i;
        cleaned' := cleaned + [l];
      }
    } else {
      cleaned' := cleaned + [l];
    }
  }

  method CleanMultiCommentLines(lines: seq<string>) returns (r: Result<string, MultiError>)
    ensures r == CleanMulti(lines)
  {
    var firstLine, cleaned, offset := FindOpener(lines);
    if firstLine == -1 {
      return Err(NoOpener);
    }
    ghost var seen := SeenLines(lines, Opener(lines));
    ghost var kept := cleaned;
    assert kept == seen[firstLine..];
    MinIndentSpec(seen, true);
    assert |cleaned| > 0;
    forall j | 0 <= j < |cleaned| ensures IsBlank(cleaned[j]) || 0 <= offset <= |cleaned[j]| {
      assert cleaned[j] == seen[firstLine + j];
      if !IsBlank(cleaned[j]) {
        assert Counted(seen[firstLine + j], true);
      }
    }
    var lastIdx;
    cleaned, lastIdx := DedentTrimLines(cleaned, offset);
    var last := cleaned[lastIdx];
    var index := Index(last, "*/");
    IndexBounds(last, "*/");
    r := if index < 0 then Err(NoCloser) else Ok(TrimSpace(Join(cleaned[lastIdx := last[..index]], "\n")));
    assert CleanMulti(lines) == r by {
      assert Opener(lines) == Some(firstLine as nat);
    }
  }

  /**
   * The first loop of cleanMultiCommentLines: find the opening line, keep
   * the lines from it on, and track the offset over every line looked at.
   */
  method FindOpener(lines: seq<string>) returns (firstLine: int, cleaned: seq<string>, offset: int)
    ensures firstLine >= -1 && (firstLine == -1 <==> Opener(lines).None?)
    ensures firstLine >= 0 ==>
      Opener(lines) == Some(firstLine) && cleaned == SeenLines(lines, Opener(lines))[firstLine..]
    ensures offset == MinIndent(SeenLines(lines, Opener(lines)), true)
  {
    offset := -1;
    firstLine := -1;
    cleaned := [];
    ghost var seen: seq<string> := [];
    for i := 0 to |lines|
      invariant |seen| == i
      invariant forall j | 0 <= j < i :: seen[j] == SeenLines(lines, Opener(lines))[j]
      invariant firstLine >= -1
      invariant firstLine == -1 ==> cleaned == [] && forall j | 0 <= j < i :: !Contains(lines[j], "/*")
      invariant firstLine >= 0 ==> firstLine < i && Opener(lines) == Some(firstLine) && cleaned == seen[firstLine..]
      invariant offset == MinIndent(seen, true)
    {
      var l;
      l, firstLine, cleaned := LookAt(lines, i, firstLine, cleaned, seen);
      offset := LowerByLine(offset, l, seen);
      seen := seen + [l];
    }
    assert seen == SeenLines(lines, Opener(lines));
  }

  /** One step of an offset loop that skips blank lines: a line strings.TrimSpace does not empty can lower it. */
  method LowerByLine(offset: int, l: string, ghost seen: seq<string>) returns (offset': int)
    requires offset == MinIndent(seen, true)
    ensures offset' == MinIndent(seen + [l], true)
  {
    MinIndentSnoc(seen, l, true);
    TrimSpaceEmpty(l);
    offset' := offset;
    if TrimSpace(l) != "" {
      var o := Indent(l);
      if o == 0 {
        offset' := 0;
      } else if offset == -1 || o < offset {
        offset' := o;
      }
    }
  }

  /**
   * The second loop of cleanMultiCommentLines: dedent and right-trim the
   * non-blank lines, and find the last of them.
   */
  method DedentTrimLines(kept: seq<string>, offset: int) returns (cleaned: seq<string>, lastIdx: nat)
    requires |kept| > 0
    requires forall j | 0 <= j < |kept| :: IsBlank(kept[j]) || 0 <= offset <= |kept[j]|
    ensures cleaned == DedentTrim(kept, offset) && lastIdx == LastNonBlank(kept)
  {
    cleaned := kept;
    lastIdx := 0;
    for i := 0 to |cleaned|
      invariant |cleaned| == |kept|
      invariant forall j | 0 <= j < |cleaned| ::
        cleaned[j] == if j < i then DedentTrimLine(kept[j], offset) else kept[j]
      invariant lastIdx == LastBefore(kept, i)
    {
      var blank;
      cleaned, blank := DedentTrimAt(cleaned, i, offset);
      if !blank {
        lastIdx := i;
      }
    }
    LastBeforeAll(kept);
  }

  /** One step of the second loop: a blank line is skipped, any other dedented and right-trimmed. */
  method DedentTrimAt(cleaned: seq<string>, i: nat, offset: int) returns (cleaned': seq<string>, blank: bool)
    requires i < |cleaned| && (IsBlank(cleaned[i]) || 0 <= offset <= |cleaned[i]|)
    ensures cleaned' == cleaned[i := DedentTrimLine(cleaned[i], offset)]
    ensures blank == IsBlank(cleaned[i])
  {
    TrimSpaceEmpty(cleaned[i]);
    if TrimSpace(cleaned[i]) == "" {
      return cleaned, true;
    }
    cleaned' := cleaned[i := TrimRightChar(cleaned[i][offset..], ' ')];
    blank := false;
  }

  /** The index of the last non-blank line before `i`; 0 when there is none. */
  function LastBefore(ls: seq<string>, i: nat): nat
    requires i <= |ls|
  {
    if i == 0 then 0 else if !IsBlank(ls[i - 1]) then i - 1 else LastBefore(ls, i - 1)
  }

  lemma {:induction false} LastBeforeAll(ls: seq<string>)
    requires |ls| > 0
    ensures LastBefore(ls, |ls|) == LastNonBlank(ls)
  {
    if |ls| > 1 && IsBlank(ls[|ls| - 1]) {
      var init := ls[..|ls| - 1];
      LastBeforeAll(init);
      LastBeforeAgree(ls, init, |init|);
    }
  }

  /** LastBefore only looks at the lines before `i`. */
  lemma {:induction false} LastBeforeAgree(ls: seq<string>, ms: seq<string>, i: nat)
    requires i <= |ls| && i <= |ms| && forall k | 0 <= k < i :: ls[k] == ms[k]
    ensures LastBefore(ls, i) == LastBefore(ms, i)
  {
    if i > 0 {
      LastBeforeAgree(ls, ms, i - 1);
    }
  }

  /**
   * A written block comment: after `lead` blank lines, the indentation and
   * the opener, one line per body behind the same indentation, the
   * indentation and the closer, then only blank lines.
   */
  predicate WrittenBlockComment(lines: seq<string>, lead: nat, ws: string, bodies: seq<string>) {
    lead + |bodies| + 2 <= |lines|
    && (forall k | 0 <= k < lead :: IsBlank(lines[k]))
    && lines[lead] == ws + "/*"
    && (forall k | 0 <= k < |bodies| :: lines[lead + 1 + k] == ws + bodies[k])
    && lines[lead + 1 + |bodies|] == ws + "*/"
    && (forall k | lead + |bodies| + 2 <= k < |lines| :: IsBlank(lines[k]))
  }

  /** A blank line holds no opener. */
  lemma BlankNoOpener(l: string)
    requires IsBlank(l)
    ensures !Contains(l, "/*")
  {
    IndexMissingHead(l, "/*");
  }

  /** The lines a written block comment shows the offset loop. */
  lemma SeenWritten(lines: seq<string>, lead: nat, ws: string, bodies: seq<string>, seen: seq<string>)
    requires WrittenBlockComment(lines, lead, ws, bodies) && AllReSpace(ws)
    requires seen == SeenLines(lines, Some(lead))
    ensures Opener(lines) == Some(lead)
    ensures |seen| == |lines|
    ensures forall k | 0 <= k < |seen| && k != lead :: seen[k] == lines[k]
    ensures seen[lead] == ""
  {
    forall k | 0 <= k < lead ensures !Contains(lines[k], "/*") {
      BlankNoOpener(lines[k]);
    }
    assert '/' !in ws;
    IndexAfterPrefix(ws, "/*", "");
    assert ws + "/*" + "" == lines[lead];
    assert Contains(lines[lead], "/*");
    assert Opener(lines) == Some(lead);
  }

  /** The offset of a written block comment is its indentation. */
  lemma OffsetWritten(lines: seq<string>, lead: nat, ws: string, bodies: seq<string>, seen: seq<string>)
    requires WrittenBlockComment(lines, lead, ws, bodies) && AllReSpace(ws)
    requires forall k | 0 <= k < |bodies| :: |bodies[k]| > 0 && !IsSpace(bodies[k][0])
    requires seen == SeenLines(lines, Some(lead))
    ensures MinIndent(seen, true) == |ws|
  {
    SeenWritten(lines, lead, ws, bodies, seen);
    ReSpaceIsSpace(ws);
    var close := lead + 1 + |bodies|;
    forall k | 0 <= k < |seen| && Counted(seen[k], true) ensures Indent(seen[k]) == |ws| {
      if lead < k < close {
        var b := bodies[k - lead - 1];
        IndentConcat(ws, b);
        NoIndent(b);
      } else if k == close {
        IndentConcat(ws, "*/");
        NoIndent("*/");
      } else {
        assert IsBlank(seen[k]);
      }
    }
    assert !IsBlank(seen[close]) by {
      assert seen[close][|ws|] == '*';
    }
    MinIndentSpec(seen, true);
  }

  /**
   * Round trip: a written block comment whose bodies neither start with
   * white space nor end with a space cleans to the trimmed join of the
   * bodies. This is what cli/docs_test.go expects of cleanMultiCommentLines.
   */
  lemma CleanMultiUncomments(lines: seq<string>, lead: nat, ws: string, bodies: seq<string>)
    requires WrittenBlockComment(lines, lead, ws, bodies) && AllReSpace(ws) && |bodies| > 0
    requires forall k | 0 <= k < |bodies| ::
      |bodies[k]| > 0 && !IsSpace(bodies[k][0]) && bodies[k][|bodies[k]| - 1] != ' '
    ensures CleanMulti(lines) == Ok(TrimSpace(Join(bodies, "\n")))
  {
    var seen := SeenLines(lines, Some(lead));
    SeenWritten(lines, lead, ws, bodies, seen);
    OffsetWritten(lines, lead, ws, bodies, seen);
    var kept := seen[lead..];
    MinIndentSpec(seen, true);
    assert forall k | 0 <= k < |kept| :: kept[k] == seen[lead + k];
    var cleaned := DedentTrim(kept, |ws|);
    var close := 1 + |bodies|;
    DedentTrimWritten(lines, lead, ws, bodies, kept, cleaned);
    MatchAtSlice("*/", 0, "*/");
    IndexSpec("*/", "*/");
    assert Index("*/", "*/") == 0;
    assert cleaned[close := "*/"[..0]] == cleaned[close := ""];
    NbeDocs.CleanedMultiText(cleaned, bodies);
  }

  /** The kept lines of a written block comment dedent to an empty line, the bodies, the bare closer, then blank lines. */
  lemma DedentTrimWritten(lines: seq<string>, lead: nat, ws: string, bodies: seq<string>, kept: seq<string>, cleaned: seq<string>)
    requires WrittenBlockComment(lines, lead, ws, bodies) && AllReSpace(ws) && |bodies| > 0
    requires forall k | 0 <= k < |bodies| ::
      |bodies[k]| > 0 && !IsSpace(bodies[k][0]) && bodies[k][|bodies[k]| - 1] != ' '
    requires |kept| == |lines| - lead && kept[0] == ""
    requires forall k | 1 <= k < |kept| :: kept[k] == lines[lead + k]
    requires forall k | 0 <= k < |kept| :: IsBlank(kept[k]) || |ws| <= |kept[k]|
    requires cleaned == DedentTrim(kept, |ws|)
    ensures LastNonBlank(kept) == 1 + |bodies|
    ensures cleaned[0] == "" && cleaned[1 + |bodies|] == "*/"
    ensures forall k | 0 <= k < |bodies| :: cleaned[1 + k] == bodies[k]
    ensures forall k | 2 + |bodies| <= k < |cleaned| :: IsBlank(cleaned[k])
  {
    ReSpaceIsSpace(ws);
    var close := 1 + |bodies|;
    forall k | 0 <= k < |bodies| ensures cleaned[1 + k] == bodies[k] {
      assert kept[1 + k] == ws + bodies[k];
      assert !IsBlank(kept[1 + k]) by {
        assert kept[1 + k][|ws|] == bodies[k][0];
      }
      assert kept[1 + k][|ws|..] == bodies[k];
    }
    assert kept[close] == ws + "*/";
    assert !IsBlank(kept[close]) by {
      assert kept[close][|ws|] == '*';
    }
    assert kept[close][|ws|..] == "*/";
    forall k | close < k < |kept| ensures IsBlank(kept[k]) && cleaned[k] == kept[k] {
      assert kept[k] == lines[lead + k];
    }
  }

  // cleanCodeLines

  /** The dedent of cleanCodeLines: the non-blank lines, in order, each without its first `off` runes. */
  function DedentNonBlank(ls: seq<string>, off: int): seq<string>
    requires forall k | 0 <= k < |ls| :: IsBlank(ls[k]) || 0 <= off <= |ls[k]|
  {
    if |ls| == 0 then []
    else
      var init := ls[..|ls| - 1];
      var l := ls[|ls| - 1];
      assert forall k | 0 <= k < |init| :: init[k] == ls[k];
      DedentNonBlank(init, off) + if IsBlank(l) then [] else [l[off..]]
  }

  /** The non-blank strings of `ls`, in order. */
  function NonBlank(ls: seq<string>): (r: seq<string>)
    ensures forall k | 0 <= k < |r| :: !IsBlank(r[k])
  {
    if |ls| == 0 then []
    else NonBlank(ls[..|ls| - 1]) + if IsBlank(ls[|ls| - 1]) then [] else [ls[|ls| - 1]]
  }

  /**
   * cleanCodeLines as written: the offset and the dedented lines are
   * computed, with every slice in bounds, and then the first return hands
   * back the input lines joined, unchanged.
   */
  method CleanCodeLines(lines: seq<string>) returns (text: string)
    ensures text == Join(lines, "\n")
  {
    var offset := -1;
    for i := 0 to |lines|
      invariant offset == MinIndent(lines[..i], true)
    {
      assert lines[..i + 1] == lines[..i] + [lines[i]];
      offset := LowerByLine(offset, lines[i], lines[..i]);
    }
    assert lines[..|lines|] == lines;
    MinIndentSpec(lines, true);
    var cleaned: seq<string> := [];
    for i := 0 to |lines|
      invariant cleaned == DedentNonBlank(lines[..i], offset)
    {
      assert lines[..i + 1][..i] == lines[..i];
      TrimSpaceEmpty(lines[i]);
      if TrimSpace(lines[i]) == "" {
        continue;
      }
      cleaned := cleaned + [lines[i][offset..]];
    }
    return Join(lines, "\n");
  }

  /** cleanCodeLines as its second return intends: the non-blank lines dedented by their least indentation. */
  function CleanCode(lines: seq<string>): string {
    MinIndentSpec(lines, true);
    Join(DedentNonBlank(lines, MinIndent(lines, true)), "\n")
  }

  /**
   * Every line is its body behind the indentation `ws`, or blank with a
   * blank body.
   */
  predicate Indented(lines: seq<string>, ws: string, bodies: seq<string>) {
    |lines| == |bodies|
    && forall k | 0 <= k < |lines| :: lines[k] == ws + bodies[k] || (IsBlank(lines[k]) && IsBlank(bodies[k]))
  }

  /** A line behind `\s` indentation is blank exactly when its body is. */
  lemma IndentedBlank(ws: string, b: string)
    requires AllReSpace(ws)
    ensures IsBlank(ws + b) <==> IsBlank(b)
  {
    if IsBlank(b) {
      assert forall i | 0 <= i < |ws + b| :: (ws + b)[i] == if i < |ws| then ws[i] else b[i - |ws|];
    } else {
      var i :| 0 <= i < |b| && !IsSpace(b[i]);
      assert (ws + b)[|ws| + i] == b[i];
    }
  }

  /** Dedenting indented lines by the indentation's length gives back the non-blank bodies. */
  lemma {:induction false} DedentIndented(lines: seq<string>, ws: string, bodies: seq<string>)
    requires AllReSpace(ws) && Indented(lines, ws, bodies)
    ensures DedentNonBlank(lines, |ws|) == NonBlank(bodies)
  {
    if |lines| > 0 {
      var n := |lines| - 1;
      assert Indented(lines[..n], ws, bodies[..n]) by {
        assert forall k | 0 <= k < n :: lines[..n][k] == lines[k] && bodies[..n][k] == bodies[k];
      }
      DedentIndented(lines[..n], ws, bodies[..n]);
      if lines[n] == ws + bodies[n] {
        IndentedBlank(ws, bodies[n]);
        assert lines[n][|ws|..] == bodies[n];
      }
    }
  }

  /**
   * Intended round trip: indented lines, one of them non-blank and not
   * indented further, clean to their non-blank bodies. This is what
   * cli/docs_test.go expects of cleanCodeLines.
   */
  lemma CleanCodeDedents(lines: seq<string>, ws: string, bodies: seq<string>, flush: nat)
    requires AllReSpace(ws) && Indented(lines, ws, bodies)
    requires flush < |bodies| && lines[flush] == ws + bodies[flush]
    requires !IsBlank(bodies[flush]) && !IsReSpace(bodies[flush][0])
    ensures CleanCode(lines) == Join(NonBlank(bodies), "\n")
  {
    forall k | 0 <= k < |lines| && !IsBlank(lines[k]) ensures Indent(lines[k]) >= |ws| {
      IndentConcat(ws, bodies[k]);
    }
    IndentConcat(ws, bodies[flush]);
    NoIndent(bodies[flush]);
    IndentedBlank(ws, bodies[flush]);
    MinIndentSpec(lines, true);
    assert MinIndent(lines, true) == |ws|;
    DedentIndented(lines, ws, bodies);
  }

  /** The discrepancy: an indented line after a blank one comes back indented, where "x" is meant. */
  lemma CleanCodeCounterexample()
    ensures Join(["", "  x"], "\n") == "\n  x"
    ensures CleanCode(["", "  x"]) == "x"
  {
    var lines := ["", "  x"];
    var bodies := ["", "x"];
    assert lines[1] == "  " + bodies[1];
    assert Indented(lines, "  ", bodies);
    assert AllReSpace("  ");
    assert !IsBlank(bodies[1]) by {
      assert !IsSpace(bodies[1][0]);
    }
    CleanCodeDedents(lines, "  ", bodies, 1);
    assert NonBlank(bodies) == ["x"] by {
      assert bodies[..1] == [""];
      assert NonBlank([""]) == [];
    }
  }

  // renderBlock

  /** A rendered block before the Markdown and HTML renderers run: its type and the cleaned text. */
  datatype CliRendered = CliRendered(kind: string, text: string)

  /**
   * renderBlock as written: code is handed on as its lines joined (the early
   * return of cleanCodeLines), line comments as CleanSingleAsWritten cleans
   * them.
   */
  function RenderBlockAsWritten(b: Block): Result<CliRendered, MultiError> {
    match b.kind
    case CodeBlock => Ok(CliRendered("code", Join(b.lines, "\n")))
    case SingleLineCommentBlock => Ok(CliRendered("comment", CleanSingleAsWritten(b.lines)))
    case MultiLineCommentBlock =>
      (match CleanMulti(b.lines)
       case Ok(text) => Ok(CliRendered("comment", text))
       case Err(e) => Err(e))
    case EmptyBlock => Ok(CliRendered("", ""))
  }

  /** renderBlock, with the intended cleaners for code and line comments. */
  function RenderBlock(b: Block): Result<CliRendered, MultiError> {
    match b.kind
    case CodeBlock => Ok(CliRendered("code", CleanCode(b.lines)))
    case SingleLineCommentBlock => Ok(CliRendered("comment", CleanSingle(b.lines)))
    case MultiLineCommentBlock =>
      (match CleanMulti(b.lines)
       case Ok(text) => Ok(CliRendered("comment", text))
       case Err(e) => Err(e))
    case EmptyBlock => Ok(CliRendered("", ""))
  }

  /**
   * The type mapping: code to "code", both comment kinds to "comment", an
   * empty block to ""; only a block comment can fail, exactly when its
   * cleaner does.
   */
  lemma RenderBlockKinds(b: Block)
    ensures RenderBlock(b).Err? <==> b.kind == MultiLineCommentBlock && CleanMulti(b.lines).Err?
    ensures RenderBlock(b).Ok? ==>
      (RenderBlock(b).value.kind == "code" <==> b.kind == CodeBlock)
      && (RenderBlock(b).value.kind == "comment" <==> b.kind == SingleLineCommentBlock || b.kind == MultiLineCommentBlock)
      && (RenderBlock(b).value.kind == "" <==> b.kind == EmptyBlock)
    ensures b.kind == EmptyBlock ==> RenderBlock(b) == Ok(CliRendered("", ""))
  {
  }

  /**
   * The two renderings agree on the kind, on failure and on block comments
   * and empty blocks; they differ only in the text of code and line comment
   * blocks, where the intended cleaners replace the ones as written.
   */
  lemma RenderBlockCorrection(b: Block)
    ensures RenderBlockAsWritten(b).Err? <==> RenderBlock(b).Err?
    ensures RenderBlockAsWritten(b).Ok? ==> RenderBlockAsWritten(b).value.kind == RenderBlock(b).value.kind
    ensures b.kind == CodeBlock ==>
      RenderBlockAsWritten(b) == Ok(CliRendered("code", Join(b.lines, "\n")))
      && RenderBlock(b) == Ok(CliRendered("code", CleanCode(b.lines)))
    ensures b.kind == SingleLineCommentBlock ==>
      RenderBlockAsWritten(b) == Ok(CliRendered("comment", CleanSingleAsWritten(b.lines)))
      && RenderBlock(b) == Ok(CliRendered("comment", CleanSingle(b.lines)))
    ensures b.kind == MultiLineCommentBlock || b.kind == EmptyBlock ==> RenderBlockAsWritten(b) == RenderBlock(b)
  {
  }

  /** The discrepancy at the block level: an indented code line after a blank one is rendered indented as written. */
  lemma RenderCodeCounterexample()
    ensures RenderBlockAsWritten(Block(CodeBlock, ["", "  x"], 1, 2)) == Ok(CliRendered("code", "\n  x"))
    ensures RenderBlock(Block(CodeBlock, ["", "  x"], 1, 2)) == Ok(CliRendered("code", "x"))
  {
    CleanCodeCounterexample();
  }
}
