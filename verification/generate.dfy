/**
 * The older site generator's segmenter, parseSegments in tools/generate.go:
 * the lines of an example file are split into segments of documentation and
 * code. Documentation lines are those docsPat `^\s*(//|#)\s` matches, with
 * that prefix removed; an empty line closes the current segment. Reading
 * the file is an input here: the method receives its text.
 */
module Generate {
  import opened Strs

  // docsPat

  predicate AllReSpace(s: string) {
    forall i | 0 <= i < |s| :: IsReSpace(s[i])
  }

  /** The strings docsPat matches: `\s` runes, `//` or `#`, then one `\s` rune. */
  predicate DocsPrefix(p: string) {
    |p| >= 2 && IsReSpace(p[|p| - 1])
    && ((p[|p| - 2] == '#' && AllReSpace(p[..|p| - 2]))
        || (|p| >= 3 && p[|p| - 3] == '/' && p[|p| - 2] == '/' && AllReSpace(p[..|p| - 3])))
  }

  /** The length of docsPat's match at the start of the line, -1 when it does not match. */
  function DocsMatchLen(line: string): (n: int)
    ensures n == -1 || 2 <= n <= |line|
  {
    var k := ReSpacePrefixLen(line);
    ReSpacePrefix(line);
    var rest := line[k..];
    if |rest| >= 3 && rest[0] == '/' && rest[1] == '/' && IsReSpace(rest[2]) then k + 3
    else if |rest| >= 2 && rest[0] == '#' && IsReSpace(rest[1]) then k + 2
    else -1
  }

  /** Whenever a prefix of the line is in docsPat's language, the match is that prefix. */
  lemma DocsMatchComplete(line: string, j: nat)
    requires j <= |line| && DocsPrefix(line[..j])
    ensures DocsMatchLen(line) == j
  {
    var p := line[..j];
    var m := if p[j - 2] == '#' && AllReSpace(p[..j - 2]) then j - 2 else j - 3;
    assert p[..m] == line[..m];
    assert !IsReSpace(line[m]);
    ReSpacePrefixLenIs(line, m);
  }

  predicate IsDocsLine(line: string) {
    DocsMatchLen(line) >= 0
  }

  /** A line that is neither empty nor documentation. */
  predicate IsCodeLine(line: string) {
    line != "" && DocsMatchLen(line) < 0
  }

  /** What a documentation line contributes: docsPat.ReplaceAllString(line, ""). */
  function DocsText(line: string): string
    requires IsDocsLine(line)
  {
    line[DocsMatchLen(line)..]
  }

  /**
   * The text of a documentation line is what follows a prefix in docsPat's
   * language: `\s` runes, `//` or `#`, and one `\s` rune.
   */
  lemma DocsMatchSound(line: string)
    requires IsDocsLine(line)
    ensures var t := DocsText(line);
      |t| <= |line| - 2 && line == line[..|line| - |t|] + t && DocsPrefix(line[..|line| - |t|])
  {
    var k := ReSpacePrefixLen(line);
    ReSpacePrefix(line);
    var n := DocsMatchLen(line);
    assert line[..n][..k] == line[..k];
    assert line[..n][..n - 2] == line[..n - 2];
  }

  // Tabs

  /** strings.Replace(line, "\t", "    ", -1). */
  function ExpandTabs(line: string): (r: string)
    ensures '\t' !in r
  {
    ReplaceChar(line, '\t', "    ")
  }

  /** Every tab becomes four spaces, and everything else is kept. */
  lemma ExpandTabsSpec(a: string, b: string)
    requires '\t' !in a
    ensures ExpandTabs(a + "\t" + b) == a + "    " + ExpandTabs(b)
  {
    assert a + "\t" + b == a + ("\t" + b);
    ReplaceCharConcat(a, "\t" + b, '\t', "    ");
    ReplaceCharConcat("\t", b, '\t', "    ");
    assert ("\t" + b)[0] == '\t';
    assert ReplaceChar("\t", '\t', "    ") == "    " by {
      assert "\t"[1..] == [];
    }
  }

  function ExpandAll(lines: seq<string>): (r: seq<string>)
    ensures |r| == |lines|
  {
    if |lines| == 0 then [] else ExpandAll(lines[..|lines| - 1]) + [ExpandTabs(lines[|lines| - 1])]
  }

  // Segmenting

  /** lastSeen: "" (nothing since the last empty line), "docs" or "code". */
  datatype Seen = Nothing | SawDocs | SawCode

  /** A segment as parseSegments leaves it; the rendered fields are filled in later and are not modelled. */
  datatype Segment = Segment(docs: string, code: string, codeEmpty: bool, codeLeading: bool, codeRun: bool)

  function DocsSegment(docs: string): Segment {
    Segment(docs, "", false, false, false)
  }

  function CodeSegment(code: string): Segment {
    Segment("", code, false, false, false)
  }

  datatype ScanState = ScanState(segs: seq<Segment>, lastSeen: Seen)

  /** While something was seen since the last empty line there is a segment to extend. */
  predicate Valid(st: ScanState) {
    st.lastSeen != Nothing ==> |st.segs| > 0
  }

  function Last(st: ScanState): Segment
    requires |st.segs| > 0
  {
    st.segs[|st.segs| - 1]
  }

  /** One iteration of the segmenting loop. */
  function Step(st: ScanState, line: string): (r: ScanState)
    requires Valid(st)
    ensures Valid(r)
  {
    if line == "" then ScanState(st.segs, Nothing)
    else
      var newDocs := st.lastSeen == Nothing || (st.lastSeen != SawDocs && Last(st).docs != "");
      var newCode := st.lastSeen == Nothing || (st.lastSeen != SawCode && Last(st).code != "");
      if IsDocsLine(line) then
        var trimmed := DocsText(line);
        if newDocs then ScanState(st.segs + [DocsSegment(trimmed)], SawDocs)
        else ScanState(st.segs[|st.segs| - 1 := Last(st).(docs := Last(st).docs + "\n" + trimmed)], SawDocs)
      else
        if newCode then ScanState(st.segs + [CodeSegment(line)], SawCode)
        else ScanState(st.segs[|st.segs| - 1 := Last(st).(code := Last(st).code + "\n" + line)], SawCode)
  }

  /** The state after the segmenting loop has read the lines. */
  function Scanned(lines: seq<string>): (st: ScanState)
    ensures Valid(st)
  {
    if |lines| == 0 then ScanState([], Nothing)
    else Step(Scanned(lines[..|lines| - 1]), lines[|lines| - 1])
  }

  /** The segments of a file's text, before the flags are set. */
  function Segments(src: string): seq<Segment> {
    Scanned(ExpandAll(Split(src, '\n'))).segs
  }

  /** The first loop of parseSegments: the lines with tabs expanded, and the lines as read. */
  method ExpandLines(raw: seq<string>) returns (lines: seq<string>, source: seq<string>)
    ensures lines == ExpandAll(raw) && source == raw
  {
    lines, source := [], [];
    for i := 0 to |raw|
      invariant lines == ExpandAll(raw[..i]) && source == raw[..i]
    {
      assert raw[..i + 1][..i] == raw[..i];
      lines := lines + [ExpandTabs(raw[i])];
      source := source + [raw[i]];
    }
    assert raw[..|raw|] == raw;
  }

  /** The segmenting loop of parseSegments. */
  method ScanSegments(lines: seq<string>) returns (segs: seq<Segment>)
    ensures segs == Scanned(lines).segs
  {
    segs := [];
    var lastSeen := Nothing;
    for i := 0 to |lines|
      invariant ScanState(segs, lastSeen) == Scanned(lines[..i])
    {
      assert lines[..i + 1][..i] == lines[..i];
      ghost var before := ScanState(segs, lastSeen);
      var line := lines[i];
      if line == "" {
        lastSeen := Nothing;
        continue;
      }
      var newDocs := lastSeen == Nothing || (lastSeen != SawDocs && segs[|segs| - 1].docs != "");
      var newCode := lastSeen == Nothing || (lastSeen != SawCode && segs[|segs| - 1].code != "");
      var n := DocsMatchLen(line);
      if n >= 0 {
        var trimmed := line[n..];
        if newDocs {
          segs := segs + [DocsSegment(trimmed)];
        } else {
          var last := segs[|segs| - 1];
          segs := segs[|segs| - 1 := last.(docs := last.docs + "\n" + trimmed)];
        }
        lastSeen := SawDocs;
      } else {
        if newCode {
          segs := segs + [CodeSegment(line)];
        } else {
          var last := segs[|segs| - 1];
          segs := segs[|segs| - 1 := last.(code := last.code + "\n" + line)];
        }
        lastSeen := SawCode;
      }
      assert ScanState(segs, lastSeen) == Step(before, line);
    }
    assert lines[..|lines|] == lines;
  }

  /** The last loop of parseSegments: the flags of each segment. */
  method SetFlags(scanned: seq<Segment>) returns (segs: seq<Segment>)
    ensures |segs| == |scanned|
    ensures forall i | 0 <= i < |segs| ::
      segs[i].docs == scanned[i].docs && segs[i].code == scanned[i].code
      && (segs[i].codeEmpty <==> segs[i].code == "")
      && (segs[i].codeLeading <==> i < |segs| - 1)
      && (segs[i].codeRun <==> Contains(segs[i].code, "package main"))
  {
    segs := scanned;
    for i := 0 to |segs|
      invariant |segs| == |scanned|
      invariant forall j | 0 <= j < |segs| :: segs[j].docs == scanned[j].docs && segs[j].code == scanned[j].code
      invariant forall j | 0 <= j < i ::
        (segs[j].codeEmpty <==> segs[j].code == "")
        && (segs[j].codeLeading <==> j < |segs| - 1)
        && (segs[j].codeRun <==> Contains(segs[j].code, "package main"))
    {
      var seg := segs[i];
      segs := segs[i := seg.(codeEmpty := seg.code == "", codeLeading := i < |segs| - 1,
                             codeRun := Contains(seg.code, "package main"))];
    }
  }

  /**
   * parseSegments: the segments of the file, with CodeEmpty, CodeLeading
   * and CodeRun set, and the file content, which is the file's text itself.
   */
  method ParseSegments(src: string) returns (segs: seq<Segment>, filecontent: string)
    ensures filecontent == src
    ensures |segs| == |Segments(src)|
    ensures forall i | 0 <= i < |segs| ::
      segs[i].docs == Segments(src)[i].docs && segs[i].code == Segments(src)[i].code
      && (segs[i].codeEmpty <==> segs[i].code == "")
      && (segs[i].codeLeading <==> i < |segs| - 1)
      && (segs[i].codeRun <==> Contains(segs[i].code, "package main"))
  {
    var lines, source := ExpandLines(Split(src, '\n'));
    filecontent := Join(source, "\n");
    JoinSplit(src, '\n');
    var scanned := ScanSegments(lines);
    segs := SetFlags(scanned);
  }

  // What the segmenting loop does, run by run

  /** The state after reading more lines, starting from `st`. */
  function Run(st: ScanState, ls: seq<string>): (r: ScanState)
    requires Valid(st)
    ensures Valid(r)
  {
    if |ls| == 0 then st else Step(Run(st, ls[..|ls| - 1]), ls[|ls| - 1])
  }

  /** Reading lines in two parts: the second part starts from the state the first one leaves. */
  lemma {:induction false} ScannedAppend(lines: seq<string>, ls: seq<string>)
    ensures Scanned(lines + ls) == Run(Scanned(lines), ls)
  {
    if |ls| == 0 {
      assert lines + ls == lines;
    } else {
      assert (lines + ls)[..|lines + ls| - 1] == lines + ls[..|ls| - 1];
      ScannedAppend(lines, ls[..|ls| - 1]);
    }
  }

  /**
   * An empty line never enters a segment: the segments are kept, and the
   * next line that is not empty starts a new one, whatever came before.
   */
  lemma EmptyLineCloses(lines: seq<string>, next: string)
    requires next != ""
    ensures Scanned(lines + [""]).segs == Scanned(lines).segs
    ensures var after := Scanned(lines + ["", next]).segs;
      |after| == |Scanned(lines).segs| + 1 && after[..|after| - 1] == Scanned(lines).segs
  {
    assert (lines + [""])[..|lines|] == lines;
    assert (lines + ["", next])[..|lines| + 1] == lines + [""];
  }

  /** The documentation text of each line. */
  function Texts(ds: seq<string>): (ts: seq<string>)
    requires forall i | 0 <= i < |ds| :: IsDocsLine(ds[i])
    ensures |ts| == |ds|
  {
    if |ds| == 0 then [] else Texts(ds[..|ds| - 1]) + [DocsText(ds[|ds| - 1])]
  }

  lemma StepExtendsDocs(st: ScanState, d: string)
    requires Valid(st) && IsDocsLine(d)
    requires st.lastSeen == SawDocs || (st.lastSeen == SawCode && Last(st).docs == "")
    ensures Step(st, d) == ScanState(st.segs[|st.segs| - 1 := Last(st).(docs := Last(st).docs + "\n" + DocsText(d))], SawDocs)
  {
  }

  lemma StepOpensDocs(st: ScanState, d: string)
    requires Valid(st) && IsDocsLine(d)
    requires st.lastSeen == Nothing || (st.lastSeen == SawCode && Last(st).docs != "")
    ensures Step(st, d) == ScanState(st.segs + [DocsSegment(DocsText(d))], SawDocs)
  {
  }

  lemma StepExtendsCode(st: ScanState, c: string)
    requires Valid(st) && IsCodeLine(c)
    requires st.lastSeen == SawCode || (st.lastSeen == SawDocs && Last(st).code == "")
    ensures Step(st, c) == ScanState(st.segs[|st.segs| - 1 := Last(st).(code := Last(st).code + "\n" + c)], SawCode)
  {
  }

  lemma JoinAfter(a: string, b: string, t: string)
    ensures a + "\n" + b + "\n" + t == a + "\n" + (b + "\n" + t)
  {
  }

  lemma UpdateTwice<T>(s: seq<T>, i: nat, x: T, y: T)
    requires i < |s|
    ensures s[i := x][i := y] == s[i := y]
  {
  }

  lemma UpdateAppended<T>(s: seq<T>, x: T, y: T)
    ensures (s + [x])[|s| := y] == s + [y]
  {
  }

  /**
   * A run of documentation lines where a new segment is due (right after
   * an empty line, or after code in a segment that has documentation)
   * opens one segment holding their texts joined with "\n".
   */
  lemma {:induction false} DocsRunOpens(st: ScanState, ds: seq<string>)
    requires Valid(st)
    requires |ds| > 0 && forall i | 0 <= i < |ds| :: IsDocsLine(ds[i])
    requires st.lastSeen == Nothing || (st.lastSeen == SawCode && Last(st).docs != "")
    ensures Run(st, ds) == ScanState(st.segs + [DocsSegment(Join(Texts(ds), "\n"))], SawDocs)
  {
    var init := ds[..|ds| - 1];
    var d := ds[|ds| - 1];
    if |init| == 0 {
      StepOpensDocs(st, d);
      assert Texts(ds) == [DocsText(d)];
    } else {
      DocsRunOpens(st, init);
      var mid := Run(st, init);
      assert Run(st, ds) == Step(mid, d);
      StepExtendsDocs(mid, d);
      JoinSnoc(Texts(init), DocsText(d), "\n");
      assert ds == init + [d];
      assert Texts(ds) == Texts(init) + [DocsText(d)];
      UpdateAppended(st.segs, DocsSegment(Join(Texts(init), "\n")), DocsSegment(Join(Texts(ds), "\n")));
    }
  }

  /**
   * A run of code lines where a new segment is due (right after an empty
   * line, or after documentation in a segment that has code) opens one
   * segment holding them joined with "\n".
   */
  lemma {:induction false} CodeRunOpens(st: ScanState, cs: seq<string>)
    requires Valid(st)
    requires |cs| > 0 && forall i | 0 <= i < |cs| :: IsCodeLine(cs[i])
    requires st.lastSeen == Nothing || (st.lastSeen == SawDocs && Last(st).code != "")
    ensures Run(st, cs) == ScanState(st.segs + [CodeSegment(Join(cs, "\n"))], SawCode)
  {
    var init := cs[..|cs| - 1];
    var c := cs[|cs| - 1];
    if |init| > 0 {
      CodeRunOpens(st, init);
      var mid := Run(st, init);
      StepExtendsCode(mid, c);
      assert cs == init + [c];
      JoinSnoc(init, c, "\n");
      UpdateAppended(st.segs, CodeSegment(Join(init, "\n")), CodeSegment(Join(cs, "\n")));
    }
  }

  /**
   * A run of documentation lines that does not open a segment (after
   * documentation, or after code in a segment without documentation)
   * extends the last segment's documentation by "\n" and their joined
   * texts; the earlier segments are kept.
   */
  lemma {:induction false} DocsRunExtends(st: ScanState, ds: seq<string>)
    requires Valid(st)
    requires |ds| > 0 && forall i | 0 <= i < |ds| :: IsDocsLine(ds[i])
    requires st.lastSeen == SawDocs || (st.lastSeen == SawCode && Last(st).docs == "")
    ensures Run(st, ds) ==
      ScanState(st.segs[|st.segs| - 1 := Last(st).(docs := Last(st).docs + "\n" + Join(Texts(ds), "\n"))], SawDocs)
  {
    var init := ds[..|ds| - 1];
    var d := ds[|ds| - 1];
    if |init| == 0 {
      StepExtendsDocs(st, d);
    } else {
      DocsRunExtends(st, init);
      var mid := Run(st, init);
      StepExtendsDocs(mid, d);
      JoinSnoc(Texts(init), DocsText(d), "\n");
      assert ds == init + [d];
      var L := |st.segs| - 1;
      var v := Last(st).(docs := Last(st).docs + "\n" + Join(Texts(ds), "\n"));
      assert Texts(ds) == Texts(init) + [DocsText(d)];
      JoinAfter(Last(st).docs, Join(Texts(init), "\n"), DocsText(d));
      assert Last(mid).(docs := v.docs) == v;
      UpdateTwice(st.segs, L, Last(mid), v);
    }
  }

  /**
   * A run of code lines that does not open a segment (after code, or after
   * documentation in a segment without code) extends the last segment's
   * code by "\n" and the joined lines: code right after documentation
   * therefore starts with "\n".
   */
  lemma {:induction false} CodeRunExtends(st: ScanState, cs: seq<string>)
    requires Valid(st)
    requires |cs| > 0 && forall i | 0 <= i < |cs| :: IsCodeLine(cs[i])
    requires st.lastSeen == SawCode || (st.lastSeen == SawDocs && Last(st).code == "")
    ensures Run(st, cs) ==
      ScanState(st.segs[|st.segs| - 1 := Last(st).(code := Last(st).code + "\n" + Join(cs, "\n"))], SawCode)
  {
    var init := cs[..|cs| - 1];
    var c := cs[|cs| - 1];
    if |init| == 0 {
      StepExtendsCode(st, c);
    } else {
      CodeRunExtends(st, init);
      var mid := Run(st, init);
      StepExtendsCode(mid, c);
      JoinSnoc(init, c, "\n");
      assert cs == init + [c];
      var L := |st.segs| - 1;
      var v := Last(st).(code := Last(st).code + "\n" + Join(cs, "\n"));
      JoinAfter(Last(st).code, Join(init, "\n"), c);
      assert Last(mid).(code := v.code) == v;
      UpdateTwice(st.segs, L, Last(mid), v);
    }
  }
}
