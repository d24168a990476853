/**
 * The two texts that parseReader's test (cmd/nbe/main_test.go) segments:
 * a Go file opening with a package comment, and a Python file with
 * indented line comments. Each text is given by its lines; the text itself
 * is those lines, each followed by '\n'. Long lines are written as sums
 * of short literals, cut between words.
 */
module ReaderExamples {
  import opened Wrappers
  import opened Strs
  import opened LineClass
  import opened Segment

  /** A line holding only the opener opens a multi-line comment. */
  lemma OpenAlone()
    ensures ParseLineType(Go, "/*") == Ok(OpenMultiCommentLine)
  {
    assert !IsSpace("/*"[0]);
    assert IsBlockOpen("/*") && !IsLineComment("/*");
    assert !HasBlockClose("/*");
  }

  /** A line holding only the closer closes one. */
  lemma CloseAlone()
    ensures ParseLineType(Go, "*/") == Ok(CloseMultiCommentLine)
  {
    assert !IsSpace("*/"[0]);
    assert !IsBlockOpen("*/") && !IsLineComment("*/");
    assert HasBlockClose("*/");
  }

  const GoPackageDoc := "Package foo " + "provides " + "utilies for " + "interacting " + "with " + "JetStream."
  const GoFuncLine := "func " + "ReadStream(" + "js " + "nats." + "JetStream" + "Context, " + "name " + "string) " + "([]*nats." + "Msg, " + "error) {"

  const GoLines: seq<string> := [
    "/*",
    GoPackageDoc,
    "",
    "*/",
    "package foo",
    "",
    "// Read " + "stream..",
    GoFuncLine,
    "  ...",
    "}",
    ""
  ]

  const GoTypes: seq<LineType> := [
    OpenMultiCommentLine,
    NormalLine,
    EmptyLine,
    CloseMultiCommentLine,
    NormalLine,
    EmptyLine,
    SingleCommentLine,
    NormalLine,
    NormalLine,
    NormalLine,
    EmptyLine
  ]

  /** Line 1 of the text is plain, and the classifier gives it its listed type; likewise below. */
  lemma GoLine0()
    ensures PlainLine(GoLines[0]) && ParseLineType(Go, GoLines[0]) == Ok(OpenMultiCommentLine)
  {
    OpenAlone();
  }

  lemma GoPackageDocPlain()
    ensures '\n' !in GoPackageDoc
  {
  }

  lemma GoPackageDocNoComment()
    ensures '/' !in GoPackageDoc
  {
  }

  lemma GoLine1()
    ensures PlainLine(GoPackageDoc) && ParseLineType(Go, GoPackageDoc) == Ok(NormalLine)
  {
    GoPackageDocNoComment();
    GoPackageDocPlain();
    assert !IsSpace(GoPackageDoc[0]);
    NoSlashIsCode(Go, GoPackageDoc);
  }

  lemma GoLine3()
    ensures PlainLine(GoLines[3]) && ParseLineType(Go, GoLines[3]) == Ok(CloseMultiCommentLine)
  {
    CloseAlone();
  }

  lemma GoLine4()
    ensures PlainLine(GoLines[4]) && ParseLineType(Go, GoLines[4]) == Ok(NormalLine)
  {
    assert !IsSpace(GoLines[4][0]);
    NoSlashIsCode(Go, GoLines[4]);
  }

  lemma GoLine6()
    ensures PlainLine(GoLines[6]) && ParseLineType(Go, GoLines[6]) == Ok(SingleCommentLine)
  {
    SlashesAfterSpace(Go, GoLines[6], 0);
  }

  lemma GoFuncLinePlain()
    ensures '\n' !in GoFuncLine
  {
  }

  lemma GoFuncLineNoComment()
    ensures '/' !in GoFuncLine
  {
  }

  lemma GoLine7()
    ensures PlainLine(GoFuncLine) && ParseLineType(Go, GoFuncLine) == Ok(NormalLine)
  {
    GoFuncLineNoComment();
    GoFuncLinePlain();
    assert !IsSpace(GoFuncLine[0]);
    NoSlashIsCode(Go, GoFuncLine);
  }

  lemma GoLine8()
    ensures PlainLine(GoLines[8]) && ParseLineType(Go, GoLines[8]) == Ok(NormalLine)
  {
    assert !IsSpace(GoLines[8][2]);
    NoSlashIsCode(Go, GoLines[8]);
  }

  lemma GoLine9()
    ensures PlainLine(GoLines[9]) && ParseLineType(Go, GoLines[9]) == Ok(NormalLine)
  {
    assert !IsSpace(GoLines[9][0]);
    NoSlashIsCode(Go, GoLines[9]);
  }

  /** Each line of the text is plain, and the classifier gives it the type listed; in parts. */
  lemma GoLinesTypedFrom0()
    ensures forall k | 0 <= k < 5 :: PlainLine(GoLines[k]) && ParseLineType(Go, GoLines[k]) == Ok(GoTypes[k])
  {
    forall k | 0 <= k < 5 ensures PlainLine(GoLines[k]) && ParseLineType(Go, GoLines[k]) == Ok(GoTypes[k]) {
      if k == 0 {
        GoLine0();
      } else if k == 1 {
        GoLine1();
      } else if k == 2 {
        assert IsBlank(GoLines[2]);
      } else if k == 3 {
        GoLine3();
      } else {
        GoLine4();
      }
    }
  }

  lemma GoLinesTypedFrom5()
    ensures forall k | 5 <= k < 10 :: PlainLine(GoLines[k]) && ParseLineType(Go, GoLines[k]) == Ok(GoTypes[k])
  {
    forall k | 5 <= k < 10 ensures PlainLine(GoLines[k]) && ParseLineType(Go, GoLines[k]) == Ok(GoTypes[k]) {
      if k == 5 {
        assert IsBlank(GoLines[5]);
      } else if k == 6 {
        GoLine6();
      } else if k == 7 {
        GoLine7();
      } else if k == 8 {
        GoLine8();
      } else {
        GoLine9();
      }
    }
  }

  lemma GoLinesTypedFrom10()
    ensures forall k | 10 <= k < 11 :: PlainLine(GoLines[k]) && ParseLineType(Go, GoLines[k]) == Ok(GoTypes[k])
  {
    forall k | 10 <= k < 11 ensures PlainLine(GoLines[k]) && ParseLineType(Go, GoLines[k]) == Ok(GoTypes[k]) {
      if k == 10 {
        assert IsBlank(GoLines[10]);
      }
    }
  }

  /** Each line of the text is plain, and the classifier gives it the type listed. */
  lemma GoLinesTyped()
    ensures (forall k | 0 <= k < |GoLines| :: PlainLine(GoLines[k])) && Classified(Go, GoLines, GoTypes)
  {
    GoLinesTypedFrom0();
    GoLinesTypedFrom5();
    GoLinesTypedFrom10();
  }

  /** The scan's state before each line of a text of this shape, and after the last. */
  function GoStates(ls: seq<string>): seq<State>
    requires |ls| == 11
  {
    [
      Initial,
      State([], Block(MultiLineCommentBlock, ls[0..1], 1, 1), false),
      State([], Block(MultiLineCommentBlock, ls[0..2], 1, 2), false),
      State([], Block(MultiLineCommentBlock, ls[0..3], 1, 3), false),
      State([], Block(MultiLineCommentBlock, ls[0..4], 1, 4), true),
      State([Block(MultiLineCommentBlock, ls[0..4], 1, 4)], Block(CodeBlock, ls[4..5], 5, 5), false),
      State([Block(MultiLineCommentBlock, ls[0..4], 1, 4)], Block(CodeBlock, ls[4..6], 5, 6), false),
      State([Block(MultiLineCommentBlock, ls[0..4], 1, 4), Block(CodeBlock, ls[4..6], 5, 6)], Block(SingleLineCommentBlock, ls[6..7], 7, 7), false),
      State([Block(MultiLineCommentBlock, ls[0..4], 1, 4), Block(CodeBlock, ls[4..6], 5, 6), Block(SingleLineCommentBlock, ls[6..7], 7, 7)], Block(CodeBlock, ls[7..8], 8, 8), false),
      State([Block(MultiLineCommentBlock, ls[0..4], 1, 4), Block(CodeBlock, ls[4..6], 5, 6), Block(SingleLineCommentBlock, ls[6..7], 7, 7)], Block(CodeBlock, ls[7..9], 8, 9), false),
      State([Block(MultiLineCommentBlock, ls[0..4], 1, 4), Block(CodeBlock, ls[4..6], 5, 6), Block(SingleLineCommentBlock, ls[6..7], 7, 7)], Block(CodeBlock, ls[7..10], 8, 10), false),
      State([Block(MultiLineCommentBlock, ls[0..4], 1, 4), Block(CodeBlock, ls[4..6], 5, 6), Block(SingleLineCommentBlock, ls[6..7], 7, 7)], Block(CodeBlock, ls[7..11], 8, 11), false)
    ]
  }

  /** Each line of a text of this shape steps from its state to the next; in parts. */
  lemma GoStepsFrom0(ls: seq<string>, ts: seq<LineType>)
    requires |ls| == |ts| == 11
    requires ts[0] == OpenMultiCommentLine && ts[1] == NormalLine && ts[2] == EmptyLine
    ensures forall k | 0 <= k < 3 :: Step(false, GoStates(ls)[k], k + 1, ls[k], ts[k]) == Ok(GoStates(ls)[k + 1])
  {
    forall k | 0 <= k < 3 ensures Step(false, GoStates(ls)[k], k + 1, ls[k], ts[k]) == Ok(GoStates(ls)[k + 1]) {
      if k == 0 {
        assert [] + [ls[0]] == ls[0..1];
      } else if k == 1 {
        assert ls[0..1] + [ls[1]] == ls[0..2];
      } else {
        assert ls[0..2] + [ls[2]] == ls[0..3];
      }
    }
  }

  lemma GoStepsFrom3(ls: seq<string>, ts: seq<LineType>)
    requires |ls| == |ts| == 11
    requires ts[3] == CloseMultiCommentLine && ts[4] == NormalLine && ts[5] == EmptyLine
    ensures forall k | 3 <= k < 6 :: Step(false, GoStates(ls)[k], k + 1, ls[k], ts[k]) == Ok(GoStates(ls)[k + 1])
  {
    forall k | 3 <= k < 6 ensures Step(false, GoStates(ls)[k], k + 1, ls[k], ts[k]) == Ok(GoStates(ls)[k + 1]) {
      if k == 3 {
        assert ls[0..3] + [ls[3]] == ls[0..4];
      } else if k == 4 {
        assert [] + [ls[4]] == ls[4..5];
        assert [] + [Block(MultiLineCommentBlock, ls[0..4], 1, 4)] == [Block(MultiLineCommentBlock, ls[0..4], 1, 4)];
      } else {
        assert ls[4..5] + [ls[5]] == ls[4..6];
      }
    }
  }

  lemma GoStepsFrom6(ls: seq<string>, ts: seq<LineType>)
    requires |ls| == |ts| == 11
    requires ts[6] == SingleCommentLine && ts[7] == NormalLine && ts[8] == NormalLine
    ensures forall k | 6 <= k < 9 :: Step(false, GoStates(ls)[k], k + 1, ls[k], ts[k]) == Ok(GoStates(ls)[k + 1])
  {
    forall k | 6 <= k < 9 ensures Step(false, GoStates(ls)[k], k + 1, ls[k], ts[k]) == Ok(GoStates(ls)[k + 1]) {
      if k == 6 {
        assert [ls[6]] == ls[6..7];
        assert [Block(MultiLineCommentBlock, ls[0..4], 1, 4)] + [Block(CodeBlock, ls[4..6], 5, 6)] == [Block(MultiLineCommentBlock, ls[0..4], 1, 4), Block(CodeBlock, ls[4..6], 5, 6)];
      } else if k == 7 {
        assert [ls[7]] == ls[7..8];
        assert [Block(MultiLineCommentBlock, ls[0..4], 1, 4), Block(CodeBlock, ls[4..6], 5, 6)] + [Block(SingleLineCommentBlock, ls[6..7], 7, 7)] == [Block(MultiLineCommentBlock, ls[0..4], 1, 4), Block(CodeBlock, ls[4..6], 5, 6), Block(SingleLineCommentBlock, ls[6..7], 7, 7)];
      } else {
        assert ls[7..8] + [ls[8]] == ls[7..9];
      }
    }
  }

  lemma GoStepsFrom9(ls: seq<string>, ts: seq<LineType>)
    requires |ls| == |ts| == 11
    requires ts[9] == NormalLine && ts[10] == EmptyLine
    ensures forall k | 9 <= k < 11 :: Step(false, GoStates(ls)[k], k + 1, ls[k], ts[k]) == Ok(GoStates(ls)[k + 1])
  {
    forall k | 9 <= k < 11 ensures Step(false, GoStates(ls)[k], k + 1, ls[k], ts[k]) == Ok(GoStates(ls)[k + 1]) {
      if k == 9 {
        assert ls[7..9] + [ls[9]] == ls[7..10];
      } else {
        assert ls[7..10] + [ls[10]] == ls[7..11];
      }
    }
  }

  /** The scan's final state for a text of this shape, whatever its lines hold. */
  lemma GoSteps(ls: seq<string>, ts: seq<LineType>)
    requires |ls| == |ts| == 11
    requires ts[0] == OpenMultiCommentLine && ts[1] == NormalLine && ts[2] == EmptyLine && ts[3] == CloseMultiCommentLine && ts[4] == NormalLine && ts[5] == EmptyLine && ts[6] == SingleCommentLine && ts[7] == NormalLine && ts[8] == NormalLine && ts[9] == NormalLine && ts[10] == EmptyLine
    ensures StepAll(ls, ts) == Ok(State([Block(MultiLineCommentBlock, ls[0..4], 1, 4), Block(CodeBlock, ls[4..6], 5, 6), Block(SingleLineCommentBlock, ls[6..7], 7, 7)], Block(CodeBlock, ls[7..11], 8, 11), false))
  {
    GoStepsFrom0(ls, ts);
    GoStepsFrom3(ls, ts);
    GoStepsFrom6(ls, ts);
    GoStepsFrom9(ls, ts);
    StepsChain(ls, ts, GoStates(ls));
  }

  lemma GoBlocks(b0: Block, b1: Block, b2: Block, b3: Block)
    ensures Blocks(State([b0, b1, b2], b3, false)) == [b0, b1, b2, b3]
  {
  }

  /** The scan of lines of this shape, typed as listed, ends in these blocks. */
  lemma GoRun(ls: seq<string>, ts: seq<LineType>)
    requires |ls| == |ts| == 11 && Classified(Go, ls, ts)
    requires ts[0] == OpenMultiCommentLine && ts[1] == NormalLine && ts[2] == EmptyLine && ts[3] == CloseMultiCommentLine && ts[4] == NormalLine && ts[5] == EmptyLine && ts[6] == SingleCommentLine && ts[7] == NormalLine && ts[8] == NormalLine && ts[9] == NormalLine && ts[10] == EmptyLine
    ensures Run(Go, ls) == Ok(State([Block(MultiLineCommentBlock, ls[0..4], 1, 4), Block(CodeBlock, ls[4..6], 5, 6), Block(SingleLineCommentBlock, ls[6..7], 7, 7)], Block(CodeBlock, ls[7..11], 8, 11), false))
  {
    GoSteps(ls, ts);
    RunSteps(Go, ls, ts, State([Block(MultiLineCommentBlock, ls[0..4], 1, 4), Block(CodeBlock, ls[4..6], 5, 6), Block(SingleLineCommentBlock, ls[6..7], 7, 7)], Block(CodeBlock, ls[7..11], 8, 11), false));
  }

  /** The same, for lines the classifier types as GoTypes lists. */
  lemma GoRunTyped(ls: seq<string>)
    requires |ls| == 11 && Classified(Go, ls, GoTypes)
    ensures Run(Go, ls) == Ok(State([Block(MultiLineCommentBlock, ls[0..4], 1, 4), Block(CodeBlock, ls[4..6], 5, 6), Block(SingleLineCommentBlock, ls[6..7], 7, 7)], Block(CodeBlock, ls[7..11], 8, 11), false))
  {
    GoRun(ls, GoTypes);
  }

  /**
   * The Go text parses into 4 blocks: the package comment (lines 1-4), the
   * package clause (5-6), the function's comment (7) and the function
   * (8-11); the source handed back is the text without its last '\n'.
   */
  lemma GoExample()
    ensures var r := ParseSpec(Go, Terminated(GoLines));
      r.Ok? && r.value.0 == [Block(MultiLineCommentBlock, GoLines[0..4], 1, 4),
        Block(CodeBlock, GoLines[4..6], 5, 6),
        Block(SingleLineCommentBlock, GoLines[6..7], 7, 7),
        Block(CodeBlock, GoLines[7..11], 8, 11)] && r.value.1 == Join(GoLines, "\n")
    ensures Join(GoLines, "\n") + "\n" == Terminated(GoLines)
  {
    GoLinesTyped();
    GoRunTyped(GoLines);
    ScanTerminated(GoLines);
    GoBlocks(Block(MultiLineCommentBlock, GoLines[0..4], 1, 4), Block(CodeBlock, GoLines[4..6], 5, 6), Block(SingleLineCommentBlock, GoLines[6..7], 7, 7), Block(CodeBlock, GoLines[7..11], 8, 11));
    TerminatedJoin(GoLines);
  }

  const PythonWithLine := "with open(" + "'somefile" + ".txt')" + " as f:"
  const PythonInitComment := "\t# " + "Initialize " + "a new CSV " + "reader"
  const PythonReaderLine := "\tcr := " + "csv.reader" + "(f)"
  const PythonTupleLine := "\tlines := " + "tuple(cr)"

  const PythonLines: seq<string> := [
    "# Package " + "foo",
    "import csv",
    "",
    PythonWithLine,
    PythonInitComment,
    "",
    PythonReaderLine,
    "",
    "\t# Read",
    "\t# all",
    "\t# the",
    "",
    "\t# lines",
    PythonTupleLine,
    ""
  ]

  const PythonTypes: seq<LineType> := [
    SingleCommentLine,
    NormalLine,
    EmptyLine,
    NormalLine,
    SingleCommentLine,
    EmptyLine,
    NormalLine,
    EmptyLine,
    SingleCommentLine,
    SingleCommentLine,
    SingleCommentLine,
    EmptyLine,
    SingleCommentLine,
    NormalLine,
    EmptyLine
  ]

  /** Line 1 of the text is plain, and the classifier gives it its listed type; likewise below. */
  lemma PythonLine0()
    ensures PlainLine(PythonLines[0]) && ParseLineType(Python, PythonLines[0]) == Ok(SingleCommentLine)
  {
    HashAfterSpace(Python, PythonLines[0], 0);
  }

  lemma PythonLine1()
    ensures PlainLine(PythonLines[1]) && ParseLineType(Python, PythonLines[1]) == Ok(NormalLine)
  {
    assert !IsSpace(PythonLines[1][0]);
    NoHashIsCode(Python, PythonLines[1]);
  }

  lemma PythonWithLinePlain()
    ensures '\n' !in PythonWithLine
  {
  }

  lemma PythonWithLineNoComment()
    ensures '#' !in PythonWithLine
  {
  }

  lemma PythonLine3()
    ensures PlainLine(PythonWithLine) && ParseLineType(Python, PythonWithLine) == Ok(NormalLine)
  {
    PythonWithLineNoComment();
    PythonWithLinePlain();
    assert !IsSpace(PythonWithLine[0]);
    NoHashIsCode(Python, PythonWithLine);
  }

  lemma PythonInitCommentPlain()
    ensures '\n' !in PythonInitComment
  {
  }

  lemma PythonLine4()
    ensures PlainLine(PythonInitComment) && ParseLineType(Python, PythonInitComment) == Ok(SingleCommentLine)
  {
    PythonInitCommentPlain();
    HashAfterSpace(Python, PythonInitComment, 1);
  }

  lemma PythonReaderLinePlain()
    ensures '\n' !in PythonReaderLine
  {
  }

  lemma PythonReaderLineNoComment()
    ensures '#' !in PythonReaderLine
  {
  }

  lemma PythonLine6()
    ensures PlainLine(PythonReaderLine) && ParseLineType(Python, PythonReaderLine) == Ok(NormalLine)
  {
    PythonReaderLineNoComment();
    PythonReaderLinePlain();
    assert !IsSpace(PythonReaderLine[1]);
    NoHashIsCode(Python, PythonReaderLine);
  }

  lemma PythonLine8()
    ensures PlainLine(PythonLines[8]) && ParseLineType(Python, PythonLines[8]) == Ok(SingleCommentLine)
  {
    HashAfterSpace(Python, PythonLines[8], 1);
  }

  lemma PythonLine9()
    ensures PlainLine(PythonLines[9]) && ParseLineType(Python, PythonLines[9]) == Ok(SingleCommentLine)
  {
    HashAfterSpace(Python, PythonLines[9], 1);
  }

  lemma PythonLine10()
    ensures PlainLine(PythonLines[10]) && ParseLineType(Python, PythonLines[10]) == Ok(SingleCommentLine)
  {
    HashAfterSpace(Python, PythonLines[10], 1);
  }

  lemma PythonLine12()
    ensures PlainLine(PythonLines[12]) && ParseLineType(Python, PythonLines[12]) == Ok(SingleCommentLine)
  {
    HashAfterSpace(Python, PythonLines[12], 1);
  }

  lemma PythonTupleLinePlain()
    ensures '\n' !in PythonTupleLine
  {
  }

  lemma PythonTupleLineNoComment()
    ensures '#' !in PythonTupleLine
  {
  }

  lemma PythonLine13()
    ensures PlainLine(PythonTupleLine) && ParseLineType(Python, PythonTupleLine) == Ok(NormalLine)
  {
    PythonTupleLineNoComment();
    PythonTupleLinePlain();
    assert !IsSpace(PythonTupleLine[1]);
    NoHashIsCode(Python, PythonTupleLine);
  }

  /** Each line of the text is plain, and the classifier gives it the type listed; in parts. */
  lemma PythonLinesTypedFrom0()
    ensures forall k | 0 <= k < 5 :: PlainLine(PythonLines[k]) && ParseLineType(Python, PythonLines[k]) == Ok(PythonTypes[k])
  {
    forall k | 0 <= k < 5 ensures PlainLine(PythonLines[k]) && ParseLineType(Python, PythonLines[k]) == Ok(PythonTypes[k]) {
      if k == 0 {
        PythonLine0();
      } else if k == 1 {
        PythonLine1();
      } else if k == 2 {
        assert IsBlank(PythonLines[2]);
      } else if k == 3 {
        PythonLine3();
      } else {
        PythonLine4();
      }
    }
  }

  lemma PythonLinesTypedFrom5()
    ensures forall k | 5 <= k < 10 :: PlainLine(PythonLines[k]) && ParseLineType(Python, PythonLines[k]) == Ok(PythonTypes[k])
  {
    forall k | 5 <= k < 10 ensures PlainLine(PythonLines[k]) && ParseLineType(Python, PythonLines[k]) == Ok(PythonTypes[k]) {
      if k == 5 {
        assert IsBlank(PythonLines[5]);
      } else if k == 6 {
        PythonLine6();
      } else if k == 7 {
        assert IsBlank(PythonLines[7]);
      } else if k == 8 {
        PythonLine8();
      } else {
        PythonLine9();
      }
    }
  }

  lemma PythonLinesTypedFrom10()
    ensures forall k | 10 <= k < 15 :: PlainLine(PythonLines[k]) && ParseLineType(Python, PythonLines[k]) == Ok(PythonTypes[k])
  {
    forall k | 10 <= k < 15 ensures PlainLine(PythonLines[k]) && ParseLineType(Python, PythonLines[k]) == Ok(PythonTypes[k]) {
      if k == 10 {
        PythonLine10();
      } else if k == 11 {
        assert IsBlank(PythonLines[11]);
      } else if k == 12 {
        PythonLine12();
      } else if k == 13 {
        PythonLine13();
      } else {
        assert IsBlank(PythonLines[14]);
      }
    }
  }

  /** Each line of the text is plain, and the classifier gives it the type listed. */
  lemma PythonLinesTyped()
    ensures (forall k | 0 <= k < |PythonLines| :: PlainLine(PythonLines[k])) && Classified(Python, PythonLines, PythonTypes)
  {
    PythonLinesTypedFrom0();
    PythonLinesTypedFrom5();
    PythonLinesTypedFrom10();
  }

  /** The scan's state before each line of a text of this shape, and after the last. */
  function PythonStates(ls: seq<string>): seq<State>
    requires |ls| == 15
  {
    [
      Initial,
      State([], Block(SingleLineCommentBlock, ls[0..1], 1, 1), false),
      State([Block(SingleLineCommentBlock, ls[0..1], 1, 1)], Block(CodeBlock, ls[1..2], 2, 2), false),
      State([Block(SingleLineCommentBlock, ls[0..1], 1, 1)], Block(CodeBlock, ls[1..3], 2, 3), false),
      State([Block(SingleLineCommentBlock, ls[0..1], 1, 1)], Block(CodeBlock, ls[1..4], 2, 4), false),
      State([Block(SingleLineCommentBlock, ls[0..1], 1, 1), Block(CodeBlock, ls[1..4], 2, 4)], Block(SingleLineCommentBlock, ls[4..5], 5, 5), false),
      State([Block(SingleLineCommentBlock, ls[0..1], 1, 1), Block(CodeBlock, ls[1..4], 2, 4)], Block(SingleLineCommentBlock, ls[4..6], 5, 6), false),
      State([Block(SingleLineCommentBlock, ls[0..1], 1, 1), Block(CodeBlock, ls[1..4], 2, 4), Block(SingleLineCommentBlock, ls[4..6], 5, 6)], Block(CodeBlock, ls[6..7], 7, 7), false),
      State([Block(SingleLineCommentBlock, ls[0..1], 1, 1), Block(CodeBlock, ls[1..4], 2, 4), Block(SingleLineCommentBlock, ls[4..6], 5, 6)], Block(CodeBlock, ls[6..8], 7, 8), false),
      State([Block(SingleLineCommentBlock, ls[0..1], 1, 1), Block(CodeBlock, ls[1..4], 2, 4), Block(SingleLineCommentBlock, ls[4..6], 5, 6), Block(CodeBlock, ls[6..8], 7, 8)], Block(SingleLineCommentBlock, ls[8..9], 9, 9), false),
      State([Block(SingleLineCommentBlock, ls[0..1], 1, 1), Block(CodeBlock, ls[1..4], 2, 4), Block(SingleLineCommentBlock, ls[4..6], 5, 6), Block(CodeBlock, ls[6..8], 7, 8)], Block(SingleLineCommentBlock, ls[8..10], 9, 10), false),
      State([Block(SingleLineCommentBlock, ls[0..1], 1, 1), Block(CodeBlock, ls[1..4], 2, 4), Block(SingleLineCommentBlock, ls[4..6], 5, 6), Block(CodeBlock, ls[6..8], 7, 8)], Block(SingleLineCommentBlock, ls[8..11], 9, 11), false),
      State([Block(SingleLineCommentBlock, ls[0..1], 1, 1), Block(CodeBlock, ls[1..4], 2, 4), Block(SingleLineCommentBlock, ls[4..6], 5, 6), Block(CodeBlock, ls[6..8], 7, 8)], Block(SingleLineCommentBlock, ls[8..12], 9, 12), false),
      State([Block(SingleLineCommentBlock, ls[0..1], 1, 1), Block(CodeBlock, ls[1..4], 2, 4), Block(SingleLineCommentBlock, ls[4..6], 5, 6), Block(CodeBlock, ls[6..8], 7, 8)], Block(SingleLineCommentBlock, ls[8..13], 9, 13), false),
      State([Block(SingleLineCommentBlock, ls[0..1], 1, 1), Block(CodeBlock, ls[1..4], 2, 4), Block(SingleLineCommentBlock, ls[4..6], 5, 6), Block(CodeBlock, ls[6..8], 7, 8), Block(SingleLineCommentBlock, ls[8..13], 9, 13)], Block(CodeBlock, ls[13..14], 14, 14), false),
      State([Block(SingleLineCommentBlock, ls[0..1], 1, 1), Block(CodeBlock, ls[1..4], 2, 4), Block(SingleLineCommentBlock, ls[4..6], 5, 6), Block(CodeBlock, ls[6..8], 7, 8), Block(SingleLineCommentBlock, ls[8..13], 9, 13)], Block(CodeBlock, ls[13..15], 14, 15), false)
    ]
  }

  /** Each line of a text of this shape steps from its state to the next; in parts. */
  lemma PythonStepsFrom0(ls: seq<string>, ts: seq<LineType>)
    requires |ls| == |ts| == 15
    requires ts[0] == SingleCommentLine && ts[1] == NormalLine && ts[2] == EmptyLine
    ensures forall k | 0 <= k < 3 :: Step(false, PythonStates(ls)[k], k + 1, ls[k], ts[k]) == Ok(PythonStates(ls)[k + 1])
  {
    forall k | 0 <= k < 3 ensures Step(false, PythonStates(ls)[k], k + 1, ls[k], ts[k]) == Ok(PythonStates(ls)[k + 1]) {
      if k == 0 {
        assert [] + [ls[0]] == ls[0..1];
      } else if k == 1 {
        assert [ls[1]] == ls[1..2];
        assert [] + [Block(SingleLineCommentBlock, ls[0..1], 1, 1)] == [Block(SingleLineCommentBlock, ls[0..1], 1, 1)];
      } else {
        assert ls[1..2] + [ls[2]] == ls[1..3];
      }
    }
  }

  lemma PythonStepsFrom3(ls: seq<string>, ts: seq<LineType>)
    requires |ls| == |ts| == 15
    requires ts[3] == NormalLine && ts[4] == SingleCommentLine && ts[5] == EmptyLine
    ensures forall k | 3 <= k < 6 :: Step(false, PythonStates(ls)[k], k + 1, ls[k], ts[k]) == Ok(PythonStates(ls)[k + 1])
  {
    forall k | 3 <= k < 6 ensures Step(false, PythonStates(ls)[k], k + 1, ls[k], ts[k]) == Ok(PythonStates(ls)[k + 1]) {
      if k == 3 {
        assert ls[1..3] + [ls[3]] == ls[1..4];
      } else if k == 4 {
        assert [ls[4]] == ls[4..5];
        assert [Block(SingleLineCommentBlock, ls[0..1], 1, 1)] + [Block(CodeBlock, ls[1..4], 2, 4)] == [Block(SingleLineCommentBlock, ls[0..1], 1, 1), Block(CodeBlock, ls[1..4], 2, 4)];
      } else {
        assert ls[4..5] + [ls[5]] == ls[4..6];
      }
    }
  }

  lemma PythonStepsFrom6(ls: seq<string>, ts: seq<LineType>)
    requires |ls| == |ts| == 15
    requires ts[6] == NormalLine && ts[7] == EmptyLine && ts[8] == SingleCommentLine
    ensures forall k | 6 <= k < 9 :: Step(false, PythonStates(ls)[k], k + 1, ls[k], ts[k]) == Ok(PythonStates(ls)[k + 1])
  {
    forall k | 6 <= k < 9 ensures Step(false, PythonStates(ls)[k], k + 1, ls[k], ts[k]) == Ok(PythonStates(ls)[k + 1]) {
      if k == 6 {
        assert [ls[6]] == ls[6..7];
        assert [Block(SingleLineCommentBlock, ls[0..1], 1, 1), Block(CodeBlock, ls[1..4], 2, 4)] + [Block(SingleLineCommentBlock, ls[4..6], 5, 6)] == [Block(SingleLineCommentBlock, ls[0..1], 1, 1), Block(CodeBlock, ls[1..4], 2, 4), Block(SingleLineCommentBlock, ls[4..6], 5, 6)];
      } else if k == 7 {
        assert ls[6..7] + [ls[7]] == ls[6..8];
      } else {
        assert [ls[8]] == ls[8..9];
        assert [Block(SingleLineCommentBlock, ls[0..1], 1, 1), Block(CodeBlock, ls[1..4], 2, 4), Block(SingleLineCommentBlock, ls[4..6], 5, 6)] + [Block(CodeBlock, ls[6..8], 7, 8)] == [Block(SingleLineCommentBlock, ls[0..1], 1, 1), Block(CodeBlock, ls[1..4], 2, 4), Block(SingleLineCommentBlock, ls[4..6], 5, 6), Block(CodeBlock, ls[6..8], 7, 8)];
      }
    }
  }

  lemma PythonStepsFrom9(ls: seq<string>, ts: seq<LineType>)
    requires |ls| == |ts| == 15
    requires ts[9] == SingleCommentLine && ts[10] == SingleCommentLine && ts[11] == EmptyLine
    ensures forall k | 9 <= k < 12 :: Step(false, PythonStates(ls)[k], k + 1, ls[k], ts[k]) == Ok(PythonStates(ls)[k + 1])
  {
    forall k | 9 <= k < 12 ensures Step(false, PythonStates(ls)[k], k + 1, ls[k], ts[k]) == Ok(PythonStates(ls)[k + 1]) {
      if k == 9 {
        assert ls[8..9] + [ls[9]] == ls[8..10];
      } else if k == 10 {
        assert ls[8..10] + [ls[10]] == ls[8..11];
      } else {
        assert ls[8..11] + [ls[11]] == ls[8..12];
      }
    }
  }

  lemma PythonStepsFrom12(ls: seq<string>, ts: seq<LineType>)
    requires |ls| == |ts| == 15
    requires ts[12] == SingleCommentLine && ts[13] == NormalLine && ts[14] == EmptyLine
    ensures forall k | 12 <= k < 15 :: Step(false, PythonStates(ls)[k], k + 1, ls[k], ts[k]) == Ok(PythonStates(ls)[k + 1])
  {
    forall k | 12 <= k < 15 ensures Step(false, PythonStates(ls)[k], k + 1, ls[k], ts[k]) == Ok(PythonStates(ls)[k + 1]) {
      if k == 12 {
        assert ls[8..12] + [ls[12]] == ls[8..13];
      } else if k == 13 {
        assert [ls[13]] == ls[13..14];
        assert [Block(SingleLineCommentBlock, ls[0..1], 1, 1), Block(CodeBlock, ls[1..4], 2, 4), Block(SingleLineCommentBlock, ls[4..6], 5, 6), Block(CodeBlock, ls[6..8], 7, 8)] + [Block(SingleLineCommentBlock, ls[8..13], 9, 13)] == [Block(SingleLineCommentBlock, ls[0..1], 1, 1), Block(CodeBlock, ls[1..4], 2, 4), Block(SingleLineCommentBlock, ls[4..6], 5, 6), Block(CodeBlock, ls[6..8], 7, 8), Block(SingleLineCommentBlock, ls[8..13], 9, 13)];
      } else {
        assert ls[13..14] + [ls[14]] == ls[13..15];
      }
    }
  }

  /** The scan's final state for a text of this shape, whatever its lines hold. */
  lemma PythonSteps(ls: seq<string>, ts: seq<LineType>)
    requires |ls| == |ts| == 15
    requires ts[0] == SingleCommentLine && ts[1] == NormalLine && ts[2] == EmptyLine && ts[3] == NormalLine && ts[4] == SingleCommentLine && ts[5] == EmptyLine && ts[6] == NormalLine && ts[7] == EmptyLine && ts[8] == SingleCommentLine && ts[9] == SingleCommentLine && ts[10] == SingleCommentLine && ts[11] == EmptyLine && ts[12] == SingleCommentLine && ts[13] == NormalLine && ts[14] == EmptyLine
    ensures StepAll(ls, ts) == Ok(State([Block(SingleLineCommentBlock, ls[0..1], 1, 1), Block(CodeBlock, ls[1..4], 2, 4), Block(SingleLineCommentBlock, ls[4..6], 5, 6), Block(CodeBlock, ls[6..8], 7, 8), Block(SingleLineCommentBlock, ls[8..13], 9, 13)], Block(CodeBlock, ls[13..15], 14, 15), false))
  {
    PythonStepsFrom0(ls, ts);
    PythonStepsFrom3(ls, ts);
    PythonStepsFrom6(ls, ts);
    PythonStepsFrom9(ls, ts);
    PythonStepsFrom12(ls, ts);
    StepsChain(ls, ts, PythonStates(ls));
  }

  lemma PythonBlocks(b0: Block, b1: Block, b2: Block, b3: Block, b4: Block, b5: Block)
    ensures Blocks(State([b0, b1, b2, b3, b4], b5, false)) == [b0, b1, b2, b3, b4, b5]
  {
  }

  /** The scan of lines of this shape, typed as listed, ends in these blocks. */
  lemma PythonRun(ls: seq<string>, ts: seq<LineType>)
    requires |ls| == |ts| == 15 && Classified(Python, ls, ts)
    requires ts[0] == SingleCommentLine && ts[1] == NormalLine && ts[2] == EmptyLine && ts[3] == NormalLine && ts[4] == SingleCommentLine && ts[5] == EmptyLine && ts[6] == NormalLine && ts[7] == EmptyLine && ts[8] == SingleCommentLine && ts[9] == SingleCommentLine && ts[10] == SingleCommentLine && ts[11] == EmptyLine && ts[12] == SingleCommentLine && ts[13] == NormalLine && ts[14] == EmptyLine
    ensures Run(Python, ls) == Ok(State([Block(SingleLineCommentBlock, ls[0..1], 1, 1), Block(CodeBlock, ls[1..4], 2, 4), Block(SingleLineCommentBlock, ls[4..6], 5, 6), Block(CodeBlock, ls[6..8], 7, 8), Block(SingleLineCommentBlock, ls[8..13], 9, 13)], Block(CodeBlock, ls[13..15], 14, 15), false))
  {
    PythonSteps(ls, ts);
    RunSteps(Python, ls, ts, State([Block(SingleLineCommentBlock, ls[0..1], 1, 1), Block(CodeBlock, ls[1..4], 2, 4), Block(SingleLineCommentBlock, ls[4..6], 5, 6), Block(CodeBlock, ls[6..8], 7, 8), Block(SingleLineCommentBlock, ls[8..13], 9, 13)], Block(CodeBlock, ls[13..15], 14, 15), false));
  }

  /** The same, for lines the classifier types as PythonTypes lists. */
  lemma PythonRunTyped(ls: seq<string>)
    requires |ls| == 15 && Classified(Python, ls, PythonTypes)
    ensures Run(Python, ls) == Ok(State([Block(SingleLineCommentBlock, ls[0..1], 1, 1), Block(CodeBlock, ls[1..4], 2, 4), Block(SingleLineCommentBlock, ls[4..6], 5, 6), Block(CodeBlock, ls[6..8], 7, 8), Block(SingleLineCommentBlock, ls[8..13], 9, 13)], Block(CodeBlock, ls[13..15], 14, 15), false))
  {
    PythonRun(ls, PythonTypes);
  }

  /**
   * The Python text parses into 6 blocks, alternating comment and code:
   * lines 1, 2-4, 5-6, 7-8, 9-13 and 14-15; the source handed back is the
   * text without its last '\n'.
   */
  lemma PythonExample()
    ensures var r := ParseSpec(Python, Terminated(PythonLines));
      r.Ok? && r.value.0 == [Block(SingleLineCommentBlock, PythonLines[0..1], 1, 1),
        Block(CodeBlock, PythonLines[1..4], 2, 4),
        Block(SingleLineCommentBlock, PythonLines[4..6], 5, 6),
        Block(CodeBlock, PythonLines[6..8], 7, 8),
        Block(SingleLineCommentBlock, PythonLines[8..13], 9, 13),
        Block(CodeBlock, PythonLines[13..15], 14, 15)] && r.value.1 == Join(PythonLines, "\n")
    ensures Join(PythonLines, "\n") + "\n" == Terminated(PythonLines)
  {
    PythonLinesTyped();
    PythonRunTyped(PythonLines);
    ScanTerminated(PythonLines);
    PythonBlocks(Block(SingleLineCommentBlock, PythonLines[0..1], 1, 1), Block(CodeBlock, PythonLines[1..4], 2, 4), Block(SingleLineCommentBlock, PythonLines[4..6], 5, 6), Block(CodeBlock, PythonLines[6..8], 7, 8), Block(SingleLineCommentBlock, PythonLines[8..13], 9, 13), Block(CodeBlock, PythonLines[13..15], 14, 15));
    TerminatedJoin(PythonLines);
  }
}
