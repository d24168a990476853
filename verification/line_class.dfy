/**
 * The line classifier of the `nbe` documentation parser (parseLineType in
 * cmd/nbe/parse.go): which of five kinds a source line is, per language.
 */
module LineClass {
  import opened Wrappers
  import opened Strs

  /** The languages of the example tree, by client directory name; `Other` carries any other name. */
  datatype Language =
    | Shell | CLI | Go | Rust | Java | CSharp | Deno | Node | Bun | WebSocket | C | Python | Ruby | Elixir
    | Other(name: string)

  /** The directory name a language goes by. */
  function Name(l: Language): string {
    match l
    case Shell => "shell"
    case CLI => "cli"
    case Go => "go"
    case Rust => "rust"
    case Java => "java"
    case CSharp => "csharp"
    case Deno => "deno"
    case Node => "node"
    case Bun => "bun"
    case WebSocket => "websocket"
    case C => "c"
    case Python => "python"
    case Ruby => "ruby"
    case Elixir => "elixir"
    case Other(name) => name
  }

  /** The language a name stands for. */
  function LanguageNamed(name: string): (l: Language)
    ensures Name(l) == name
  {
    if name == "shell" then Shell
    else if name == "cli" then CLI
    else if name == "go" then Go
    else if name == "rust" then Rust
    else if name == "java" then Java
    else if name == "csharp" then CSharp
    else if name == "deno" then Deno
    else if name == "node" then Node
    else if name == "bun" then Bun
    else if name == "websocket" then WebSocket
    else if name == "c" then C
    else if name == "python" then Python
    else if name == "ruby" then Ruby
    else if name == "elixir" then Elixir
    else Other(name)
  }

  /** Each known language is named by its own name only. */
  lemma NamesDistinct(l: Language)
    requires !l.Other? || LanguageNamed(l.name).Other?
    ensures LanguageNamed(Name(l)) == l
  {
  }

  /** Shell-like languages: `#` comments with a shebang exemption. */
  const ShellFamily: set<Language> := {CLI, Shell}
  /** Languages with `#` comments and no shebang exemption. */
  const HashFamily: set<Language> := {Python, Ruby, Elixir}
  /** The C-style languages the classifier's switch lists. */
  const CStyleListed: set<Language> := {Go, CSharp, Java, Rust, C, Deno, Node, Bun}
  /** Every language with a multi-line comment delimiter pair; adds WebSocket. */
  const CStyle: set<Language> := CStyleListed + {WebSocket}

  datatype LineType = EmptyLine | NormalLine | SingleCommentLine | OpenMultiCommentLine | CloseMultiCommentLine

  /** The two panics of the parser: an unlisted language and a stray comment close. */
  datatype ParseError = UnsupportedLanguage(lang: Language) | SyntaxError(lineNum: nat)

  // The classifier's regular expressions.

  /** `^#!` */
  predicate IsShebang(line: string) {
    HasPrefix(line, "#!")
  }

  /** `^\s*#` */
  predicate IsHashComment(line: string) {
    MatchAt(line, ReSpacePrefixLen(line), "#")
  }

  /** `^\s*\/\/` */
  predicate IsLineComment(line: string) {
    MatchAt(line, ReSpacePrefixLen(line), "//")
  }

  /** `^\s*\/\*` */
  predicate IsBlockOpen(line: string) {
    MatchAt(line, ReSpacePrefixLen(line), "/*")
  }

  /** `\*\/` anywhere in the line */
  predicate HasBlockClose(line: string) {
    Contains(line, "*/")
  }

  /**
   * A regular expression `^\s*tok` matches exactly when some run of RE2
   * whitespace at the start of the line is followed by `tok`. When `tok`
   * starts with a non-space, that run is the whole leading whitespace, as
   * the predicates above take it.
   */
  lemma AnchoredMatch(line: string, tok: string, k: nat)
    requires |tok| > 0 && !IsReSpace(tok[0])
    requires k <= |line| && forall i | 0 <= i < k :: IsReSpace(line[i])
    requires MatchAt(line, k, tok)
    ensures k == ReSpacePrefixLen(line)
  {
    MatchAtHead(line, k, tok);
    ReSpacePrefixLenIs(line, k);
  }

  /**
   * parseLineType over a given set of C-style languages. The switch tries the
   * shell case, then the C-style case, then the hash case; the three sets are
   * disjoint, so the order does not matter.
   */
  function Classify(cstyle: set<Language>, lang: Language, line: string): Result<LineType, ParseError> {
    if IsBlank(line) then Ok(EmptyLine)
    else if lang in ShellFamily then
      if IsShebang(line) then Ok(NormalLine)
      else if IsHashComment(line) then Ok(SingleCommentLine)
      else Ok(NormalLine)
    else if lang in cstyle then
      if IsLineComment(line) then Ok(SingleCommentLine)
      else if IsBlockOpen(line) then
        if HasBlockClose(line) then Ok(NormalLine) else Ok(OpenMultiCommentLine)
      else if HasBlockClose(line) then Ok(CloseMultiCommentLine)
      else Ok(NormalLine)
    else if lang in HashFamily then
      if IsHashComment(line) then Ok(SingleCommentLine) else Ok(NormalLine)
    else Err(UnsupportedLanguage(lang))
  }

  /** parseLineType as written: WebSocket is missing from the C-style case. */
  function ParseLineTypeAsWritten(lang: Language, line: string): Result<LineType, ParseError> {
    Classify(CStyleListed, lang, line)
  }

  /** parseLineType with WebSocket in the C-style case, as every language table intends. */
  function ParseLineType(lang: Language, line: string): Result<LineType, ParseError> {
    Classify(CStyle, lang, line)
  }

  const Supported: set<Language> := ShellFamily + CStyle + HashFamily

  /** A whitespace-only line is Empty for every language, and only such a line is. */
  lemma BlankLineIsEmpty(lang: Language, line: string)
    ensures ParseLineType(lang, line) == Ok(EmptyLine) <==> IsBlank(line)
    ensures IsBlank(line) ==> ParseLineTypeAsWritten(lang, line) == Ok(EmptyLine)
  {
  }

  /** Shell and CLI: a shebang at column 0 is code, otherwise `#` after whitespace is a comment. */
  lemma ShellRules(lang: Language, line: string)
    requires lang in ShellFamily && !IsBlank(line)
    ensures ParseLineType(lang, line) == Ok(SingleCommentLine) <==> !IsShebang(line) && IsHashComment(line)
    ensures ParseLineType(lang, line) == Ok(NormalLine) <==> IsShebang(line) || !IsHashComment(line)
  {
  }

  /** Python, Ruby and Elixir have no shebang exemption: `#!` is a comment there. */
  lemma HashRules(lang: Language, line: string)
    requires lang in HashFamily && !IsBlank(line)
    ensures ParseLineType(lang, line) == Ok(SingleCommentLine) <==> IsHashComment(line)
    ensures ParseLineType(lang, line) == Ok(NormalLine) <==> !IsHashComment(line)
    ensures IsShebang(line) ==> ParseLineType(lang, line) == Ok(SingleCommentLine)
  {
    if IsShebang(line) {
      MatchAtHead(line, 0, "#!");
      AnchoredMatch(line, "#", 0);
    }
  }

  /** The hash languages know no multi-line comments. */
  lemma NoMultiLineOutsideCStyle(lang: Language, line: string)
    requires lang !in CStyle
    ensures ParseLineType(lang, line) != Ok(OpenMultiCommentLine)
    ensures ParseLineType(lang, line) != Ok(CloseMultiCommentLine)
  {
  }

  // C-style rules: a leading `//` wins; a leading `/*` opens unless a `*/`
  // follows on the line; any other line holding `*/` closes.
  lemma CStyleRules(lang: Language, line: string)
    requires lang in CStyle && !IsBlank(line)
    ensures IsLineComment(line) ==> ParseLineType(lang, line) == Ok(SingleCommentLine)
    ensures ParseLineType(lang, line) == Ok(OpenMultiCommentLine)
      <==> !IsLineComment(line) && IsBlockOpen(line) && !HasBlockClose(line)
    ensures ParseLineType(lang, line) == Ok(CloseMultiCommentLine)
      <==> !IsLineComment(line) && !IsBlockOpen(line) && HasBlockClose(line)
    ensures ParseLineType(lang, line).Ok?
  {
  }

  /** The classifier fails exactly on a non-blank line of an unlisted language. */
  lemma UnsupportedLanguageRule(lang: Language, line: string)
    ensures ParseLineType(lang, line).Err? <==> lang !in Supported && !IsBlank(line)
    ensures ParseLineType(lang, line).Err? ==> ParseLineType(lang, line).error == UnsupportedLanguage(lang)
  {
  }

  /** The correction changes nothing for any language but WebSocket. */
  lemma CorrectionOnlyAffectsWebSocket(lang: Language, line: string)
    requires lang != WebSocket
    ensures ParseLineType(lang, line) == ParseLineTypeAsWritten(lang, line)
  {
  }

  /** As written, any non-blank WebSocket line panics, where the corrected classifier succeeds. */
  lemma WebSocketRejectedAsWritten(line: string)
    requires !IsBlank(line)
    ensures ParseLineTypeAsWritten(WebSocket, line) == Err(UnsupportedLanguage(WebSocket))
    ensures ParseLineType(WebSocket, line).Ok?
  {
  }

  /** The one-line program `x` already makes the as-written classifier panic. */
  lemma WebSocketCounterexample()
    ensures ParseLineTypeAsWritten(WebSocket, "x") == Err(UnsupportedLanguage(WebSocket))
    ensures ParseLineType(WebSocket, "x") == Ok(NormalLine)
  {
    assert !IsSpace("x"[0]);
    assert ReSpacePrefixLen("x") == 0;
    IndexMissingHead("x", "*/");
  }

  /** After leading RE2 whitespace, only the rest of the line decides the patterns. */
  lemma LeadingSpace(ws: string, rest: string, tok: string)
    requires forall i | 0 <= i < |ws| :: IsReSpace(ws[i])
    requires rest != [] && !IsSpace(rest[0])
    ensures ReSpacePrefixLen(ws + rest) == |ws|
    ensures MatchAt(ws + rest, |ws|, tok) <==> HasPrefix(rest, tok)
    ensures !IsBlank(ws + rest)
    ensures HasBlockClose(ws + rest) <==> HasBlockClose(rest)
  {
    var s := ws + rest;
    assert s[|ws|] == rest[0];
    ReSpacePrefixLenIs(s, |ws|);
    MatchAtShift(ws, rest, 0, tok);
    ContainsAfterPrefix(ws, rest, "*/");
  }

  /** A C-style line without '/' matches none of the three patterns, so it is code. */
  lemma NoSlashIsCode(lang: Language, line: string)
    requires lang in CStyle && !IsBlank(line) && '/' !in line
    ensures ParseLineType(lang, line) == Ok(NormalLine)
  {
    var p := ReSpacePrefixLen(line);
    MatchAtSlice(line, p, "//");
    MatchAtSlice(line, p, "/*");
    if p + 2 <= |line| {
      assert line[p..p + 2][0] == line[p];
    }
    forall j: nat ensures !MatchAt(line, j, "*/") {
      MatchAtSlice(line, j, "*/");
      if j + 2 <= |line| {
        assert line[j..j + 2][1] == line[j + 1];
      }
    }
    IndexSpec(line, "*/");
  }

  /** A hash-family line without '#' is code. */
  lemma NoHashIsCode(lang: Language, line: string)
    requires lang in HashFamily && !IsBlank(line) && '#' !in line
    ensures ParseLineType(lang, line) == Ok(NormalLine)
  {
    var p := ReSpacePrefixLen(line);
    MatchAtSlice(line, p, "#");
    if p + 1 <= |line| {
      assert line[p..p + 1][0] == line[p];
    }
  }

  /** A hash-family line whose first rune after RE2 whitespace is '#' is a comment. */
  lemma HashAfterSpace(lang: Language, line: string, k: nat)
    requires lang in HashFamily && k < |line| && line[k] == '#'
    requires forall i | 0 <= i < k :: IsReSpace(line[i])
    ensures ParseLineType(lang, line) == Ok(SingleCommentLine)
  {
    ReSpacePrefixLenIs(line, k);
    MatchAtSlice(line, k, "#");
    assert line[k..k + 1] == "#";
    assert !IsSpace(line[k]);
  }

  /** A C-style line whose first runes after RE2 whitespace are "//" is a comment. */
  lemma SlashesAfterSpace(lang: Language, line: string, k: nat)
    requires lang in CStyle && k + 1 < |line| && line[k] == '/' && line[k + 1] == '/'
    requires forall i | 0 <= i < k :: IsReSpace(line[i])
    ensures ParseLineType(lang, line) == Ok(SingleCommentLine)
  {
    ReSpacePrefixLenIs(line, k);
    MatchAtSlice(line, k, "//");
    assert line[k..k + 2] == "//";
    assert !IsSpace(line[k]);
  }

  // The classifier's test vectors, one lemma each.

  lemma OpenVector()
    ensures ParseLineType(Go, "  /* hello") == Ok(OpenMultiCommentLine)
  {
    assert !IsSpace("  /* hello"[2]);
    assert IsBlockOpen("  /* hello") && !IsLineComment("  /* hello");
    assert !HasBlockClose("  /* hello");
  }

  lemma CloseVector()
    ensures ParseLineType(Go, "yep */") == Ok(CloseMultiCommentLine)
  {
    assert !IsSpace("yep */"[0]);
    assert !IsBlockOpen("yep */") && !IsLineComment("yep */");
    assert HasBlockClose("yep */");
  }

  lemma LineCommentVector()
    ensures ParseLineType(Go, "\t\t// ba") == Ok(SingleCommentLine)
  {
    assert !IsSpace("\t\t// ba"[2]);
    assert IsLineComment("\t\t// ba");
  }

  lemma InlineBlockCommentVector()
    ensures ParseLineType(Go, " /* meh  */ ") == Ok(NormalLine)
  {
    assert !IsSpace(" /* meh  */ "[1]);
    assert IsBlockOpen(" /* meh  */ ") && !IsLineComment(" /* meh  */ ");
    assert MatchAt(" /* meh  */ ", 9, "*/");
    assert HasBlockClose(" /* meh  */ ");
  }

  lemma TrailingCommentVector()
    ensures ParseLineType(Go, " Foo int\t\t// int") == Ok(NormalLine)
  {
    assert !IsSpace(" Foo int\t\t// int"[1]);
    assert !IsBlockOpen(" Foo int\t\t// int") && !IsLineComment(" Foo int\t\t// int");
    assert "*/"[0] !in " Foo int\t\t// int";
    IndexMissingHead(" Foo int\t\t// int", "*/");
  }

  lemma DivisionVector()
    ensures ParseLineType(Go, " 1 / 2 ") == Ok(NormalLine)
  {
    assert !IsSpace(" 1 / 2 "[1]);
    assert !IsBlockOpen(" 1 / 2 ") && !IsLineComment(" 1 / 2 ");
    assert !HasBlockClose(" 1 / 2 ");
  }

  lemma BlankVector()
    ensures ParseLineType(Go, "\t\t\t") == Ok(EmptyLine)
  {
  }

  lemma HashVectors()
    ensures ParseLineType(Python, "\t\t#  ba") == Ok(SingleCommentLine)
    ensures ParseLineType(Python, "##ba") == Ok(SingleCommentLine)
  {
    assert !IsSpace("\t\t#  ba"[2]);
    assert IsHashComment("\t\t#  ba");
    assert !IsSpace("##ba"[0]);
    assert IsHashComment("##ba");
  }
}
