/**
 * The pieces of Go's standard library the documentation tools lean on:
 * `strings`, the two whitespace classes (`unicode.IsSpace` and the RE2 `\s`
 * class), `bufio.ScanLines`, `strconv.ParseUint` in base 10 and
 * `path/filepath.Base`. Strings are sequences of runes.
 */
module Strs {

  /** unicode.IsSpace: what strings.TrimSpace removes. */
  predicate IsSpace(c: char) {
    c == '\t' || c == '\n' || c == '\U{0B}' || c == '\U{0C}' || c == '\r' || c == ' '
    || c == '\U{85}' || c == '\U{A0}' || c == '\U{1680}'
    || ('\U{2000}' <= c <= '\U{200A}')
    || c == '\U{2028}' || c == '\U{2029}' || c == '\U{202F}' || c == '\U{205F}' || c == '\U{3000}'
  }

  /** The RE2 class `\s`, that is [\t\n\f\r ] (no vertical tab). */
  predicate IsReSpace(c: char) {
    c == '\t' || c == '\n' || c == '\U{0C}' || c == '\r' || c == ' '
  }

  /** strings.TrimSpace(s) == "" */
  predicate IsBlank(s: string) {
    forall i | 0 <= i < |s| :: IsSpace(s[i])
  }

  /** Length of the match of `^\s*` (RE2 whitespace). */
  function ReSpacePrefixLen(s: string): nat {
    ReSpaceFrom(s, 0)
  }

  /** The end of the run of RE2 whitespace that starts at position `i`. */
  function ReSpaceFrom(s: string, i: nat): nat
    decreases |s| - i
  {
    if i < |s| && IsReSpace(s[i]) then ReSpaceFrom(s, i + 1) else i
  }

  lemma {:induction false} ReSpaceFromBounds(s: string, i: nat)
    requires i <= |s| && forall k | 0 <= k < i :: IsReSpace(s[k])
    ensures var n := ReSpaceFrom(s, i);
      i <= n <= |s| && (forall k | 0 <= k < n :: IsReSpace(s[k])) && (n == |s| || !IsReSpace(s[n]))
    decreases |s| - i
  {
    if i < |s| && IsReSpace(s[i]) {
      ReSpaceFromBounds(s, i + 1);
    }
  }

  /** `^\s*` matches the longest run of RE2 whitespace at the start. */
  lemma ReSpacePrefix(s: string)
    ensures ReSpacePrefixLen(s) <= |s|
    ensures forall k | 0 <= k < ReSpacePrefixLen(s) :: IsReSpace(s[k])
    ensures ReSpacePrefixLen(s) == |s| || !IsReSpace(s[ReSpacePrefixLen(s)])
  {
    ReSpaceFromBounds(s, 0);
  }

  /** A run of RE2 whitespace followed by anything else is what `^\s*` matches. */
  lemma ReSpacePrefixLenIs(s: string, n: nat)
    requires n <= |s| && forall k | 0 <= k < n :: IsReSpace(s[k])
    requires n == |s| || !IsReSpace(s[n])
    ensures ReSpacePrefixLen(s) == n
  {
    ReSpacePrefix(s);
  }

  /** Whatever follows the leading `^\s*` run. */
  function DropReSpace(s: string): string {
    if ReSpacePrefixLen(s) <= |s| then s[ReSpacePrefixLen(s)..] else []
  }

  function TrimLeftSpace(s: string): (r: string)
    ensures |r| <= |s| && r == s[|s| - |r|..]
    ensures r == [] || !IsSpace(r[0])
    ensures IsBlank(s[..|s| - |r|])
  {
    if |s| > 0 && IsSpace(s[0]) then TrimLeftSpace(s[1..]) else s
  }

  function TrimRightSpace(s: string): (r: string)
    ensures |r| <= |s| && r == s[..|r|]
    ensures r == [] || !IsSpace(r[|r| - 1])
    ensures IsBlank(s[|r|..])
  {
    if |s| > 0 && IsSpace(s[|s| - 1]) then TrimRightSpace(s[..|s| - 1]) else s
  }

  /** strings.TrimSpace */
  function TrimSpace(s: string): string {
    TrimRightSpace(TrimLeftSpace(s))
  }

  /** strings.TrimSpace(s) is empty exactly for blank strings. */
  lemma TrimSpaceEmpty(s: string)
    ensures TrimSpace(s) == "" <==> IsBlank(s)
  {
    var t := TrimLeftSpace(s);
    assert s == s[..|s| - |t|] + t;
  }

  /** Blank text before what TrimLeftSpace keeps is dropped with it. */
  lemma {:induction false} TrimLeftBlank(a: string, x: string)
    requires IsBlank(a)
    ensures TrimLeftSpace(a + x) == TrimLeftSpace(x)
    decreases |a|
  {
    if |a| > 0 {
      assert (a + x)[1..] == a[1..] + x;
      TrimLeftBlank(a[1..], x);
    } else {
      assert a + x == x;
    }
  }

  /** Blank text after what TrimRightSpace keeps is dropped with it. */
  lemma {:induction false} TrimRightBlank(x: string, b: string)
    requires IsBlank(b)
    ensures TrimRightSpace(x + b) == TrimRightSpace(x)
    decreases |b|
  {
    if |b| > 0 {
      assert (x + b)[..|x + b| - 1] == x + b[..|b| - 1];
      TrimRightBlank(x, b[..|b| - 1]);
    } else {
      assert x + b == x;
    }
  }

  /** Trimming from the left does not reach a suffix once a non-space rune precedes it. */
  lemma {:induction false} TrimLeftKeepsTail(x: string, b: string)
    requires !IsBlank(x)
    ensures TrimLeftSpace(x + b) == TrimLeftSpace(x) + b
    decreases |x|
  {
    if IsSpace(x[0]) {
      assert (x + b)[1..] == x[1..] + b;
      TrimLeftKeepsTail(x[1..], b);
    }
  }

  /** strings.TrimSpace ignores blank text around its argument. */
  lemma TrimSpaceAround(a: string, x: string, b: string)
    requires IsBlank(a) && IsBlank(b)
    ensures TrimSpace(a + x + b) == TrimSpace(x)
  {
    assert a + x + b == a + (x + b);
    TrimLeftBlank(a, x + b);
    if IsBlank(x) {
      TrimSpaceEmpty(x);
      var t := TrimLeftSpace(x + b);
      assert IsBlank(x + b);
      TrimSpaceEmpty(x + b);
    } else {
      TrimLeftKeepsTail(x, b);
      TrimRightBlank(TrimLeftSpace(x), b);
    }
  }

  /** strings.TrimRight(s, string(c)) */
  function TrimRightChar(s: string, c: char): string {
    if |s| > 0 && s[|s| - 1] == c then TrimRightChar(s[..|s| - 1], c) else s
  }

  /** TrimRightChar leaves a prefix of `s` that does not end in `c`, and drops only copies of `c`. */
  lemma {:induction false} TrimRightCharSpec(s: string, c: char)
    ensures var r := TrimRightChar(s, c);
      |r| <= |s| && r == s[..|r|] && (r == [] || r[|r| - 1] != c)
      && forall j | |r| <= j < |s| :: s[j] == c
  {
    if |s| > 0 && s[|s| - 1] == c {
      TrimRightCharSpec(s[..|s| - 1], c);
    }
  }

  /** `p` occurs in `s` at position `i`, compared rune by rune from `p[k]` on. */
  predicate MatchFrom(s: string, i: nat, p: string, k: nat)
    decreases |p| - k
  {
    if k >= |p| then i + k <= |s| else i + k < |s| && s[i + k] == p[k] && MatchFrom(s, i, p, k + 1)
  }

  /** `p` occurs in `s` at position `i`. */
  predicate MatchAt(s: string, i: nat, p: string) {
    MatchFrom(s, i, p, 0)
  }

  lemma {:induction false} MatchFromSlice(s: string, i: nat, p: string, k: nat)
    requires k <= |p|
    ensures MatchFrom(s, i, p, k) <==> i + |p| <= |s| && s[i + k..i + |p|] == p[k..]
    decreases |p| - k
  {
    if k < |p| {
      MatchFromSlice(s, i, p, k + 1);
      if i + |p| <= |s| {
        assert s[i + k..i + |p|] == [s[i + k]] + s[i + k + 1..i + |p|];
        assert p[k..] == [p[k]] + p[k + 1..];
      }
    }
  }

  /** Matching at a position is comparing the slice there. */
  lemma MatchAtSlice(s: string, i: nat, p: string)
    ensures MatchAt(s, i, p) <==> i + |p| <= |s| && s[i..i + |p|] == p
  {
    MatchFromSlice(s, i, p, 0);
  }

  /** strings.HasPrefix */
  predicate HasPrefix(s: string, p: string) {
    MatchAt(s, 0, p)
  }

  lemma HasPrefixSlice(s: string, p: string)
    ensures HasPrefix(s, p) <==> |p| <= |s| && s[..|p|] == p
  {
    MatchAtSlice(s, 0, p);
  }

  /** strings.TrimPrefix */
  function TrimPrefix(s: string, p: string): string {
    if HasPrefix(s, p) && |p| <= |s| then s[|p|..] else s
  }

  lemma TrimPrefixConcat(p: string, x: string)
    ensures TrimPrefix(p + x, p) == x
  {
    HasPrefixSlice(p + x, p);
    assert (p + x)[..|p|] == p;
  }

  /** A string that does not start with the first rune of `p` keeps its prefix. */
  lemma TrimPrefixNoHead(s: string, p: string)
    requires |p| > 0 && (|s| == 0 || s[0] != p[0])
    ensures TrimPrefix(s, p) == s
  {
  }

  predicate HasSuffix(s: string, p: string) {
    |p| <= |s| && s[|s| - |p|..] == p
  }

  /** strings.TrimSuffix */
  function TrimSuffix(s: string, p: string): string {
    if HasSuffix(s, p) then s[..|s| - |p|] else s
  }

  /** strings.Index: the first occurrence of `sub`, or -1. */
  function Index(s: string, sub: string): int {
    IndexFrom(s, sub, 0)
  }

  /** The first occurrence of `sub` at or after position `i`, or -1. */
  function IndexFrom(s: string, sub: string, i: nat): int
    decreases |s| - i
  {
    if i + |sub| > |s| then -1
    else if MatchAt(s, i, sub) then i
    else IndexFrom(s, sub, i + 1)
  }

  lemma {:induction false} IndexFromSpec(s: string, sub: string, i: nat)
    ensures var r := IndexFrom(s, sub, i);
      (r >= 0 ==> i <= r && MatchAt(s, r, sub) && forall j: nat | i <= j < r :: !MatchAt(s, j, sub))
      && (r < 0 ==> r == -1 && forall j: nat | i <= j :: !MatchAt(s, j, sub))
    decreases |s| - i
  {
    if i + |sub| > |s| {
      forall j: nat | i <= j ensures !MatchAt(s, j, sub) {
        MatchAtSlice(s, j, sub);
      }
    } else if !MatchAt(s, i, sub) {
      IndexFromSpec(s, sub, i + 1);
    }
  }

  /** strings.Index finds the first occurrence, and -1 means there is none. */
  lemma IndexSpec(s: string, sub: string)
    ensures Index(s, sub) >= 0 ==> MatchAt(s, Index(s, sub), sub)
    ensures forall j: nat | j < Index(s, sub) :: !MatchAt(s, j, sub)
    ensures Index(s, sub) < 0 ==> Index(s, sub) == -1 && forall j: nat :: !MatchAt(s, j, sub)
  {
    IndexFromSpec(s, sub, 0);
  }

  /** An occurrence found by strings.Index lies inside the string. */
  lemma IndexBounds(s: string, sub: string)
    ensures Index(s, sub) >= 0 ==> Index(s, sub) + |sub| <= |s|
  {
    IndexSpec(s, sub);
    if Index(s, sub) >= 0 {
      MatchAtSlice(s, Index(s, sub), sub);
    }
  }

  /** Text without the first rune of `sub` puts the first occurrence right after it. */
  lemma IndexAfterPrefix(a: string, sub: string, rest: string)
    requires |sub| > 0 && sub[0] !in a
    ensures Index(a + sub + rest, sub) == |a|
  {
    var s := a + sub + rest;
    IndexSpec(s, sub);
    assert s == a + (sub + rest);
    MatchAtSlice(sub + rest, 0, sub);
    assert (sub + rest)[0..|sub|] == sub;
    MatchAtShift(a, sub + rest, 0, sub);
  }

  /** strings.Contains */
  predicate Contains(s: string, sub: string) {
    Index(s, sub) >= 0
  }

  /** An occurrence starts with the first rune of the pattern. */
  lemma MatchAtHead(s: string, i: nat, sub: string)
    requires |sub| > 0 && MatchAt(s, i, sub)
    ensures i < |s| && s[i] == sub[0]
  {
  }

  /** A string without the first rune of `sub` holds no occurrence of it. */
  lemma IndexMissingHead(s: string, sub: string)
    requires |sub| > 0 && sub[0] !in s
    ensures Index(s, sub) == -1
  {
    IndexSpec(s, sub);
  }

  /** Occurrences in `b` are occurrences in `a + b`, shifted by `|a|`. */
  lemma MatchAtShift(a: string, b: string, j: nat, sub: string)
    ensures MatchAt(a + b, |a| + j, sub) <==> MatchAt(b, j, sub)
  {
    MatchAtSlice(a + b, |a| + j, sub);
    MatchAtSlice(b, j, sub);
    if |a| + j + |sub| <= |a + b| {
      assert (a + b)[|a| + j..|a| + j + |sub|] == b[j..j + |sub|];
    }
  }

  /** A prefix without the first rune of `sub` changes nothing about whether `sub` occurs. */
  lemma ContainsAfterPrefix(a: string, b: string, sub: string)
    requires |sub| > 0 && sub[0] !in a
    ensures Contains(a + b, sub) <==> Contains(b, sub)
  {
    IndexSpec(a + b, sub);
    IndexSpec(b, sub);
    if Contains(b, sub) {
      MatchAtShift(a, b, Index(b, sub), sub);
    }
    if Contains(a + b, sub) {
      var i := Index(a + b, sub);
      MatchAtHead(a + b, i, sub);
      MatchAtShift(a, b, i - |a|, sub);
    }
  }

  /** strings.LastIndexByte */
  function LastIndexChar(s: string, c: char): (r: int)
    ensures -1 <= r < |s|
    ensures r >= 0 ==> s[r] == c
    ensures forall j | r < j < |s| :: s[j] != c
  {
    if |s| == 0 then -1
    else if s[|s| - 1] == c then |s| - 1
    else LastIndexChar(s[..|s| - 1], c)
  }

  /** strings.Join */
  function Join(parts: seq<string>, sep: string): string {
    if |parts| == 0 then ""
    else if |parts| == 1 then parts[0]
    else parts[0] + sep + Join(parts[1..], sep)
  }

  lemma {:induction false} JoinSnoc(parts: seq<string>, x: string, sep: string)
    requires |parts| > 0
    ensures Join(parts + [x], sep) == Join(parts, sep) + sep + x
  {
    if |parts| == 1 {
      assert (parts + [x])[1..] == [x];
    } else {
      assert (parts + [x])[1..] == parts[1..] + [x];
      JoinSnoc(parts[1..], x, sep);
    }
  }

  lemma {:induction false} JoinAppend(a: seq<string>, b: seq<string>, sep: string)
    requires |a| > 0 && |b| > 0
    ensures Join(a + b, sep) == Join(a, sep) + sep + Join(b, sep)
  {
    if |a| == 1 {
      assert (a + b)[1..] == b;
    } else {
      assert (a + b)[1..] == a[1..] + b;
      JoinAppend(a[1..], b, sep);
    }
  }

  /** Two blank strings make a blank string. */
  lemma BlankConcat(a: string, b: string)
    requires IsBlank(a) && IsBlank(b)
    ensures IsBlank(a + b)
  {
    forall i | 0 <= i < |a + b| ensures IsSpace((a + b)[i]) {
      if i >= |a| {
        assert (a + b)[i] == b[i - |a|];
      }
    }
  }

  lemma {:induction false} JoinBlank(parts: seq<string>, sep: string)
    requires IsBlank(sep) && forall k | 0 <= k < |parts| :: IsBlank(parts[k])
    ensures IsBlank(Join(parts, sep))
  {
    if |parts| > 1 {
      JoinBlank(parts[1..], sep);
      var j := Join(parts[1..], sep);
      assert forall i | 0 <= i < |parts[0] + sep + j| ::
        (parts[0] + sep + j)[i] == (if i < |parts[0]| then parts[0][i] else if i < |parts[0]| + |sep| then sep[i - |parts[0]|] else j[i - |parts[0]| - |sep|]);
    }
  }

  /** The index of the last line strings.TrimSpace does not empty; 0 when there is none. */
  function LastNonBlank(ls: seq<string>): (r: nat)
    requires |ls| > 0
    ensures r < |ls| && (r == 0 || !IsBlank(ls[r]))
    ensures forall j | r < j < |ls| :: IsBlank(ls[j])
  {
    if !IsBlank(ls[|ls| - 1]) then |ls| - 1
    else if |ls| == 1 then 0
    else LastNonBlank(ls[..|ls| - 1])
  }

  lemma LastNonBlankSnoc(ls: seq<string>, l: string)
    ensures LastNonBlank(ls + [l]) == if !IsBlank(l) then |ls| else if |ls| == 0 then 0 else LastNonBlank(ls)
  {
    assert (ls + [l])[..|ls|] == ls;
  }

  /** strings.Split with a one-rune separator. */
  function Split(s: string, c: char): (r: seq<string>)
    ensures |r| > 0
    decreases |s|
  {
    var i := Index(s, [c]);
    IndexOneChar(s, c);
    if i < 0 then [s] else [s[..i]] + Split(s[i + 1..], c)
  }

  lemma MatchAtOneChar(s: string, j: nat, c: char)
    ensures MatchAt(s, j, [c]) <==> j < |s| && s[j] == c
  {
    assert MatchFrom(s, j, [c], 1) <==> j + 1 <= |s|;
  }

  lemma IndexOneChar(s: string, c: char)
    ensures Index(s, [c]) < 0 <==> c !in s
    ensures Index(s, [c]) >= 0 ==> Index(s, [c]) < |s| && s[Index(s, [c])] == c && c !in s[..Index(s, [c])]
  {
    IndexSpec(s, [c]);
    var i := Index(s, [c]);
    if i >= 0 {
      MatchAtOneChar(s, i, c);
      forall j | 0 <= j < i ensures s[j] != c {
        MatchAtOneChar(s, j, c);
      }
    } else {
      forall j | 0 <= j < |s| ensures s[j] != c {
        MatchAtOneChar(s, j, c);
      }
    }
  }

  /** Splitting at the first occurrence of the separator. */
  lemma SplitFirst(p0: string, c: char, rest: string)
    requires c !in p0
    ensures Split(p0 + [c] + rest, c) == [p0] + Split(rest, c)
  {
    var s := p0 + [c] + rest;
    IndexOneChar(s, c);
    var i := Index(s, [c]);
    assert s[|p0|] == c;
    assert s[..|p0|] == p0;
    assert i == |p0|;
    assert s[..i] == p0;
    assert s[i + 1..] == rest;
  }

  /** Splitting a string joined on a rune that none of its parts holds gives the parts back. */
  lemma {:induction false} SplitJoin(parts: seq<string>, c: char)
    requires |parts| > 0
    requires forall k | 0 <= k < |parts| :: c !in parts[k]
    ensures Split(Join(parts, [c]), c) == parts
  {
    if |parts| > 1 {
      assert c !in parts[0];
      SplitFirst(parts[0], c, Join(parts[1..], [c]));
      SplitJoin(parts[1..], c);
      assert parts == [parts[0]] + parts[1..];
    } else {
      IndexOneChar(parts[0], c);
    }
  }

  /** strings.Replace(s, string(c), r, -1) */
  function ReplaceChar(s: string, c: char, r: string): (t: string)
    ensures c !in r ==> c !in t
    ensures s == [] ==> t == []
    ensures c !in s ==> t == s
  {
    if |s| == 0 then "" else (if s[0] == c then r else [s[0]]) + ReplaceChar(s[1..], c, r)
  }

  /** ReplaceChar works rune by rune: it distributes over concatenation. */
  lemma {:induction false} ReplaceCharConcat(a: string, b: string, c: char, r: string)
    ensures ReplaceChar(a + b, c, r) == ReplaceChar(a, c, r) + ReplaceChar(b, c, r)
  {
    if |a| > 0 {
      var head := if a[0] == c then r else [a[0]];
      calc {
        ReplaceChar(a + b, c, r);
        { assert (a + b)[0] == a[0] && (a + b)[1..] == a[1..] + b; }
        head + ReplaceChar(a[1..] + b, c, r);
        { ReplaceCharConcat(a[1..], b, c, r); }
        head + (ReplaceChar(a[1..], c, r) + ReplaceChar(b, c, r));
        (head + ReplaceChar(a[1..], c, r)) + ReplaceChar(b, c, r);
      }
    } else {
      assert a + b == b;
    }
  }

  /** Joining the pieces of a split on the separator gives the string back. */
  lemma {:induction false} JoinSplit(s: string, c: char)
    ensures Join(Split(s, c), [c]) == s
    decreases |s|
  {
    var i := Index(s, [c]);
    IndexOneChar(s, c);
    if i >= 0 {
      var rest := Split(s[i + 1..], c);
      JoinSplit(s[i + 1..], c);
      assert ([s[..i]] + rest)[1..] == rest;
      assert s == s[..i] + [c] + s[i + 1..];
    }
  }

  /**
   * bufio.ScanLines as used by bufio.Scanner: split on '\n', drop one '\r'
   * before it, and keep a final line that has no '\n' unless it is empty.
   */
  function ScanLines(text: string): (lines: seq<string>)
    ensures forall k | 0 <= k < |lines| :: '\n' !in lines[k]
    decreases |text|
  {
    if |text| == 0 then []
    else
      var i := Index(text, "\n");
      IndexOneChar(text, '\n');
      if i < 0 || i >= |text| then [DropCR(text)] else [DropCR(text[..i])] + ScanLines(text[i + 1..])
  }

  function DropCR(s: string): (r: string)
    ensures '\n' in r ==> '\n' in s
  {
    if |s| > 0 && s[|s| - 1] == '\r' then s[..|s| - 1] else s
  }

  /** A text written as `lines`, each followed by '\n'. */
  function Terminated(lines: seq<string>): string {
    if |lines| == 0 then "" else lines[0] + "\n" + Terminated(lines[1..])
  }

  /** A line bufio.ScanLines hands back unchanged: no '\n' in it and no '\r' at its end. */
  predicate PlainLine(l: string) {
    '\n' !in l && (l == [] || l[|l| - 1] != '\r')
  }

  /** Scanning a text written line by line gives its lines back. */
  lemma {:induction false} ScanTerminated(lines: seq<string>)
    requires forall k | 0 <= k < |lines| :: PlainLine(lines[k])
    ensures ScanLines(Terminated(lines)) == lines
    decreases |lines|
  {
    if |lines| > 0 {
      var l, rest := lines[0], Terminated(lines[1..]);
      var text := l + "\n" + rest;
      IndexAfterPrefix(l, "\n", rest);
      assert text[..|l|] == l && text[|l| + 1..] == rest;
      ScanTerminated(lines[1..]);
      assert lines == [l] + lines[1..];
    }
  }

  /** A text written line by line is its lines joined with '\n', then one more '\n'. */
  lemma {:induction false} TerminatedJoin(lines: seq<string>)
    requires |lines| > 0
    ensures Terminated(lines) == Join(lines, "\n") + "\n"
    decreases |lines|
  {
    if |lines| > 1 {
      TerminatedJoin(lines[1..]);
    }
  }

  /** strconv.ParseUint(s, 10, 64) with its error dropped: 0 on a syntax error, 2^64-1 on overflow. */
  const MaxUint64: nat := 0xFFFF_FFFF_FFFF_FFFF

  predicate IsDigit(c: char) {
    '0' <= c <= '9'
  }

  function DigitsValue(s: string): nat
    requires forall i | 0 <= i < |s| :: IsDigit(s[i])
  {
    if |s| == 0 then 0
    else
      assert IsDigit(s[|s| - 1]);
      DigitsValue(s[..|s| - 1]) * 10 + (s[|s| - 1] as int - '0' as int)
  }

  function ParseUint10(s: string): nat {
    if |s| == 0 then 0 else ParseUintFrom(s, 0, 0)
  }

  /** The digit loop of ParseUint from position i with accumulated value n. */
  function ParseUintFrom(s: string, i: nat, n: nat): nat
    requires i <= |s|
    decreases |s| - i
  {
    if i == |s| then n
    else if !IsDigit(s[i]) then 0
    else if n * 10 + (s[i] as int - '0' as int) > MaxUint64 then MaxUint64
    else ParseUintFrom(s, i + 1, n * 10 + (s[i] as int - '0' as int))
  }

  /** ParseUint never exceeds the largest 64-bit value. */
  lemma ParseUintBound(s: string)
    ensures ParseUint10(s) <= MaxUint64
  {
    if |s| > 0 {
      ParseUintFromBound(s, 0, 0);
    }
  }

  lemma {:induction false} ParseUintFromBound(s: string, i: nat, n: nat)
    requires i <= |s| && n <= MaxUint64
    ensures ParseUintFrom(s, i, n) <= MaxUint64
    decreases |s| - i
  {
    if i < |s| && IsDigit(s[i]) && n * 10 + (s[i] as int - '0' as int) <= MaxUint64 {
      ParseUintFromBound(s, i + 1, n * 10 + (s[i] as int - '0' as int));
    }
  }

  function Pow10(i: nat): nat {
    if i == 0 then 1 else 10 * Pow10(i - 1)
  }

  /** 10^19 still fits in 64 bits. */
  lemma Pow10Nineteen()
    ensures Pow10(19) <= MaxUint64
  {
    assert Pow10(4) == 10_000;
    assert Pow10(8) == 100_000_000;
    assert Pow10(12) == 1_000_000_000_000;
    assert Pow10(16) == 10_000_000_000_000_000;
  }

  lemma {:induction false} Pow10Monotone(i: nat, j: nat)
    requires i <= j
    ensures Pow10(i) <= Pow10(j)
    decreases j
  {
    if i < j {
      Pow10Monotone(i, j - 1);
    }
  }

  /** Fewer than 20 digits cannot overflow, so any character that is not a digit makes the result 0. */
  lemma ParseUintShortNonDigit(s: string, k: nat)
    requires |s| <= 19 && k < |s| && !IsDigit(s[k])
    ensures ParseUint10(s) == 0
  {
    ParseFromShort(s, 0, 0, k);
  }

  lemma {:induction false} ParseFromShort(s: string, i: nat, n: nat, k: nat)
    requires i <= k < |s| <= 19 && !IsDigit(s[k]) && n < Pow10(i)
    ensures ParseUintFrom(s, i, n) == 0
    decreases |s| - i
  {
    if IsDigit(s[i]) {
      var d := s[i] as int - '0' as int;
      assert n * 10 + d < Pow10(i + 1) by {
        assert n <= Pow10(i) - 1;
        assert n * 10 <= Pow10(i) * 10 - 10;
      }
      Pow10Monotone(i + 1, 19);
      Pow10Nineteen();
      ParseFromShort(s, i + 1, n * 10 + d, k);
    }
  }

  /** The value of a prefix of a digit string is at most the value of the whole. */
  lemma {:induction false} DigitsPrefix(s: string, j: nat)
    requires j <= |s| && forall i | 0 <= i < |s| :: IsDigit(s[i])
    ensures DigitsValue(s[..j]) <= DigitsValue(s)
  {
    if j < |s| {
      var init := s[..|s| - 1];
      assert init[..j] == s[..j];
      DigitsPrefix(init, j);
    } else {
      assert s[..j] == s;
    }
  }

  /** A digit string whose value fits in 64 bits parses to that value. */
  lemma ParseUintDigits(s: string)
    requires forall i | 0 <= i < |s| :: IsDigit(s[i])
    requires DigitsValue(s) <= MaxUint64
    ensures ParseUint10(s) == DigitsValue(s)
  {
    if |s| > 0 {
      assert s[..0] == [];
      ParseFromDigits(s, 0);
    }
  }

  lemma {:induction false} ParseFromDigits(s: string, i: nat)
    requires i <= |s| && forall j | 0 <= j < |s| :: IsDigit(s[j])
    requires DigitsValue(s) <= MaxUint64
    ensures ParseUintFrom(s, i, DigitsValue(s[..i])) == DigitsValue(s)
    decreases |s| - i
  {
    if i == |s| {
      assert s[..i] == s;
    } else {
      var next := s[..i + 1];
      assert next[..i] == s[..i] && next[i] == s[i];
      DigitsPrefix(s, i + 1);
      ParseFromDigits(s, i + 1);
    }
  }

  /** The characters of `s` after its last '/', all of `s` when it has none. */
  function AfterLastSlash(s: string): string {
    if |s| == 0 || s[|s| - 1] == '/' then "" else AfterLastSlash(s[..|s| - 1]) + [s[|s| - 1]]
  }

  /** path/filepath.Base on a '/'-separated path. */
  function Base(path: string): string {
    if path == "" then "."
    else
      var p := TrimRightChar(path, '/');
      if p == "" then "/" else AfterLastSlash(p)
  }
}
