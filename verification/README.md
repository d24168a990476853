# nats-by-example: the documentation parser and its helpers, in Dafny

nats-by-example is a collection of runnable NATS examples, one directory per
example and per client language. It comes with tools that turn each
example's source into documentation pages. This project models the core of
those tools, and a few examples whose logic is plain bookkeeping, and proves
properties about them.

- **LineClass** (`line_class.dfy`): the `nbe` line classifier
  `parseLineType`. It sorts each source line into one of five kinds: empty,
  normal, single-line comment, multi-line comment open or close. The rules
  depend on the language.
- **Segment** (`segment.dfy`): `parseReader`, which groups the classified
  lines into numbered blocks (empty, code, single-line comment, multi-line
  comment) and gives the source back joined with `"\n"`.
- **NbeDocs** (`nbe_docs.dfy`): the `nbe` comment cleaners
  (`commonPrefixForLines`, `cleanSingleCommentLines`,
  `cleanMultiCommentLines`) and `renderBlock`. Also the rendering loop of a
  client page and the language links of an example page.
- **CliDocs** (`cli_docs.dfy`): the cleaners of the older `cli` generator,
  which dedent by the smallest indentation, and its `renderBlock`.
- **Order** (`order.dfy`): how `readCategoryDir` and `parseExamples` order
  categories and examples. The names listed in the meta file come first; the
  rest follow.
- **Version** (`version.dfy`): `MultiErr`, the find-and-replace of
  dependency versions in files, the per-client version wrappers, a job's
  versions, and the job enumeration and result keying of the test matrix.
- **Republish** (`republish.dfy`): the configuration table of the JetStream
  republish example. A property is only overwritten by a message with a
  higher stream sequence.
- **ActiveActive** (`active_active.dfy`): the active-active example. It
  covers the `region=url` list, the consumer sequence table, the record of
  acknowledged messages, and the start-sequence rule for re-created
  consumers. It also covers the connection manager's region check.
- **Generate** (`generate.dfy`): `parseSegments` of the older site generator.
  It splits a file into documentation and code segments.
- **Strs** and **Wrappers** (`strs.dfy`, `wrappers.dfy`): the Go string
  functions the code relies on, and `Option`/`Result`.

Strings are sequences of runes. Two notions of white space are kept apart:
`unicode.IsSpace`, which `strings.TrimSpace` uses, and the RE2 class `\s`
(`[\t\n\f\r ]`), which the regular expressions use. A Go panic becomes an
error result. Code that updates state step by step is written as methods
with loops. Each method is proved equal to a specification function, and
the properties are proved as lemmas about those functions.

## Model

| member | source | states |
|---|---|---|
| LineClass.LanguageNamed | cmd/nbe/parse.go:18-33 | the language a client directory name stands for; its name is the given name |
| LineClass.NamesDistinct | cmd/nbe/parse.go:18-33 | the language constants are distinct: each known language is recovered from its own name |
| LineClass.AnchoredMatch | cmd/nbe/parse.go:155-161 | a `^\s*tok` pattern matches exactly after the whole leading RE2 white-space run |
| LineClass.BlankLineIsEmpty | cmd/nbe/parse.go:172-174 | a line is Empty exactly when strings.TrimSpace empties it, for every language |
| LineClass.ShellRules | cmd/nbe/parse.go:177-184 | shell and CLI: a `#!` line is code; otherwise a line is a comment iff `#` follows its leading white space |
| LineClass.HashRules | cmd/nbe/parse.go:202-206 | Python, Ruby, Elixir: a line is a comment iff `#` follows its leading white space; `#!` is a comment there |
| LineClass.NoMultiLineOutsideCStyle | cmd/nbe/parse.go:171-210 | outside the C-style languages no line opens or closes a multi-line comment |
| LineClass.CStyleRules | cmd/nbe/parse.go:186-200 | C-style: a leading `//` is a comment; a leading `/*` opens iff no `*/` is on the line; otherwise any `*/` closes |
| LineClass.UnsupportedLanguageRule | cmd/nbe/parse.go:209 | the classifier fails exactly on a non-blank line of an unlisted language, with that language in the error |
| LineClass.CorrectionOnlyAffectsWebSocket | cmd/nbe/parse.go:186 | the corrected classifier agrees with the code as written on every language but WebSocket |
| LineClass.WebSocketRejectedAsWritten | cmd/nbe/parse.go:186 | as written, every non-blank WebSocket line panics, while the corrected classifier accepts it |
| LineClass.WebSocketCounterexample | cmd/nbe/parse.go:186 | the one-line program `x` panics as written and is a normal line once corrected |
| LineClass.LeadingSpace | cmd/nbe/parse.go:155-161 | leading RE2 white space does not change which pattern matches a line |
| LineClass.OpenVector | cmd/nbe/main_test.go:26 | `  /* hello` opens a multi-line comment in Go |
| LineClass.CloseVector | cmd/nbe/main_test.go:27 | `yep */` closes a multi-line comment in Go |
| LineClass.LineCommentVector | cmd/nbe/main_test.go:28 | a tab-indented `// ba` is a single-line comment in Go |
| LineClass.InlineBlockCommentVector | cmd/nbe/main_test.go:29 | ` /* meh  */ ` is a normal line in Go |
| LineClass.TrailingCommentVector | cmd/nbe/main_test.go:30 | code with a trailing `//` comment is a normal line |
| LineClass.DivisionVector | cmd/nbe/main_test.go:31 | ` 1 / 2 ` is a normal line |
| LineClass.BlankVector | cmd/nbe/main_test.go:32 | a line of tabs is empty |
| LineClass.HashVectors | cmd/nbe/main_test.go:35-36 | `\t\t#  ba` and `##ba` are Python comments |
| Segment.StepContents | cmd/nbe/parse.go:228-317 | one line adds itself to the stored lines, or twice for a blank line as written, and nothing else changes |
| Segment.RunWithSnoc | cmd/nbe/parse.go:223-318 | a successful scan over some lines extends the successful scan over all but the last line |
| Segment.RoundTrip | cmd/nbe/parse.go:212-324 | the blocks' lines, concatenated in order, are exactly the scanned lines |
| Segment.RoundTripAsWritten | cmd/nbe/parse.go:241-242 | as written, the concatenated blocks hold every blank line twice |
| Segment.RunNumbered | cmd/nbe/parse.go:215-234 | after a scan, the blocks are numbered without gaps from line 1, and a raised end flag means a multi-line comment is current |
| Segment.EnterStep | cmd/nbe/parse.go:228-236 | a step from any state equals the step from the state with the end flag handled, and never leaves the flag raised outside a multi-line comment |
| Segment.BlockNumbering | cmd/nbe/parse.go:215-234 | the first block starts at line 1, each block starts right after the previous one, the last ends at the last line, and each holds exactly the lines its numbers span |
| Segment.BlockKinds | cmd/nbe/parse.go:244-312 | neighbouring block kinds follow the switch's transitions; only the last block can stay Empty; neighbours share a kind only as two multi-line comments |
| Segment.KindFor | cmd/nbe/parse.go:244-300 | a line type decides a block's kind exactly when it is neither blank nor a close |
| Segment.FirstSignificant | cmd/nbe/parse.go:244-300 | the first line of a block that decides its kind is significant |
| Segment.SignificantNotBlank | cmd/nbe/parse.go:241-242 | a line that decides a block's kind is never blank |
| Segment.BlockStructure | cmd/nbe/parse.go:228-317 | each block's kind is the one its first significant line calls for; each multi-line comment block but the last ends with its close; a block not after a multi-line comment starts with a significant, non-blank line |
| Segment.FailureIsFinal | cmd/nbe/parse.go:311 | after the first panic, later lines do not change the error |
| Segment.StrayClose | cmd/nbe/parse.go:302-312 | a close line fails exactly inside a single-line comment block; inside Empty or Code it is absorbed; inside a multi-line comment it ends the block |
| Segment.UnsupportedLanguageRun | cmd/nbe/parse.go:209 | an unlisted language fails exactly when some line is not blank; a listed language never fails that way |
| Segment.ParseReader | cmd/nbe/parse.go:212-324 | the loop of the corrected scan (each line stored once, WebSocket classified as C-style) returns the blocks of the scanned lines and their `"\n"`-join, or the first failure |
| Segment.ReaderStep | cmd/nbe/parse.go:223-318 | one more line is the classifier's error, or a step from the state the scan so far left |
| Segment.ReaderFails | cmd/nbe/parse.go:311 | a failure on a prefix of the text is the failure of the whole text |
| Segment.HandleLine | cmd/nbe/parse.go:239-317 | the switch on line type and block type, then the append, is one step of the scan, and fails exactly when the step fails; with `blankTwice` the step is the code as written (an empty line appended twice), without it the corrected step |
| Segment.RunClassified | cmd/nbe/parse.go:223-318 | once each line's type is known, the scan is the fold of the steps over those types |
| Segment.RunSteps | cmd/nbe/parse.go:223-318 | the scan of classified lines ends where the steps over their types end |
| Segment.StepsChain | cmd/nbe/parse.go:223-318 | a chain of states, each one step from the one before, ends where the scan of the steps ends |
| ReaderExamples.GoExample | cmd/nbe/main_test.go:39-60 | the Go text of parseReader's test parses into 4 blocks (package comment, package clause, function comment, function) with the given lines, and the source handed back is the text without its last "\n" |
| ReaderExamples.PythonExample | cmd/nbe/main_test.go:62-87 | the Python text of parseReader's test parses into 6 blocks, alternating line comments and code, with the given lines, and the source handed back is the text without its last "\n" |
| NbeDocs.FirstNonBlankFrom | cmd/nbe/docs.go:314-329 | the first line from a position that TrimSpace does not empty, or none when all are blank |
| NbeDocs.CommonPrefix | cmd/nbe/docs.go:314-329 | the index returned is -1 or a line of the input |
| NbeDocs.CommonPrefixSpec | cmd/nbe/docs.go:314-329 | ("", -1) exactly for all-blank input; the slice fails exactly when the first non-blank line lacks the delimiter; otherwise the prefix is that line's text before its first delimiter |
| NbeDocs.CommonPrefixForLines | cmd/nbe/docs.go:314-329 | the loop returns what CommonPrefix describes |
| NbeDocs.CleanSingleCommentLines | cmd/nbe/docs.go:334-349 | the loop returns what CleanSingle describes |
| NbeDocs.UncommentLines | cmd/nbe/docs.go:336-346 | the loop turns every line from the first comment line on into that line without the indentation, the delimiter and one space, in order |
| NbeDocs.UncommentLine | cmd/nbe/docs.go:340-345 | cleaning a written line comment gives its body back |
| NbeDocs.CleanBlankLine | cmd/nbe/docs.go:340-345 | a blank line stays blank through the line cleaner |
| NbeDocs.CommentBlockFound | cmd/nbe/docs.go:314-329 | a written comment block is found at its first line, with its indentation as the prefix |
| NbeDocs.TrailingBlankLines | cmd/nbe/docs.go:348 | blank lines after the text do not change the trimmed join |
| NbeDocs.CleanedBlock | cmd/nbe/docs.go:334-349 | the cleaned lines of a written block join and trim to the bodies' text |
| NbeDocs.CleanSingleUncomments | cmd/nbe/docs.go:334-349 | round trip: a line-comment block cleans to the trimmed join of its bodies, with its indentation as the prefix |
| NbeDocs.KeepLine | cmd/nbe/docs.go:353-373 | one step of the loop appends the line and moves the last non-blank index to it when it is not blank |
| NbeDocs.CleanMultiCommentLines | cmd/nbe/docs.go:353-373 | the loop returns what CleanMulti describes |
| NbeDocs.KeepLines | cmd/nbe/docs.go:356-366 | the loop keeps every line from the first comment line on, without the indentation and the first without the opener, and ends at the last non-blank one |
| NbeDocs.KeptWritten | cmd/nbe/docs.go:353-367 | the kept lines of a written multi-line comment are an empty opening line, the bodies, the bare close, then blank lines |
| NbeDocs.CleanMultiUncomments | cmd/nbe/docs.go:353-373 | round trip: a written multi-line comment cleans to the trimmed join of its bodies, with its indentation as the prefix |
| NbeDocs.CleanedMultiText | cmd/nbe/docs.go:368-372 | with the close cut, the kept lines join and trim to the bodies' text |
| NbeDocs.RenderKinds | cmd/nbe/docs.go:412-439 | code renders as "code", both comment kinds as "comment", an Empty block as ""; the comment cleaners' panics are error results, and a code block never fails here because its highlighting error (docs.go:418-421) is left out with syntax highlighting; a code block's text splits back into its lines |
| NbeDocs.RenderClient | cmd/nbe/docs.go:246-259 | the loop yields an empty comment entry first when the first block is code, then the rendered blocks, or the first failure |
| NbeDocs.RenderEach | cmd/nbe/docs.go:253-259 | the loop over the blocks appends each rendered entry and returns the first failure |
| NbeDocs.RenderAllFails | cmd/nbe/docs.go:254-257 | a failure on a prefix of the blocks is the result for all of them |
| NbeDocs.RenderAllSpec | cmd/nbe/docs.go:253-259 | the loop succeeds exactly when every block renders, with one entry per block in order; otherwise it returns the error of the first block that fails |
| NbeDocs.RenderedStartsWithComment | cmd/nbe/docs.go:248-251 | when a client renders, its first entry is never code |
| NbeDocs.IndexLinkPath | cmd/nbe/docs.go:159-164 | the path of the client in the first language of languageOrder the example has, or "" when it has none |
| NbeDocs.LanguageLinks | cmd/nbe/docs.go:213-226 | one link per language of languageOrder, in order, with its label and the path of a client in that language, or "" |
| CliDocs.Indent | cli/docs.go:192 | the match of `^(\s+)` is no longer than the line |
| CliDocs.NoIndent | cli/docs.go:192 | a line that no RE2 space starts has no indentation |
| CliDocs.IndentConcat | cli/docs.go:192 | indentation in front of a line adds its length to the line's indentation |
| CliDocs.ReSpaceIsSpace | cli/docs.go:192 | text made of RE2 spaces is blank for strings.TrimSpace |
| CliDocs.MinIndent | cli/docs.go:202-220 | the offset is -1 or more |
| CliDocs.MinIndentSpec | cli/docs.go:202-220 | the offset is -1 exactly when no line is counted, and otherwise the least indentation of a counted line |
| CliDocs.MinIndentSnoc | cli/docs.go:202-220 | one more line lowers the offset as the loop body does |
| CliDocs.CleanSingleCommentLines | cli/docs.go:198-231 | the loops return what CleanSingleAsWritten describes |
| CliDocs.StripLines | cli/docs.go:202-220 | the first loop strips each line and tracks the offset over every stripped line |
| CliDocs.DedentLines | cli/docs.go:222-228 | the second loop removes the offset from every non-empty line |
| CliDocs.StripWritten | cli/docs.go:203-205 | a written line comment strips to its body behind one space, or to "" for an empty body |
| CliDocs.CleanSingleUncomments | cli/docs_test.go:41-60 | round trip of the corrected cleaner: written line comments clean to the trimmed join of their bodies |
| CliDocs.CleanSingleAsWrittenKeepsSpace | cli/docs.go:210-211 | as written, one empty body forces the offset to 0, so the bodies keep their leading space |
| CliDocs.CleanSingleEmptyLineCounterexample | cli/docs.go:210-211 | `// a`, `// b` and an empty line clean to "a\n b" as written and to "a\nb" once corrected |
| CliDocs.OpenerFrom | cli/docs.go:240-265 | the first line holding `/*` from a position, or none when no line holds one |
| CliDocs.LookAt | cli/docs.go:240-265 | one step of the first loop finds or carries the opening line and keeps the lines from it |
| CliDocs.CleanMultiCommentLines | cli/docs.go:235-281 | the loops return what CleanMulti describes |
| CliDocs.FindOpener | cli/docs.go:240-265 | the first loop finds the first line with `/*`, keeps the lines from it, and takes the offset over every non-blank line it looks at |
| CliDocs.LowerByLine | cli/docs.go:252-263 | one step of the offset loop keeps the least indentation of the non-blank lines seen so far, -1 while there is none |
| CliDocs.DedentTrimLines | cli/docs.go:267-274 | the second loop dedents and right-trims the non-blank lines and finds the last of them |
| CliDocs.DedentTrimAt | cli/docs.go:267-274 | one step of the second loop skips a blank line and dedents and right-trims any other |
| CliDocs.SeenWritten | cli/docs.go:240-265 | the lines a written block comment shows the offset loop: its own, with the opening line cut after the opener |
| CliDocs.OffsetWritten | cli/docs.go:240-265 | the offset of a written block comment is its indentation |
| CliDocs.CleanMultiUncomments | cli/docs_test.go:63-84 | round trip: a written block comment cleans to the trimmed join of its bodies |
| CliDocs.DedentTrimWritten | cli/docs.go:267-278 | the kept lines of a written block comment dedent to an empty line, the bodies, the bare closer, then blank lines |
| CliDocs.NonBlank | cli/docs.go:302-308 | the non-blank lines, none of them blank |
| CliDocs.CleanCodeLines | cli/docs.go:283-313 | as written, the input lines come back joined, unchanged |
| CliDocs.IndentedBlank | cli/docs.go:304 | a line behind indentation is blank exactly when its body is |
| CliDocs.DedentIndented | cli/docs.go:302-308 | dedenting indented lines by the indentation's length gives back the non-blank bodies |
| CliDocs.CleanCodeDedents | cli/docs_test.go:10-39 | the corrected cleaner turns indented lines, one of them not indented further, into their non-blank bodies |
| CliDocs.CleanCodeCounterexample | cli/docs.go:310 | `""`, `"  x"` come back as "\n  x" as written and as "x" once corrected |
| CliDocs.RenderBlockCorrection | cli/docs.go:341-363 | renderBlock as written and with the intended cleaners agree on the kind, on failure and on block comments and empty blocks; as written, code is its lines joined and line comments are CleanSingleAsWritten's text |
| CliDocs.RenderCodeCounterexample | cli/docs.go:344-346 | as written, the code block `""`, `"  x"` is handed on as "\n  x"; with the intended cleaner it is "x" |
| CliDocs.RenderBlockKinds | cli/docs.go:341-363 | code renders as "code", both comment kinds as "comment", an Empty block as ""; only a block comment can fail, exactly when its cleaner does |
| Order.Collect | cmd/nbe/parse.go:447-462 | the map holds exactly the directories with at least one example, each under its name |
| Order.FirstMention | cmd/nbe/parse.go:465-471 | the index of the first mention of a name in the meta file |
| Order.MetaOrderMembers | cmd/nbe/parse.go:465-471 | the meta file's names taken first are distinct, and are the found names it mentions |
| Order.MetaOrderFirst | cmd/nbe/parse.go:465-471 | the names taken first are in the order of their first mention in the meta file |
| Order.FirstMentionPrefix | cmd/nbe/parse.go:465-471 | appending a name to the meta file does not move an earlier first mention |
| Order.TakeListed | cmd/nbe/parse.go:465-471 | the first loop takes the meta file's found names in its order, with their values, and deletes them from the map |
| Order.AppendRest | cmd/nbe/parse.go:473-476 | the second loop appends every remaining name once, in some order, after the taken ones |
| Order.OrderByMeta | cmd/nbe/parse.go:464-476 | every found name once; the meta file's names first in its order; the rest, none of them in the meta file, after |
| Order.Arrange | cmd/nbe/parse.go:507-538 | a directory level: every kept entry once with its value; the kept names the meta file lists come first, in the meta file's order, and no entry outside the meta file comes before one in it |
| Version.Empty | cmd/nbe/version.go:28-35 | true exactly when no entry is an error, an empty list included |
| Version.ErrorString | cmd/nbe/version.go:37-48 | the messages of the non-nil entries, in order, one per line |
| Version.MessagesSpec | cmd/nbe/version.go:37-48 | there is a message for each non-nil entry, and none at all exactly when every entry is nil |
| Version.Wrap | cmd/nbe/version.go:177-180 | nil exactly when no entry is an error; otherwise an error whose message lists the entries' messages |
| Version.FindAndReplace | cmd/nbe/version.go:102-125 | a missing file or a file without a match is no error and no change; otherwise every match is replaced; only the path can change; an error is the path's fault |
| Version.FindAndReplaceMulti | cmd/nbe/version.go:127-134 | the loop runs the paths in order and stops at the first failure |
| Version.ReplaceInOrderAppend | cmd/nbe/version.go:127-134 | two path lists run as the first, then the second unless the first failed |
| Version.StopsAtFirstFailure | cmd/nbe/version.go:129-131 | the first failing path's error is returned wrapped with the path, and no later path is touched |
| Version.ReplaceInOrderFrame | cmd/nbe/version.go:127-134 | only the listed paths can change, no file is added or removed, and an error comes from a faulty listed path |
| Version.SetOne | cmd/nbe/version.go:168-181 | a single-replacement wrapper is nil exactly when its replacement is, and leaves the files as the replacement does |
| Version.SetCLIVersion | cmd/nbe/version.go:183-200 | both Dockerfile replacements run; nil exactly when both succeed |
| Version.SetGoVersion | cmd/nbe/version.go:202-223 | nothing happens without a go.mod; another Stat error is returned as is; a failed replacement is returned, wrapped, before `go get`; otherwise the result of `go get` on the replaced disk; nil exactly when there is no go.mod, or the replacement and `go get` both succeed |
| Version.DenoAll | cmd/nbe/version.go:273-280 | one entry per globbed file, all of them run |
| Version.DenoStep | cmd/nbe/version.go:267-285 | a failed glob is wrapped with the base directory; otherwise nil exactly when every file succeeds |
| Version.SetDenoAllVersion | cmd/nbe/version.go:267-285 | the loop returns what DenoStep describes |
| Version.ReplaceSteps | cmd/nbe/version.go:351-362 | the nine wrappers of replaceVersions, in order |
| Version.ReplaceVersions | cmd/nbe/version.go:351-367 | nil exactly when all nine wrappers return nil |
| Version.SetVersionsSteps | cmd/nbe/version.go:334-344 | the nine wrappers of setVersions, in order |
| Version.SetVersions | cmd/nbe/version.go:329-349 | a versions file that cannot be read is returned as is; otherwise nil exactly when all nine wrappers return nil |
| Version.JobVersions | cmd/nbe/version.go:378-402 | the server version, and the client version in exactly the field of the job's client |
| Version.MatrixVersionsSpec | cmd/nbe/version.go:498-520 | the matrix has versions for a client name exactly when it is one of the nine clients; every other name is an unknown client |
| Version.RowSpec | cmd/nbe/version.go:525-533 | one job per client version for a server version |
| Version.GridLength | cmd/nbe/version.go:524-534 | an example gets servers × versions jobs |
| Version.GridMembers | cmd/nbe/version.go:524-534 | an example's jobs are exactly the listed (server, client version) pairs |
| Version.EnqueueExample | cmd/nbe/version.go:524-534 | the nested loops enqueue the example's grid in order |
| Version.FirstUnknown | cmd/nbe/version.go:495-520 | the first example whose client is unknown, with every earlier client known |
| Version.FirstUnknownFrom | cmd/nbe/version.go:495-520 | from a given example on, the first one whose client is unknown, with every client before it known |
| Version.EnqueueExampleOf | cmd/nbe/version.go:495-534 | an example's client is the last path element, its versions come from the matrix, and its grid follows |
| Version.EnqueueJobs | cmd/nbe/version.go:495-535 | the loop enqueues what Enumerate describes, and records each client's versions |
| Version.GridsSound | cmd/nbe/version.go:495-535 | every enqueued job pairs a listed server version with a listed version of its example's client |
| Version.GridsComplete | cmd/nbe/version.go:495-535 | every example gets a job for every listed (server, client version) pair |
| Version.EnumerateError | cmd/nbe/version.go:518-519 | enumeration fails exactly when some example's client is unknown |
| Version.CollectResults | cmd/nbe/version.go:544-559 | the loop builds what RecordAll describes |
| Version.RecordAllLookup | cmd/nbe/version.go:544-559 | the results hold the last outcome reported for each client, example and version pair, and nothing else |
| Republish.Updated | examples/jetstream/republish/go/main.go:195-213 | Set inserts an absent key; a present one takes the new sequence and value when the sequence is higher and is kept otherwise; the other keys are left alone |
| Republish.Config.constructor | examples/jetstream/republish/go/main.go:215-219 | a new table is empty |
| Republish.Config.Get | examples/jetstream/republish/go/main.go:184-193 | "" for an absent key, the stored value otherwise |
| Republish.Config.Set | examples/jetstream/republish/go/main.go:195-213 | the table after Set is Updated of the old one |
| Republish.WinnerIndex | examples/jetstream/republish/go/main.go:195-213 | the winning update's index is -1 or an update |
| Republish.WinnerIndexSpec | examples/jetstream/republish/go/main.go:195-213 | the winner names the key, has the highest sequence among its updates, and no earlier update has it |
| Republish.AppliedIsWinner | examples/jetstream/republish/go/main.go:195-213 | a table built from empty holds, per key, the value of the winning update |
| Republish.AppliedWinner | examples/jetstream/republish/go/main.go:195-213 | a key is present exactly when some Set named it, and holds the first update with the highest sequence |
| Republish.AppliedMonotone | examples/jetstream/republish/go/main.go:195-213 | a key's stored sequence never decreases |
| Republish.ParseConfigEntry | examples/jetstream/republish/go/main.go:221-234 | the key is the subject after its last '.', the value is the payload, and the sequence fits in 64 bits and is 0 without a header |
| Republish.ConfigEntryUnparsable | examples/jetstream/republish/go/main.go:231 | a short sequence header containing a non-digit gives 0 |
| Republish.ConfigEntryDecimal | examples/jetstream/republish/go/main.go:231 | a decimal sequence header that fits in 64 bits gives its value |
| ActiveActive.FirstInvalid | examples/use-cases/active-active/cli/main.go:48-52 | the first token that is not `region=url`, with every earlier one valid |
| ActiveActive.ParseRegionUrls | examples/use-cases/active-active/cli/main.go:45-57 | the loop returns the first invalid token as an error, or the region table and order |
| ActiveActive.EmptyUrlsFail | examples/use-cases/active-active/cli/main.go:48-52 | an empty URL list fails with "invalid url: " |
| ActiveActive.RegionsOf | examples/use-cases/active-active/cli/main.go:49 | one region per token |
| ActiveActive.AddAllKeys | examples/use-cases/active-active/cli/main.go:53-56 | the table maps exactly the regions the tokens name |
| ActiveActive.AddAllUrls | examples/use-cases/active-active/cli/main.go:56 | each region's URLs are its tokens' URLs, in input order |
| ActiveActive.UrlsForAbsent | examples/use-cases/active-active/cli/main.go:56 | a region no token names has no URLs |
| ActiveActive.AddAllOrder | examples/use-cases/active-active/cli/main.go:53-55 | the region order is the regions in the order of their first mention |
| ActiveActive.MetaOrderKeys | examples/use-cases/active-active/cli/main.go:53-55 | the first-mention order does not depend on extra keys |
| ActiveActive.RegionOrderSpec | examples/use-cases/active-active/cli/main.go:53-55 | the order lists each region once, and exactly the regions the tokens name, by first mention |
| ActiveActive.ConsumerSeqs.constructor | examples/use-cases/active-active/cli/main.go:368-373 | both tables start empty |
| ActiveActive.ConsumerSeqs.Get | examples/use-cases/active-active/cli/main.go:381-387 | the stored sequence, or 0 when none is stored |
| ActiveActive.ConsumerSeqs.Set | examples/use-cases/active-active/cli/main.go:389-397 | the same sequence under (stream, name) and under (region, stream, name); nothing else changes |
| ActiveActive.GetAfterUnset | examples/use-cases/active-active/cli/main.go:381-397 | Get is 0 for a stream and name no Set named |
| ActiveActive.GetAfterLast | examples/use-cases/active-active/cli/main.go:381-397 | Get is the sequence of the last Set for the stream and name, whatever region it gave |
| ActiveActive.StartFrom | examples/use-cases/active-active/cli/main.go:163-167 | no stored sequence keeps the configuration; otherwise start by sequence at the stored one plus 1, in 64-bit arithmetic |
| ActiveActive.PushConfig | examples/use-cases/active-active/cli/main.go:156-167 | "push-handler", delivering to "push-handler-" and the region; deliver all exactly when nothing is stored |
| ActiveActive.PullConfig | examples/use-cases/active-active/cli/main.go:169-178 | "pull-handler", no deliver subject; deliver all exactly when nothing is stored |
| ActiveActive.AckMsgs.constructor | examples/use-cases/active-active/cli/main.go:525-528 | no messages recorded |
| ActiveActive.AckMsgs.Add | examples/use-cases/active-active/cli/main.go:530-539 | exactly one record is appended, and the earlier ones are unchanged |
| ActiveActive.ConnManager.constructor | examples/use-cases/active-active/cli/main.go:403-416 | the region URLs given, no current region, no connection |
| ActiveActive.ConnManager.SetupConn | examples/use-cases/active-active/cli/main.go:435-516 | an unknown region is an error and nothing changes; otherwise the region becomes current even if connecting fails; on success the connection uses the region's URLs joined with "," |
| Generate.DocsMatchLen | tools/generate.go:94 | docsPat's match at the start of a line is absent, or at least 2 runes and within the line |
| Generate.DocsMatchComplete | tools/generate.go:94 | whenever a prefix of the line is in docsPat's language, the match is that prefix |
| Generate.DocsMatchSound | tools/generate.go:151-159 | the text of a documentation line follows white space, `//` or `#`, and one white-space rune |
| Generate.ExpandTabs | tools/generate.go:137 | no tab is left |
| Generate.ExpandTabsSpec | tools/generate.go:137 | each tab becomes four spaces, and everything else is kept |
| Generate.ExpandAll | tools/generate.go:136-139 | one expanded line per line |
| Generate.Step | tools/generate.go:145-177 | a segment to extend exists whenever something was seen since the last empty line |
| Generate.Scanned | tools/generate.go:145-178 | the loop's state always has a segment to extend when one is needed |
| Generate.ExpandLines | tools/generate.go:135-139 | the first loop gives the expanded lines and the lines as read |
| Generate.ScanSegments | tools/generate.go:142-178 | the segmenting loop returns the segments Scanned describes |
| Generate.SetFlags | tools/generate.go:180-184 | each segment's contents are kept; CodeEmpty iff its code is empty, CodeLeading iff it is not the last, CodeRun iff its code contains "package main" |
| Generate.ParseSegments | tools/generate.go:129-187 | the file content is the file's text, and the segments are those of its lines with the flags set |
| Generate.Run | tools/generate.go:145-178 | reading more lines keeps the state valid |
| Generate.ScannedAppend | tools/generate.go:145-178 | reading lines in two parts is reading the second part from the state the first leaves |
| Generate.EmptyLineCloses | tools/generate.go:146-149 | an empty line keeps the segments, and the next non-empty line starts a new segment |
| Generate.DocsRunOpens | tools/generate.go:153-162 | documentation lines where a new segment is due open one segment holding their texts joined with "\n" |
| Generate.CodeRunOpens | tools/generate.go:154-171 | code lines where a new segment is due open one segment holding them joined with "\n" |
| Generate.DocsRunExtends | tools/generate.go:158-165 | documentation lines that do not open a segment append "\n" and their joined texts to the last segment's documentation |
| Generate.CodeRunExtends | tools/generate.go:168-174 | code lines that do not open a segment append "\n" and the joined lines to the last segment's code, so code right after documentation starts with "\n" |

## Left out

- Reading files and directories, `bufio.Scanner` read errors and the meta YAML files. Texts, directory listings and meta lists are inputs. In Order, the errors of reading a directory, a meta file or an example are not modelled: the listings are taken as read.
- The maximum token size of `bufio.Scanner` is not modelled.
- Regular expressions: the classifier patterns, wsRe and docsPat are written out as predicates on runes. The version patterns of version.go are an abstract matcher with FindAll and ReplaceAll.
- Go map iteration order, in the remainder loops of the ordering code and the client loops of the page generator, is a nondeterministic choice.
- Mutexes, goroutines, channels, the worker pool of the test matrix, timeouts and image builds are left out. The operations run one at a time here.
- HTML, Markdown and template rendering, syntax highlighting and file output are left out. RenderBlock stops at the text handed to those renderers.
- Version: `go get` and the Deno glob are inputs. A write fault leaves the file unchanged, so partial writes are not modelled. `filepath.Join` is concatenation with "/", since the directories used are clean and have no trailing "/".
- Republish: subscriptions and the key-value stream are left out. `string(msg.Data)` is taken as the data itself.
- ActiveActive: the connection itself, its reconnect and closed handlers, the failover loop over the other regions, and the JetStream consumer calls are left out. The outcome of connecting is an input to SetupConn.
- Generate: the rendered fields (DocsRendered, CodeRendered, CodeForJs) and the rest of tools/generate.go are not part of this model.
- CliDocs: the block type is the `nbe` parser's Block; the older parser that produces cli blocks is not part of this model.
- CliDocs.RenderBlock: renders with the intended cleaners (CleanCode, CleanSingle), so its code and line-comment texts are not the ones cli/docs.go:344-353 produces as written; those are RenderBlockAsWritten's, the joined lines and CleanSingleAsWritten, and CliDocs.RenderBlockCorrection relates the two.
- Segment.ParseReader: a Go panic is modelled as an error result, not as a crash.
- Segment.ParseReader, Segment.HandleLine: ParseReader runs the corrected scan, which stores each empty line once and classifies WebSocket as a C-style language; HandleLine with `blankTwice` false is its step. The double append as written is HandleLine with `blankTwice` true and Segment.RunAsWritten; the WebSocket panic as written is LineClass.WebSocketRejectedAsWritten. RunAsWritten classifies with the corrected classifier, so it shows the double append alone.

## Findings

| source | as written | input that shows it | evidently intended | confidence | as-written member | corrected member |
|---|---|---|---|---|---|---|
| cmd/nbe/parse.go:186 | the C-style case of parseLineType omits WebSocket, although every language table lists it, so a non-blank WebSocket line panics | language websocket, line `x` | WebSocket classified like the other C-style languages | high, not executed | LineClass.WebSocketCounterexample | LineClass.CStyleRules |
| cmd/nbe/parse.go:241-242 | an empty line is appended in the EmptyLine case and again after the switch (line 316), so it is stored twice | Go text `a`, empty line, `b` | every line stored once, so that the blocks concatenate to the source | high, not executed | Segment.RoundTripAsWritten | Segment.RoundTrip |
| cli/docs.go:310 | cleanCodeLines returns the joined input before the dedent at line 312 | lines `""`, `"  x"` | the non-blank lines dedented by their least indentation, as cli/docs_test.go:10-39 expects | high, not executed | CliDocs.CleanCodeCounterexample | CliDocs.CleanCodeDedents |
| cli/docs.go:210-211 | an empty stripped line (an empty comment, or a blank line) forces the offset to 0, so no line is dedented | lines `// a`, `// b`, `""` give "a\n b" | blank lines ignored by the offset, giving "a\nb", as cli/docs_test.go:41-60 expects | high, not executed | CliDocs.CleanSingleEmptyLineCounterexample | CliDocs.CleanSingleUncomments |
