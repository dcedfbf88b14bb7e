# aggdsl translator, modelled in Dafny

This project models the core of aggdsl: the translator between the line-oriented
aggregation DSL and the nested JSON body of a Pendo Aggregation API request. It
also models three small helpers from the Pendo tooling that work on those bodies.

- **Ast** (`ast.dfy`): the frozen `Query`, `EventSource`, `TimeSeries` and
  `Stage` records as datatypes. The untyped stage payload becomes one `Stage`
  constructor per kind. `merge`, `spawn` and branch-form `fork` own nested `Query`
  values.
- **Parser** (`scanners.dfy`, `args.dfy`, `patterns.dfy`, `stages.dfy`,
  `parser.dfy`):
  - the character loops that split tokens, comma lists, bracket items and group
    assignments, each a `method` with a `while` loop proved equal to a fold over
    the characters;
  - scalar coercion and the regular expressions, written out as explicit
    case-insensitive shape checks;
  - the per-kind stage parser;
  - the line-indexed driver `parse`, with its merge, spawn and multi-line raw
    blocks. Each block re-enters the line-level parser on the lines it collected.
- **Compiler** (`compiler.dfy`): `compile_pipeline`, `_compile_stage` and the
  envelope builders, over an ordered JSON datatype whose objects are key/value
  sequences with Python's insertion order.
- **Decompiler** (`decompiler.dfy`): body normalisation, the source stage, the
  priority-ordered stage renderer with its `raw` fallback, and merge and spawn
  pipelines.
- **Round trip** (`roundtrip.dfy`): a pipeline of `filter`, `identified` and
  `limit` stages, decompiled, parsed and compiled again, gives back the same
  pipeline. This holds both for a bare pipeline and for the legacy
  `{"request": [...]}` body.
- **Pendo tools**:
  - `validate.dfy`: the envelope check `validate_aggregation_body`;
  - `rewrite.dfy`: `_walk`, `resolve_now` and `rewrite_on_error`;
  - `env.dfy`: `load_dotenv`, as a class `Environment` holding the process
    environment as a map, with a loop over the lines of the file.

`json.loads`, `json.dumps` and Python's `str` of a list or dict are not
re-implemented. They are fields of a `Codec` value that every operation needing
them takes as a parameter. Round trips that depend on what `json.dumps` does to a
plain string state that as a precondition (`QuotesPlainly`).

Where the prose description of the system and the code differ, the model follows
the code:

- `resolve_now` replaces a `now()` string under any dictionary key, not only under
  `timeSeries.first` and `timeSeries.last`.
- A merge block without `endmerge` is accepted. It runs to the end of the input,
  because the `i > len(lines)` guard of `_parse_merge_block` can never hold.

## Model

| member | source | states |
|---|---|---|
| Ast.MakeQuery | src/aggdsl/dsl_ast.py:32-38 | a query built without the optional fields has response type `application/json` and no request name |
| JsonData.PyStr | src/aggdsl/decompiler.py:260-261 | `str(v)` gives a string back unchanged, `None` for null, `True`/`False` for booleans, and an integer as decimal digits whose value is that integer, after a `-` when it is negative |
| Strings.CleanLines | src/aggdsl/parser.py:166-167 | lines are stripped, and blank and `#` lines are dropped; every kept line is non-empty, stripped and has no `#` first |
| Strings.ReparseJoinedLines | src/aggdsl/parser.py:499 | cleaned lines joined with `\n`, split and cleaned again come back unchanged |
| Scanners.Flush | src/aggdsl/parser.py:51-54 | the buffer is appended stripped exactly when something is left after stripping; clean item lists stay clean |
| Scanners.SplitTokens | src/aggdsl/parser.py:37-84 | every token is stripped and non-empty |
| Scanners.SplitTokensPreservingGroups | src/aggdsl/parser.py:37-84 | the character loop, with quote, escape and paren-depth state, returns exactly `SplitTokens` |
| Scanners.SplitTokensJoin | src/aggdsl/parser.py:37-84 | tokens that keep every space inside quotes or parentheses, joined by single spaces, split back into the same tokens: a quoted or parenthesised group is one token |
| Scanners.QuotedPairIsToken | src/aggdsl/parser.py:37-84 | `key="text"` with any quote-free text, spaces included, is one token |
| Scanners.CalledTokenIsGroup | src/aggdsl/parser.py:70-79 | a plain name followed by parentheses round any text free of quotes, backslashes and parentheses is one token: the spaces inside the parentheses do not split it |
| Scanners.SplitByComma | src/aggdsl/parser.py:670-716 | every piece is stripped and non-empty (empty pieces are dropped) |
| Scanners.SplitByCommaRespectingGroups | src/aggdsl/parser.py:670-716 | the character loop, with quote, escape, paren- and bracket-depth state, returns exactly `SplitByComma` |
| Scanners.SplitByCommaJoin | src/aggdsl/parser.py:670-716 | pieces that keep every comma inside quotes, parentheses or brackets, joined by `, `, split back into the same pieces |
| Scanners.QuotedCaseIsPiece | src/aggdsl/parser.py:670-716 | a switch case `"a"=="b"` of quote-free texts is one piece, commas inside the quotes included |
| Scanners.CalledPieceIsGroup | src/aggdsl/parser.py:698-711 | a name followed by `(a)`, for any `a` free of quotes, backslashes, parentheses and brackets, is one piece: the commas inside the parentheses do not split |
| Scanners.BracketedPieceIsGroup | src/aggdsl/parser.py:698-711 | `[a]`, for any `a` free of quotes, backslashes, parentheses and brackets, is one piece: the commas inside the brackets do not split |
| Scanners.QuotedPieceIsGroup | src/aggdsl/parser.py:689-711 | `"a"`, for any `a` free of quotes and backslashes, is one piece: the commas inside the quotes do not split |
| Scanners.SplitBracketItems | src/aggdsl/parser.py:106-129 | the item loop of `_parse_bracket_args` returns the fold of its step over the characters |
| Scanners.BracketItemsJoin | src/aggdsl/parser.py:106-129 | items free of commas, quotes and backslashes joined by `,` split back into the same items |
| Scanners.SplitAssignments | src/aggdsl/parser.py:749-767 | the assignment loop of `_parse_group` returns the fold of its step over the characters |
| Scanners.AssignmentsJoin | src/aggdsl/parser.py:749-767 | assignments each kept whole by the loop, calls with commas inside their parentheses included, joined by `, ` split back into the same assignments |
| Scanners.BalancedJsonObject | src/aggdsl/parser.py:609-636 | `Balanced`: the depth loop of `balanced_json_object` returns the fold of its step over the characters |
| Scanners.BraceRunUnquoted | src/aggdsl/parser.py:616-631 | over text without quotes or backslashes the depth changes by the number of `{` minus the number of `}` |
| Scanners.QuotedBracesIgnored | src/aggdsl/parser.py:616-627 | braces inside a quoted string without escapes do not change the depth (`Balanced` ignores them) |
| Scanners.QuotedBracesBalanced | src/aggdsl/parser.py:609-636 | `{"..."}` is balanced whatever braces the quoted text holds |
| Args.ParseScalar | src/aggdsl/parser.py:87-94 | exactly `[]` is the empty list; a quoted token gives the text between its quotes; a digit string, leading zeros allowed, gives its value; `-` then digits gives the negated value; any other token stays the same string |
| Args.ParseScalarEdges | src/aggdsl/parser.py:87-94 | `-` and `-x` stay strings, `007` reads as 7 and `-0` as 0 |
| Args.ParseScalarInt | src/aggdsl/parser.py:92-93 | the decimal rendering of any integer, negative ones included, reads back as that integer |
| Args.ParseScalarQuoted | src/aggdsl/parser.py:88-89 | a double-quoted token reads back as the text between the quotes, with no unescaping |
| Args.ParseScalarWord | src/aggdsl/parser.py:94 | a token that is not quoted, not `[]` and not a number stays the same string |
| Args.ScalarInt | src/aggdsl/parser.py:233 | `int()` keeps an integer, converts a string exactly when Python's `int()` accepts it, to that value, and fails on the empty list |
| Args.ScalarIntText | src/aggdsl/parser.py:233 | the decimal text of any integer converts back to that integer |
| Args.CoerceTimeValue | src/aggdsl/parser.py:301-310 | an integer stays, `now()` in any case becomes `"now()"`, other strings stay, and only the empty list fails |
| Args.SplitKvPairs | src/aggdsl/parser.py:22-34 | the loop equals the fold of the token loop's output into a dictionary |
| Args.KvFoldNeedsEquals | src/aggdsl/parser.py:29-31 | a part without `=` anywhere in the list makes the whole pair list an error |
| Args.KvFoldKeeps | src/aggdsl/parser.py:32-33 | every key already assigned is still present after the remaining parts |
| Args.KvPairsText | src/aggdsl/parser.py:22-34 | `KvPairs`: `key=value` tokens joined by spaces, quoted values with spaces included, give each key its parsed scalar, a repeated key taking its last value |
| Args.BracketArgs | src/aggdsl/parser.py:97-101 | text not wrapped in `[` and `]` after stripping is an error |
| Args.BracketArgsText | src/aggdsl/parser.py:97-139 | `[k1=v1,k2=v2,...]` gives each key, split at its first `=`, its parsed scalar, a repeated key taking its last value |
| Args.BracketArgsDistinct | src/aggdsl/parser.py:131-139 | an accepted argument list holds every key once |
| Args.BracketArgsOfBrackets | src/aggdsl/parser.py:99-104 | wrapped text is parsed from the stripped text between the brackets; blank brackets give no arguments |
| Args.ParseBracketArgs | src/aggdsl/parser.py:97-139 | the loops of `_parse_bracket_args` return exactly `BracketArgs` |
| Args.ParseBracketInner | src/aggdsl/parser.py:102-139 | the item loop and the dictionary loop return exactly the bracket fold |
| Args.FillBracketArgs | src/aggdsl/parser.py:131-139 | the dictionary loop returns exactly the bracket fold |
| Args.BraceMap | src/aggdsl/parser.py:649-667 | text not wrapped in `{` and `}` is an error, and so is `{}` with nothing but spaces inside |
| Args.BraceMapText | src/aggdsl/parser.py:649-667 | `{ k1=v1, k2=v2, ... }` gives each key, split at its first `=`, its value as raw text, a repeated key taking its last value |
| Args.BraceFoldNeedsEquals | src/aggdsl/parser.py:660-664 | an item without `=` makes the whole map an error |
| Args.ParseBraceMap | src/aggdsl/parser.py:649-667 | the loops of `_parse_brace_map` return exactly `BraceMap` |
| Args.FillBraceMap | src/aggdsl/parser.py:659-667 | the dictionary loop returns exactly the brace fold |
| Patterns.WsThenRest | src/aggdsl/parser.py:143 | `\s+(.+)$` matches exactly when there are two characters or more and the first is whitespace; `\s*(.+)$` matches any non-empty text; the captured rest is a non-empty suffix |
| Patterns.KeywordRest | src/aggdsl/parser.py:143-146 | a match means the line starts with the keyword in any case |
| Patterns.KeywordRestOf | src/aggdsl/parser.py:143-146 | keyword, one space and a rest starting with a non-space match with exactly that rest |
| Patterns.PipeRest | src/aggdsl/parser.py:144 | `_PIPE_RE` matches exactly the lines of two characters or more that start with `\|` |
| Patterns.PipeRestOf | src/aggdsl/parser.py:144 | `\| ` followed by text starting with a non-space matches with that text |
| Patterns.IdentLen | src/aggdsl/parser.py:149 | a greedy identifier match is empty exactly when the text does not start with a letter or `_` |
| Patterns.FromArgs | src/aggdsl/parser.py:142 | the captured argument list starts with `[` and ends with `]` |
| Patterns.FromArgsOf | src/aggdsl/parser.py:142 | `FROM event([...])` matches with exactly the bracketed argument list as its capture |
| Patterns.SwitchMatch | src/aggdsl/parser.py:148-151 | the output variable and the field both start with a letter or `_` |
| Patterns.SwitchMatchOf | src/aggdsl/parser.py:148-151 | `switch out from field {body}` with identifiers `out` and `field` matches with exactly those three captures |
| Patterns.MergeHeaderMatch | src/aggdsl/parser.py:152-155 | the captured field list holds no `]` |
| Patterns.MergeHeaderMatchOf | src/aggdsl/parser.py:152-155 | `merge fields [f]` matches with `f` and no mappings |
| Patterns.MergeHeaderMappingsOf | src/aggdsl/parser.py:152-155 | `merge fields [f] mappings {m}` matches with `f` and the braced mappings |
| Patterns.GroupTail | src/aggdsl/parser.py:720 | a captured mode is `map` or `list` |
| Patterns.GroupTailOf | src/aggdsl/parser.py:720 | ` {body}` matches with no mode and that body |
| Patterns.GroupTailMapOf | src/aggdsl/parser.py:720 | ` map {body}` matches with mode `map` and that body |
| Patterns.GroupKeyword | src/aggdsl/parser.py:720 | the keyword matched is one of the alternatives, and a captured mode is `map` or `list` |
| Patterns.GroupKeywordFieldsOf | src/aggdsl/parser.py:720 | `fields` followed by a matching tail matches with the keyword `fields` and the tail's mode and body |
| Patterns.NonSpaceLen | src/aggdsl/parser.py:720 | a greedy `[^\s]+` run stops exactly at the first whitespace |
| Patterns.GroupRegex | src/aggdsl/parser.py:719-722 | the keyword is `fields`, `fieldsmap` or `field`, the mode is `map` or `list`, and the group text is non-empty without whitespace |
| Patterns.GroupRegexOf | src/aggdsl/parser.py:719-722 | `group by g <rest>` with `g` free of whitespace matches with group text `g` and the keyword, mode and body of the rest |
| Patterns.AggExpr | src/aggdsl/parser.py:776 | a match splits the expression as `agg(arg)` where `agg` is made of identifier characters only, so the split is at the first `(`; an expression that is empty, does not start with an identifier character or does not end with `)` does not match |
| Patterns.AggExprOf | src/aggdsl/parser.py:776 | every `agg(arg)` with an identifier `agg` matches with exactly `agg` and `arg`, so the split is at the `(` after the identifier |
| Patterns.JoinFieldsMatchOf | src/aggdsl/parser.py:336 | `fields [f]` matches with `f` captured |
| Patterns.CaseSplitOf | src/aggdsl/parser.py:353 | `v==id` with stripped `v` free of `=` and stripped `id` splits into `v` and `id` |
| Stages.StrippedPieces | src/aggdsl/parser.py:339 | every kept piece is stripped and non-empty |
| Stages.CommaFields | src/aggdsl/parser.py:423 | every field of a comma list is stripped and non-empty |
| Stages.CommaFieldsJoin | src/aggdsl/parser.py:339 | clean comma-free fields joined with `,` split back into the same fields |
| Stages.StringsJson | src/aggdsl/compiler.py:101-105 | a brace map becomes an object with the same keys, each value the same text as a JSON string |
| Stages.ScalarsJson | src/aggdsl/compiler.py:27-29 | FROM parameters become an object with the same keys and each scalar's JSON value |
| Stages.SwitchCaseOf | src/aggdsl/parser.py:353-358 | a case fails exactly when it has no `value == id` shape |
| Stages.SwitchCaseText | src/aggdsl/parser.py:353-358 | `v==id` reads as the case whose value and identifier are the scalar texts of `v` and `id` |
| Stages.SwitchCaseQuoted | src/aggdsl/parser.py:353-358 | `"a"=="b"` reads as the case `a`, `b` |
| Stages.SwitchCasesFrom | src/aggdsl/parser.py:351-358 | the case loop succeeds exactly when every part is a case, and then yields one case per part |
| Stages.SwitchCasesElems | src/aggdsl/parser.py:351-358 | the cases read are, in order, the case of each part |
| Stages.SwitchCasesFromError | src/aggdsl/parser.py:351-358 | a failure is the failure of some part |
| Stages.SwitchCases | src/aggdsl/parser.py:351-358 | the case loop returns exactly `SwitchCasesFrom` |
| Stages.UnwindValue | src/aggdsl/parser.py:371-377 | `true`/`false` in any case, and nothing else, become booleans with that value; other values stay text |
| Stages.UnwindFoldGet | src/aggdsl/parser.py:370-377 | every key of the unwind map holds its own coerced value |
| Stages.CoerceUnwind | src/aggdsl/parser.py:370-377 | the coercion loop equals the fold |
| Stages.ParseSegment | src/aggdsl/parser.py:380-400 | an accepted segment always holds `id`, and an empty argument is an error |
| Stages.SegmentWordText | src/aggdsl/parser.py:390-395 | a bare word not starting with `{` or `"` and free of `=` is the segment id |
| Stages.SegmentQuotedText | src/aggdsl/parser.py:390-395 | a quoted word free of `=` is the segment id, without its quotes |
| Stages.SegmentIdText | src/aggdsl/parser.py:380-400 | `id="a"` gives the id `a` |
| Stages.RawJsonObject | src/aggdsl/parser.py:582-592 | accepted exactly when the stripped text is wrapped in braces and `json.loads` returns an object, which is the result; otherwise the not-wrapped error, `Invalid JSON in raw stage: ` followed by the decoder's message, or the not-an-object error |
| Stages.GroupFieldOf | src/aggdsl/parser.py:773-785 | the aggregate is an identifier, and an argument reading `null` in any case is never kept |
| Stages.GroupFieldText | src/aggdsl/parser.py:773-785 | `alias=agg(arg)` reads as the field with that alias, aggregate and argument, `null` in any case read as no argument |
| Stages.GroupFieldsFrom | src/aggdsl/parser.py:769-785 | the assignment loop keeps at most one field per assignment |
| Stages.GroupFieldsFromAll | src/aggdsl/parser.py:769-785 | when every assignment reads as a field, the loop gives exactly those fields in order |
| Stages.CollectGroupFields | src/aggdsl/parser.py:769-785 | the assignment loop returns exactly `GroupFieldsFrom` |
| Stages.ParseGroup | src/aggdsl/parser.py:725-787 | a line not matching `_GROUP_RE` fails; an explicit mode wins, otherwise `fieldsMap`/`field` mean map form; group keys are stripped and non-empty |
| Stages.GroupPartsRead | src/aggdsl/parser.py:749-785 | every clean `alias=agg(arg)` part is one assignment and reads back as its field |
| Stages.ParseGroupText | src/aggdsl/parser.py:725-787 | `group by g1,g2 fields { a1=f1(x1), ... }` gives those group keys and one field per part, in order, in list form |
| Stages.ParseGroupStage | src/aggdsl/parser.py:725-787 | the loops of `_parse_group` return exactly `ParseGroup` |
| Stages.ParseMergeHeader | src/aggdsl/parser.py:435-453 | a header must match; its fields are non-empty, stripped and free of `]`; mappings are present exactly when written |
| Stages.ParseMergeHeaderText | src/aggdsl/parser.py:435-453 | `merge fields [f1,f2]` gives those fields and no mappings |
| Stages.ParseMergeHeaderMappingsText | src/aggdsl/parser.py:435-453 | `merge fields [...] mappings { k=v, ... }` gives those fields and the mappings as a brace map |
| Stages.ParseStage | src/aggdsl/parser.py:313-432 | an unknown keyword fails; no block stage comes out; identified and join are non-empty; limit is non-negative; sort keys are non-empty and stripped; a segment has an `id` |
| Stages.IdentifiedStage | src/aggdsl/parser.py:319-323 | accepted exactly when the field is non-empty |
| Stages.JoinStage | src/aggdsl/parser.py:334-342 | text not matching `fields [...]` fails, and an accepted join has at least one field |
| Stages.JoinStageText | src/aggdsl/parser.py:334-342 | `fields [f1,f2]` gives the join on exactly those fields |
| Stages.SwitchStage | src/aggdsl/parser.py:345-359 | a matched switch line yields a switch stage or an error |
| Stages.SwitchStageText | src/aggdsl/parser.py:345-359 | `switch out from field { p1, p2 }` gives that output and field and, in order, the case of each part |
| Stages.SwitchStageQuoted | src/aggdsl/parser.py:345-359 | with quoted cases `"a"=="b"`, the cases are exactly the pairs written |
| Stages.LimitStage | src/aggdsl/parser.py:414-418 | accepted exactly when the text is a digit string, giving a non-negative limit |
| Stages.SortStage | src/aggdsl/parser.py:421-426 | an accepted sort has at least one key, each stripped and non-empty |
| Stages.SortStageText | src/aggdsl/parser.py:421-426 | comma-separated clean keys, `+`/`-` prefixes kept, give the sort on exactly those keys |
| Stages.SwitchStageLine | src/aggdsl/parser.py:345-359 | the comma and case loops return exactly `SwitchStage` |
| Stages.ParseStageLine | src/aggdsl/parser.py:313-432 | the stage parser with its loops returns exactly `ParseStage` |
| Parser.ParseLines | src/aggdsl/parser.py:166-298 | no lines is an error; a parsed query has a time series only with an event source, and then exactly one of count and last |
| Parser.Headers | src/aggdsl/parser.py:175-194 | a line that is neither RESPONSE nor REQUEST, or the end of the input, ends the loop with the values so far; a header line whose `key=value` pairs do not read fails with that error; the loop ends at a line within the input |
| Parser.HeadersSpan | src/aggdsl/parser.py:175-194 | every line the header loop consumes is a RESPONSE or REQUEST line |
| Parser.HeadersStop | src/aggdsl/parser.py:175-194 | the loop stops at the first line that is neither |
| Parser.HeaderLastMime | src/aggdsl/parser.py:176-185 | the response type is the `mimeType` of the last RESPONSE line that sets one, or the default when none does |
| Parser.HeaderLastName | src/aggdsl/parser.py:186-194 | the request name is the `name` of the last REQUEST line that sets one, or the default when none does |
| Parser.HeaderMimeKept | src/aggdsl/parser.py:176-185 | without a RESPONSE line setting `mimeType` the response type is kept |
| Parser.HeaderNameKept | src/aggdsl/parser.py:186-194 | without a REQUEST line setting `name` the request name is kept |
| Parser.HeaderDefaults | src/aggdsl/parser.py:168-194 | a parsed query without such lines has response type `application/json` and no request name |
| Parser.TimeSeriesOf | src/aggdsl/parser.py:219-243 | `period` and `first` are required, and so is exactly one of `count` and `last`; period is the text of `period`, first the coerced `first`, count the `int()` of `count` and last the coerced `last`; with all of these present and convertible the line is accepted |
| Parser.FromLine | src/aggdsl/parser.py:206-213 | the FROM line is accepted exactly when it matches, its arguments parse and they hold `source`, which names the source |
| Parser.FromLineParams | src/aggdsl/parser.py:209-213 | the source's parameters are the arguments without `source` |
| Parser.TimeSeriesLine | src/aggdsl/parser.py:217-244 | a bad key/value list is an error, and a result has exactly one of count and last |
| Parser.Opening | src/aggdsl/parser.py:196-244 | a PIPELINE line gives no source; otherwise a line that does not match FROM is an error, and the source is the FROM line's value; a TIMESERIES line right after is consumed and gives the time series; the header values are kept |
| Parser.SourceAt | src/aggdsl/parser.py:196-197 | running out of lines before FROM or PIPELINE is an error |
| Parser.StagesFrom | src/aggdsl/parser.py:246-298 | a line not starting with `\|` is an error naming it; a stage that fails to parse fails the loop with its message; otherwise the stage parsed at the line is the next one appended; the loop only appends stages and never changes the source, the time series, the response type or the request name |
| Parser.StageAt | src/aggdsl/parser.py:248-290 | each pass of the stage loop consumes at least one line and stays within the input |
| Parser.StageAtDispatch | src/aggdsl/parser.py:252-289 | a `spawn` line gives the spawn block's branches, a `merge` line the merge stage, a `raw` or `bulkExpand` line the object gathered from it and the lines after, and any other line the one-line stage parser's result |
| Parser.MergeHeaderStage | src/aggdsl/parser.py:260-261 | a merge header gives a merge stage with at least one field |
| Parser.MergeStageOf | src/aggdsl/parser.py:260-273 | a merge stage is accepted exactly when its header and its block parse; it carries the header's fields and mappings and the block's query, and goes on after the block |
| Parser.MergeLine | src/aggdsl/parser.py:476-492 | a line closes the block exactly when its control text reads `endmerge`; otherwise a `\|\|` line is refused with the merge message, a `>>` line is kept as `\|` and the rest of the line, and any other line is kept as it is |
| Parser.MergeLinesSpec | src/aggdsl/parser.py:473-497 | the merge line loop keeps every line up to the first one that is not kept; the block ends after that line when it is `endmerge`, fails when it is refused, and runs to the end of the input when there is none |
| Parser.MergeLines | src/aggdsl/parser.py:473-493 | the block loop moves forward and stays within the input |
| Parser.MergeBlock | src/aggdsl/parser.py:456-499 | a block whose lines fail is an error, one with no lines is `EmptyMergeBlock`, and an accepted block ends where the line loop ends |
| Parser.MergeBlockParts | src/aggdsl/parser.py:456-499 | an accepted block's query is the parse of the lines the loop collected |
| Parser.BranchLine | src/aggdsl/parser.py:536-566 | a line closes the branch exactly when its control text reads `endbranch`; a single-`\|` line outside a merge block is refused, and only such a line; `\|\|` lines are kept as `\|` and the rest; a `\|\| merge` line opens a merge block |
| Parser.BranchLines | src/aggdsl/parser.py:533-567 | the branch loop ends at the end of the input with the lines so far, ends after an `endbranch` line, fails with the message of a refused line, and otherwise appends the line as `BranchLine` keeps it; it moves forward and stays within the input |
| Parser.BranchQuery | src/aggdsl/parser.py:531-572 | a branch whose lines fail is an error, one with no lines is `EmptyBranch`, and an accepted branch ends where the line loop ends |
| Parser.BranchQueryParts | src/aggdsl/parser.py:531-572 | an accepted branch's query is the parse of the lines the loop collected |
| Parser.SpawnFrom | src/aggdsl/parser.py:523-579 | running out of lines is `MissingEndspawn`; a line other than `branch` or `endspawn` is an error naming it; `endspawn` ends the block with the branches so far; a failing branch fails the block with its message; otherwise the parsed branch is the next query appended; branches are only appended |
| Parser.SpawnBlock | src/aggdsl/parser.py:502-579 | the same for the whole block: `MissingEndspawn`, the unexpected-line error, the failing branch, and an immediate `endspawn` giving no branches |
| Parser.RawFrom | src/aggdsl/parser.py:638-646 | at a `\|` line or at the end of the input the gathering stops and the result is the decoding of the text gathered so far, at that line; the loop moves forward and stays within the input |
| Parser.RawFromStopsAt | src/aggdsl/parser.py:638-646 | the gathering stops at the first line at which the text balances, a `\|` line starts or the lines run out, and the result is the decoding of the text gathered so far |
| Parser.RawStopUnique | src/aggdsl/parser.py:638-646 | that stopping line is unique |
| Parser.RawStopsAtStage | src/aggdsl/parser.py:640-642 | a `\|` line stops the gathering |
| Parser.ParseTextOfLines | src/aggdsl/parser.py:165-167 | `ParseText`: parsing clean lines joined with `\n` is parsing those lines |
| Parser.ParseTextLinesClean | src/aggdsl/parser.py:166-167 | every line `parse` keeps is clean |
| Parser.MergeLineClean | src/aggdsl/parser.py:485-491 | a merge block keeps clean lines clean, `>>` lines included |
| Parser.BranchLineClean | src/aggdsl/parser.py:562-565 | a spawn branch keeps clean lines clean, `\|\|` lines included |
| Parser.MergeLinesClean | src/aggdsl/parser.py:473-493 | every line a merge block collects is clean |
| Parser.BranchLinesClean | src/aggdsl/parser.py:533-567 | every line a spawn branch collects is clean |
| Parser.MergeBlockReparse | src/aggdsl/parser.py:499 | re-parsing the joined block text gives the same result as parsing the collected lines |
| Parser.BranchQueryReparse | src/aggdsl/parser.py:571 | re-parsing the joined branch text gives the same result as parsing the collected lines |
| Parser.Parse | src/aggdsl/parser.py:165-298 | the method returns exactly the parse of the text |
| Parser.ParseLinesImpl | src/aggdsl/parser.py:168-298 | the header loop, opening and stage loop return exactly `ParseLines` |
| Parser.ParseFromLine | src/aggdsl/parser.py:206-213 | the FROM line with its argument loops returns exactly `FromLine` |
| Parser.ParseTimeSeriesLine | src/aggdsl/parser.py:217-244 | the TIMESERIES line with its loops returns exactly `TimeSeriesLine` |
| Parser.ParseOpening | src/aggdsl/parser.py:196-244 | the opening lines with their loops return exactly `Opening` |
| Parser.SourceImpl | src/aggdsl/parser.py:196-298 | the opening and stage loop return exactly `SourceAt` |
| Parser.StagesImpl | src/aggdsl/parser.py:246-290 | the stage loop returns exactly `StagesFrom` |
| Parser.StageAtImpl | src/aggdsl/parser.py:248-290 | one pass of the stage loop returns exactly `StageAt` |
| Parser.MergeStageImpl | src/aggdsl/parser.py:260-273 | the merge branch returns exactly `MergeStage` |
| Parser.MergeLinesImpl | src/aggdsl/parser.py:473-493 | the merge line loop returns exactly `MergeLines` |
| Parser.MergeBlockImpl | src/aggdsl/parser.py:456-499 | returns exactly `MergeBlock` |
| Parser.SpawnBlockImpl | src/aggdsl/parser.py:502-579 | the branch loop returns exactly `SpawnBlock` |
| Parser.BranchLinesImpl | src/aggdsl/parser.py:533-567 | the branch line loop returns exactly `BranchLines` |
| Parser.RawMultiline | src/aggdsl/parser.py:595-646 | the continuation loop returns exactly `RawFrom` |
| Compiler.TimeValueJson | src/aggdsl/compiler.py:36-51 | an integer stays; `now()` becomes the timestamp exactly when one is supplied; other strings stay |
| Compiler.OptionalEntry | src/aggdsl/compiler.py:48-51 | an optional entry is added at the end only when present, and nothing else changes |
| Compiler.TimeSeriesJson | src/aggdsl/compiler.py:44-52 | `period` and `first` always come first; `count` is present exactly when set, negatives kept; `last` exactly when set |
| Compiler.SourceObject | src/aggdsl/compiler.py:27-52 | the source object holds the event parameters under the source type and the time series under `timeSeries`, and nothing else |
| Compiler.StringList | src/aggdsl/compiler.py:175 | a list of strings becomes a JSON list of the same strings in order |
| Compiler.FieldsList | src/aggdsl/compiler.py:186-192 | list form: one `{alias: {agg: arg}}` per field, in order, with `null` for no argument |
| Compiler.SwitchCasesJson | src/aggdsl/compiler.py:159 | one `{value, ==}` object per case, in order |
| Compiler.MergeJson | src/aggdsl/compiler.py:117-124 | the merge object holds the fields and the nested pipeline, and `mappings` exactly when mappings are given |
| Compiler.LeafStage | src/aggdsl/compiler.py:95-194 | fails exactly for an unknown kind, a non-list fork or a non-object sessionReplays; every result other than raw is a one-key object |
| Compiler.CompileToAggregationWithFormat | src/aggdsl/compiler.py:67-91 | only the `object` format succeeds; the body holds `response` with location `request` and the query's mime type, and `request` with the compiled pipeline and `name` exactly when the query has one |
| Compiler.CompileToAggregation | src/aggdsl/compiler.py:62-64 | succeeds exactly when the pipeline compiles |
| Compiler.CompileStagesOntoShape | src/aggdsl/compiler.py:56-57 | `CompileStage` over the stage loop: it succeeds exactly when every stage compiles, and then appends one fragment per stage in order |
| Compiler.CompileStagesOntoError | src/aggdsl/compiler.py:56-57 | a failing stage loop fails with the message of the first stage that fails |
| Compiler.CompilePipelineShape | src/aggdsl/compiler.py:21-59 | `CompilePipeline`: the pipeline is the source stage when there is an event source, then one fragment per stage, in order |
| Compiler.CompileBranchesOntoShape | src/aggdsl/compiler.py:164 | the branches compile to one pipeline each, in order, and fail exactly when one fails |
| Compiler.FieldsMapGet | src/aggdsl/compiler.py:181-183 | map form: each alias holds the aggregate of the last field with that alias |
| Compiler.FieldsMapDistinct | src/aggdsl/compiler.py:181-183 | map form never holds an alias twice |
| Compiler.PipelineNowFree | src/aggdsl/compiler.py:36-42 | a query without `now()` compiles the same whatever timestamp is supplied, nested pipelines included |
| Compiler.StageNowFreeSame | src/aggdsl/compiler.py:119 | a stage without `now()` compiles the same whatever timestamp is supplied |
| Compiler.CompilePipelineImpl | src/aggdsl/compiler.py:21-59 | the append loop returns exactly `CompilePipeline` |
| Compiler.CompileBranchesImpl | src/aggdsl/compiler.py:164 | the branch loop returns exactly the branch fold |
| Compiler.FieldsListImpl | src/aggdsl/compiler.py:186-191 | the list loop returns exactly `FieldsList` |
| Compiler.FieldsMapImpl | src/aggdsl/compiler.py:181-183 | the map loop returns exactly `FieldsMap` |
| Compiler.CompileStageImpl | src/aggdsl/compiler.py:94-194 | returns exactly `CompileStage` |
| Decompiler.NormalizeBody | src/aggdsl/decompiler.py:60-78 | a list becomes the request; anything but a list or dict fails; a dict is accepted exactly when `request` is a list, or a dict holding `pipeline`, and is returned as it is |
| Decompiler.EntryTexts | src/aggdsl/decompiler.py:317-319 | one `k=v` text per entry, in order, with `str` of the value |
| Decompiler.FormatBracketValue | src/aggdsl/decompiler.py:323-327 | a value that is not a string is rendered with `str` |
| Decompiler.FormatTimeValue | src/aggdsl/decompiler.py:330-335 | every value is rendered with `str` |
| Decompiler.StringItems | src/aggdsl/decompiler.py:256 | defined exactly when every item is a string, and then lists those strings in order |
| Decompiler.StringListOf | src/aggdsl/decompiler.py:150-151 | defined exactly for a list of strings, giving those strings in order |
| Decompiler.PyStrs | src/aggdsl/decompiler.py:214 | `str` of each item, in order |
| Decompiler.EventEntry | src/aggdsl/decompiler.py:90-104 | the first key other than `timeSeries` whose value is null or a dict; none exactly when there is no such key |
| Decompiler.BracketParts | src/aggdsl/decompiler.py:106-108 | one `k=v` part per parameter, in order |
| Decompiler.TimeSeriesParts | src/aggdsl/decompiler.py:112-125 | missing period or first fails; otherwise it fails exactly when neither count nor last is there; count wins over last |
| Decompiler.SourceStageLines | src/aggdsl/decompiler.py:81-129 | a source that is not a dict gives `PIPELINE` and the stage as raw; no event entry fails; otherwise the FROM line, plus a second line exactly when `timeSeries` is a dict; that line is `TIMESERIES ` followed by the `TimeSeriesParts` joined with spaces, and when the parts fail (no period/first, or neither count nor last) the whole stage fails with that error |
| Decompiler.GroupPart | src/aggdsl/decompiler.py:221-231 | defined exactly when the aggregate is a one-key dict, and then reads `alias=agg(arg)` with `null` for a `None` argument |
| Decompiler.GroupListParts | src/aggdsl/decompiler.py:215-231 | defined exactly when every item is a one-key dict holding a one-key dict, and then one part per item in order |
| Decompiler.GroupMapParts | src/aggdsl/decompiler.py:238-247 | defined exactly when every aggregate is a one-key dict, and then one part per alias in order |
| Decompiler.GroupText | src/aggdsl/decompiler.py:209-252 | rendered exactly when `group` is a list and `fields` is a list of renderable one-key parts or a dict of renderable parts |
| Decompiler.CaseText | src/aggdsl/decompiler.py:204-206 | defined exactly when the case is a dict with `value` and `==`, and then reads `value==id` with both sides rendered as switch scalars (JSON-quoted strings) |
| Decompiler.CaseTextsElems | src/aggdsl/decompiler.py:202-206 | the cases render exactly when every case does, one text per case in order |
| Decompiler.SwitchText | src/aggdsl/decompiler.py:193-207 | rendered exactly when there is one out variable, one field, a case list, and every case renders |
| Decompiler.SegmentId | src/aggdsl/decompiler.py:184-186 | the `id` entry, only when it is a string or an integer |
| Decompiler.LeafStageLine | src/aggdsl/decompiler.py:132-134 | anything but a one-key dict is rendered as raw |
| Decompiler.KeyedLineFallback | src/aggdsl/decompiler.py:136-278 | `KeyedLine`: a one-key stage of a known shape renders with its key right after the prefix, and as the raw line exactly when its shape is unknown |
| Decompiler.LeafStageFallback | src/aggdsl/decompiler.py:276-278 | a one-key stage renders as raw exactly when its shape is unknown |
| Decompiler.MergeHeader | src/aggdsl/decompiler.py:154-171 | a header exists exactly when the fields are strings and mappings are absent, null or a dict; its text for each case |
| Decompiler.EndSpawn | src/aggdsl/decompiler.py:273 | both branches of the closing line give the prefix followed by ` endspawn` |
| Decompiler.DecompileStage | src/aggdsl/decompiler.py:132-278 | at least one line; anything but a one-key dict is raw; several lines only for a merge ending in `endmerge` or a spawn from `spawn` to `endspawn` |
| Decompiler.DecompileSpawn | src/aggdsl/decompiler.py:263-274 | a spawn with a non-list branch is raw; otherwise it renders as `<prefix> spawn`, the branch blocks in order, then `<prefix> endspawn` |
| Decompiler.DecompileMerge | src/aggdsl/decompiler.py:154-174 | a merge without a header or a list pipeline is raw; otherwise it renders as the header, its pipeline's lines prefixed `\|`, then `endmerge` |
| Decompiler.BranchBlock | src/aggdsl/decompiler.py:269-272 | a branch renders as `branch`, its pipeline's lines prefixed `\|\|`, then `endbranch` |
| Decompiler.SpawnBranchesAppend | src/aggdsl/decompiler.py:268-273 | `SpawnBranchesOnto` from any lines renders exactly what it renders from nothing, put after those lines, and fails with the same error when a branch fails |
| Decompiler.SpawnBranchesCons | src/aggdsl/decompiler.py:269-272 | the branch blocks are the first branch's block followed by the rest's |
| Decompiler.StagesLinesAppend | src/aggdsl/decompiler.py:281-311 | `StagesLinesOnto`: the stage lines are appended after what is already there |
| Decompiler.StagesLinesCons | src/aggdsl/decompiler.py:281-311 | the stage lines are the first stage's lines followed by the rest's |
| Decompiler.PipelineLinesAppend | src/aggdsl/decompiler.py:281-311 | `PipelineLines`: the pipeline lines are appended after what is already there |
| Decompiler.ResponseLines | src/aggdsl/decompiler.py:25-27 | a RESPONSE line exactly when `response` is a dict with `mimeType` |
| Decompiler.RequestLines | src/aggdsl/decompiler.py:42-43 | a REQUEST line exactly when the request is a dict whose `name` is not None |
| Decompiler.DecompileLines | src/aggdsl/decompiler.py:21-57 | a body that does not normalise fails, and so does a request whose pipeline is not a list |
| Decompiler.Decompile | src/aggdsl/decompiler.py:11-57 | the text is the lines joined with `\n`, plus a final `\n` |
| Decompiler.StagesLinesOntoShape | src/aggdsl/decompiler.py:54-55 | `StagesLinesOnto`: the stage loop succeeds exactly when every stage does, and keeps the lines before it |
| Decompiler.SourceFallbackIsRaw | src/aggdsl/decompiler.py:82-84 | a source stage whose `source` is not a dict is `PIPELINE` and the same stage as raw |
| Decompiler.SourceHeadFirst | src/aggdsl/decompiler.py:82-110 | a source stage's first line is `PIPELINE` exactly when `source` is not a dict |
| Decompiler.PipelineLinesStart | src/aggdsl/decompiler.py:286-296 | `PipelineLines`: a pipeline's lines start with `PIPELINE` unless its first stage has a dict `source` |
| Decompiler.DecompileLinesStart | src/aggdsl/decompiler.py:25-52 | the text is the header lines, then `PIPELINE` unless the first stage has a dict `source` |
| Decompiler.FormatBraceMapImpl | src/aggdsl/decompiler.py:314-320 | the parts loop returns exactly the brace map text |
| Decompiler.SwitchTextImpl | src/aggdsl/decompiler.py:193-207 | returns exactly `SwitchText` |
| Decompiler.CaseTextsImpl | src/aggdsl/decompiler.py:202-206 | the case loop, with its early raw return, returns exactly the case fold |
| Decompiler.GroupListPartsImpl | src/aggdsl/decompiler.py:215-231 | the loop with its `ok` flag and `break` returns exactly `GroupListParts` |
| Decompiler.GroupMapPartsImpl | src/aggdsl/decompiler.py:238-247 | the loop returns exactly `GroupMapParts` |
| Decompiler.GroupTextImpl | src/aggdsl/decompiler.py:209-252 | returns exactly `GroupText` |
| Decompiler.LeafStageLineImpl | src/aggdsl/decompiler.py:132-278 | returns exactly `LeafStageLine` |
| Decompiler.KeyedLineImpl | src/aggdsl/decompiler.py:136-261 | returns exactly the keyed line |
| Decompiler.EventEntryImpl | src/aggdsl/decompiler.py:90-101 | the search loop returns exactly `EventEntry` |
| Decompiler.FromLineImpl | src/aggdsl/decompiler.py:106-110 | the parts loop returns exactly the FROM line |
| Decompiler.SourceStageImpl | src/aggdsl/decompiler.py:81-129 | returns exactly `SourceStageLines` |
| Decompiler.DecompileStageImpl | src/aggdsl/decompiler.py:132-278 | returns exactly `DecompileStage` |
| Decompiler.SpawnBranchesImpl | src/aggdsl/decompiler.py:269-272 | the branch loop returns exactly `SpawnBranchesOnto` |
| Decompiler.PipelineLinesImpl | src/aggdsl/decompiler.py:281-311 | returns exactly the pipeline's lines |
| Decompiler.StagesLinesImpl | src/aggdsl/decompiler.py:54-55 | the stage loop returns exactly the stage fold |
| Decompiler.DecompileImpl | src/aggdsl/decompiler.py:11-57 | returns exactly `Decompile` |
| RoundTrip.DecompileSimpleStage | src/aggdsl/decompiler.py:136-140 | a filter, identified or limit stage renders as the single line `\| keyword argument` |
| RoundTrip.DecompileSimpleStages | src/aggdsl/decompiler.py:54-55 | a pipeline of such stages renders one line per stage, in order |
| RoundTrip.DecompileSimple | src/aggdsl/decompiler.py:11-57 | a bare pipeline renders as `PIPELINE` and its stage lines; the legacy `{"request": [...]}` body renders the same |
| RoundTrip.ParseStageFilter | src/aggdsl/parser.py:315-316 | a filter line gives the stripped expression |
| RoundTrip.ParseStageIdentified | src/aggdsl/parser.py:319-323 | an identified line goes to the identified check with the stripped field |
| RoundTrip.ParseStageLimit | src/aggdsl/parser.py:414-418 | a limit line goes to the limit check with the stripped text |
| RoundTrip.ParseFilterText | src/aggdsl/parser.py:315-316 | `filter x` reads back as a filter of `x` |
| RoundTrip.ParseIdentifiedText | src/aggdsl/parser.py:319-323 | `identified x` reads back as identified `x` |
| RoundTrip.ParseLimitText | src/aggdsl/parser.py:414-418 | `limit n` reads back as limit `n` for every non-negative `n` |
| RoundTrip.ParseSimpleStage | src/aggdsl/parser.py:313-432 | the text of a simple stage reads back as the matching stage |
| RoundTrip.StageAtSingle | src/aggdsl/parser.py:254-290 | a text that starts no block goes to the single-line stage parser and consumes one line |
| RoundTrip.StagesFromSingle | src/aggdsl/parser.py:247-290 | a single-line stage is appended and the loop goes on at the next line |
| RoundTrip.ParseSimpleStages | src/aggdsl/parser.py:247-290 | the stage lines of a simple pipeline parse to one stage per line, in order |
| RoundTrip.HeadersPipeline | src/aggdsl/parser.py:175-194 | a first line `PIPELINE` is not a header |
| RoundTrip.SourceAtPipeline | src/aggdsl/parser.py:202-204 | `PIPELINE` opens a query without source or time series |
| RoundTrip.ParseSimpleLines | src/aggdsl/parser.py:166-298 | `PIPELINE` and the stage lines parse to the pipeline-only query of those stages |
| RoundTrip.ParseSimple | src/aggdsl/parser.py:165-298 | the decompiled text parses to that query |
| RoundTrip.CompileSimpleStage | src/aggdsl/compiler.py:95-172 | each parsed simple stage compiles back to the original stage |
| RoundTrip.CompileSimple | src/aggdsl/compiler.py:21-59 | the parsed query compiles back to the original pipeline |
| RoundTrip.DecompileRoundTrip | tests/test_decompile_roundtrip.py:33-52 | decompiling, parsing and compiling a simple pipeline, bare or as a legacy body, gives the same pipeline under `request.pipeline` |
| RoundTrip.CaseTextReads | src/aggdsl/decompiler.py:204-206 | `CaseText`: a case of plain strings renders as `"a"=="b"`, and the parser reads it back as the same case |
| RoundTrip.CaseTextsQuoted | src/aggdsl/decompiler.py:202-206 | cases of plain strings render, in order, as their quoted texts |
| RoundTrip.SwitchTextReads | src/aggdsl/decompiler.py:193-207 | a switch of plain string cases renders as a line the parser reads back with the same output, field and cases |
| RoundTrip.GroupPartReads | src/aggdsl/decompiler.py:221-231 | `GroupPart`: `{agg: arg}` under `alias` renders as `alias=agg(arg)`, `null` as `null`, and reads back as the same field |
| RoundTrip.GroupListTexts | src/aggdsl/decompiler.py:213-233 | list-form group fields render as their `alias=agg(arg)` texts, in order |
| RoundTrip.GroupTextReads | src/aggdsl/decompiler.py:209-233 | a list-form group renders as `group by ... fields { ... }`, read back as the same keys and fields |
| RoundTrip.SegmentTextReads | src/aggdsl/decompiler.py:183-188 | a segment with a plain string id renders as `id="a"`, read back as the same id |
| RoundTrip.TimeSeriesLineReads | src/aggdsl/decompiler.py:117-127 | the TIMESERIES line written for a `timeSeries` dict with a `period` word (no spaces, quotes, backslashes or parentheses, and not starting with a digit, `-` or `[`), an integer `first` and an integer `count` or `last`, negative ones such as `count=-180` included, reads back, through the parser's `key=value` and time-series rules, as exactly that time series |
| Validate.FirstBadStage | tools/pendo/validate.py:41-43 | none exactly when every stage from that point is a non-empty dict; otherwise the first stage that is not |
| Validate.ResponseError | tools/pendo/validate.py:17-28 | no message exactly when `response` is a dict, `location` is absent or `request`, and `mimeType` is a non-empty string |
| Validate.RequestError | tools/pendo/validate.py:30-43 | no message exactly when `request` is a dict whose `pipeline` is a list of non-empty dicts |
| Validate.ValidateAggregationBody | tools/pendo/validate.py:13-43 | no message exactly when the body satisfies every guard |
| Validate.FirstBadStageImpl | tools/pendo/validate.py:41-43 | the stage loop stops at the first bad stage, returning exactly `FirstBadStage` |
| Validate.BadStageNamed | tools/pendo/validate.py:41-43 | with a valid envelope, the message names the position of the first bad stage |
| Validate.LegacyArrayRejected | tools/pendo/validate.py:30-32 | a legacy array request is rejected whatever it holds |
| Validate.CompiledStageGood | tools/pendo/validate.py:42 | a compiled stage is a non-empty dict exactly unless it is an empty raw stage |
| Validate.CompiledPipelineGood | tools/pendo/validate.py:41-43 | every compiled stage passes exactly when the query holds no empty raw stage |
| Validate.CompiledResponseValid | tools/pendo/validate.py:17-28 | the compiler's `response` object passes exactly when the mime type is non-empty |
| Validate.CompiledBodyValid | tools/pendo/validate.py:13-43 | a compiled body passes exactly when the mime type is non-empty and no raw stage is empty |
| Rewrite.Walk | tools/pendo/rewrite.py:8-13 | keeps the kind of every value, the keys of a dict and the length of a list, and returns scalars unchanged |
| Rewrite.ReplaceNow | tools/pendo/rewrite.py:26-29 | the replacement never grows a value, so the walk ends |
| Rewrite.ResolveNow | tools/pendo/rewrite.py:16-31 | keys and lengths are kept; a dict's string value becomes the timestamp exactly when it reads `now()`; strings that are list items are never replaced |
| Rewrite.ResolveNowAgrees | tools/pendo/rewrite.py:8-31 | at every depth every value is the input's, except dict values reading `now()`, which become the timestamp |
| Rewrite.AgreesExceptNowUnique | tools/pendo/rewrite.py:8-31 | that description fixes the result: one body agrees with it |
| Rewrite.RewriteOnError | tools/pendo/rewrite.py:34-46 | resolves `now()` exactly when the lowered error mentions `now()`, `timeseries` or `timestamp`, otherwise returns the body |
| Rewrite.ResolveNowIsNowFree | tools/pendo/rewrite.py:26-31 | after resolving, no dict value anywhere reads `now()` |
| Rewrite.ResolveNowFixes | tools/pendo/rewrite.py:16-31 | resolving leaves a body unchanged exactly when no dict value anywhere reads `now()` |
| Rewrite.ResolveNowIdempotent | tools/pendo/rewrite.py:26-29 | with a fixed timestamp, resolving twice is resolving once |
| Rewrite.ResolveNowSkeleton | tools/pendo/rewrite.py:8-13 | resolving keeps every key and every list length at every depth |
| Rewrite.RewriteOnErrorEffect | tools/pendo/rewrite.py:34-46 | the rewrite changes the body exactly when the error mentions time and a dict value reads `now()`; it never changes the body's shape |
| Env.Unquote | tools/pendo/env.py:31-32 | a value wrapped in matching `"` or `'` loses its first and last characters; any other value stays |
| Env.ParseLine | tools/pendo/env.py:21-32 | a line sets a key only when that key is non-empty, stripped and free of `=` |
| Env.UnquoteOnePair | tools/pendo/env.py:31-32 | exactly one pair of matching quotes is removed |
| Env.ParseAssignment | tools/pendo/env.py:21-32 | `KEY=VALUE` with a clean key and value sets that key to the unquoted value |
| Env.SetDefault | tools/pendo/env.py:33 | the key keeps its value if set and takes the new one otherwise; no other key changes |
| Env.LoadEntriesFirstWins | tools/pendo/env.py:33 | `LoadEntries`: a set variable is never overwritten; a new key is added exactly when some line sets it, with the value from the first such line |
| Env.LoadedKeys | tools/pendo/env.py:20-33 | after loading, a key is set exactly when it was set before or some line of the file sets it |
| Env.Environment.SetDefaultVar | tools/pendo/env.py:33 | the environment becomes `SetDefault` of the old one |
| Env.Environment.LoadLine | tools/pendo/env.py:21-33 | one turn of the loop applies what the line sets, if anything |
| Env.Environment.LoadDotenv | tools/pendo/env.py:7-35 | returns whether the path was a file; a missing file leaves the environment unchanged; otherwise the lines are applied in order |

## Left out

- Character classes are ASCII: `isspace`, `isdigit`, `lower`, the regular-expression class `\s` and IGNORECASE. `splitlines` breaks on all of Python's line boundaries: the ASCII ones, U+0085, U+2028 and U+2029 (`Strings.IsLineBreak`).
- `json.loads` (its value, or the message of the `JSONDecodeError` it raises), `json.dumps` and `str` of a list or dict are opaque `Codec` fields. Nothing is proved about the JSON text grammar, and raw or bulkExpand payloads are never re-parsed in a round trip.
- JSON numbers are integers only. Floating-point values are not modelled.
- Args.ScalarInt: `int([])` raises `TypeError`, which the command line's handler (`src/aggdsl/cli.py:41`, catching `OSError`, `DslParseError` and `ValueError`) does not catch, so in Python it escapes as a traceback. The model returns it as an ordinary `Err`. The `ValueError` text quotes the string with single quotes; Python's `repr` switches to double quotes when the string holds a single quote, and escapes other characters, which the model does not reproduce.
- Python dicts are key/value sequences. A dict built from JSON text is assumed to hold each key once, which is what `json.loads` produces. `Stages.UnwindFoldGet` states that as a precondition.
- `fork` and `sessionReplays` stages, and stages of any other kind, come only from hand-built queries. The parser never produces them. The compiler's handling of them is modelled, and an unknown kind fails with `CompileError`.
- The decompiler's round trip is proved for whole pipelines of `filter`, `identified` and `limit` stages only. For `switch` and `group` stages with plain strings, and for a segment id, the rendered text is proved to read back as the same cases, fields or id (`RoundTrip.SwitchTextReads`, `RoundTrip.GroupTextReads`, `RoundTrip.SegmentTextReads`), and the TIMESERIES line as the same time series for a plain-word `period` and integer `first`/`count`/`last` values of either sign (`RoundTrip.TimeSeriesLineReads`), but not through the whole parser. Merge, spawn, eval and the other shapes are rendered by the model but not proved to round-trip.
- Parser.MergeBlock: a block without `endmerge` runs to the end of the input and is accepted. The `merge block missing 'endmerge'` error of the source is unreachable, so it is not modelled.
- Rewrite.Walk: the walk requires a dict-value rewrite that never grows a value, so that it terminates. `resolve_now` meets that requirement. The model does not cover an arbitrary `fn`.
- Rewrite.ResolveNow: the timestamp is a parameter. The clock read `time.time()` used when none is given is not modelled.
- Rewrite.ResolveNow: the deep copy is not modelled, because a function never mutates its argument.
- Rewrite.RewriteOnError: the unused `attempt` parameter is left out.
- Env.Environment.LoadDotenv: whether the path exists and is a file is a parameter, and the file arrives as its lines. Reading and decoding the file are not modelled.
- `validate.py`'s `main` and `_load_json`, `compiler._main`, the command line tool, and the HTTP client, chart and segment lookup tools are not part of this model.
