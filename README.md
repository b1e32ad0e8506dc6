# Alteryx-to-Starburst migration core, modelled in Dafny

This project models the logic at the heart of a tool that migrates Alteryx
workflows to dbt projects on Starburst (Trino): the formula transpiler, the
workflow graph analysis, and the naming rules of the dbt and documentation
generators. Each source file has a module of its own:

- `Models` (models.py): tools, connections and workflows, and the
  workflow's lookups of nodes and neighbours.
- `FormulaTables` and `Formula` (formula_converter.py): the function tables
  and the `FormulaConverter` class, whose conversion notes are a field its
  methods reassign. Field references become quoted identifiers, operators
  are rewritten, and a loop capped at 100 rounds converts table-listed calls,
  innermost first, by template, rename, variadic, constant or special
  handler; also date formats and `convert_aggregation`.
  `FormulaExamples` works the converter through whole inputs.
- `Analyzer` (transformation_analyzer.py): the `TransformationAnalyzer`
  class with its adjacency maps, the post-order DFS that orders the tools,
  the simple-path enumeration capped at 10 paths, the medallion layer
  suggestion, source and target types, and the older IIF / IsNull / IsEmpty
  expression pipeline with its quote-blind parenthesis matcher.
  `_split_iif_args` is the same loop as the converter's `_split_args`, so
  both are `Formula.SplitArgsOf`. `AnalyzerExamples` works the IIF pass
  through whole inputs.
- `ToolMappings` (tool_mappings.py) and `MacroMappings` (macro_mappings.py):
  the plugin, layer, prefix, SQL and macro tables and their lookups.
- `Naming` (the `_sanitize_name` of dbt_generator.py, identical in
  doc_generator.py, and `Path.stem`), `Dbt` (dbt_generator.py: column
  quoting and splitting, the merge of sources in the `DbtGenerator` class,
  column extraction, schema, table and model names, and the branch rules of
  the transformation SQL), and `Docs` (doc_generator.py: suggested model
  names and the Mermaid flowchart).
- `Wrappers`, `Text`, `Seqs` and `Dicts` hold the Option/Result types,
  Python's string methods, `dict.fromkeys` de-duplication and ordered
  dictionaries.

Loops in the source are methods with loop invariants, proved against
functions that say what they compute. The lemmas beside those functions
state what the code promises.

## Model

| member | source | states |
|---|---|---|
| Models.Node.DisplayName | models.py:64-68 | the plugin name alone without an annotation; otherwise plugin name, ": " and the annotation |
| Models.Workflow.NodeById | models.py:108-113 | None exactly when no node has the id; otherwise the first node in list order with that id |
| Models.Workflow.DownstreamNodes | models.py:115-118 | exactly the nodes reached by some connection from the id, each with its node-list multiplicity, parallel connections not repeating it |
| Models.Workflow.UpstreamNodes | models.py:120-123 | exactly the nodes with some connection into the id, each with its node-list multiplicity |
| Models.Workflow.UpstreamConnections | models.py:125-131 | exactly the connections into the id, in order and with repetitions |
| Models.Workflow.UpstreamNodeByAnchor | models.py:133-147 | the origin node of the first connection into the id whose destination anchor equals the anchor ignoring case; None when there is no such connection |
| Models.FirstNodeWithId | models.py:110-113 | the index of the first node with the id; None exactly when there is none |
| Models.FirstAnchorMatch | models.py:145-147 | the index of the first connection matching id and anchor; None exactly when there is none |
| Models.AnchorLookupDoesNotFallThrough | models.py:145-147 | the lookup returns at the first matching connection: an unknown origin there gives None even if a later matching connection has a known origin |
| Models.ParallelConnectionChangesNothing | models.py:115-123 | a duplicate of an existing connection changes neither neighbour list |
| Models.NeighboursAreDistinct | models.py:115-123 | with distinct nodes, both neighbour lists are free of repetitions |
| Formula.Advance | formula_converter.py:366-381 | one character of the quote-aware scan: only `(` and `)` outside a literal move the depth, by exactly one |
| Formula.ClosingParen | formula_converter.py:359-383 | the result is -1 or a position after the opening one holding `)` |
| Formula.ClosingParenFirst | formula_converter.py:359-383 | `_find_matching_paren` returns the first position where the quote-aware depth returns to zero, and -1 exactly when there is none |
| Formula.CloseFromFirst | formula_converter.py:366-383 | the scan loop from any position reached without closing finds that first closing position |
| Formula.Pieces | formula_converter.py:385-413 | the argument text cut at top-level commas has at least one piece |
| Formula.PiecesStep | formula_converter.py:393-412 | one more character either starts a new piece (a top-level comma) or extends the current one |
| Formula.SplitOneMore | formula_converter.py:393-412 | the split loop's step: a comma closes the piece exactly when the depth is zero outside a literal |
| Formula.TopLevelCommas | formula_converter.py:408 | exactly the top-level comma positions, in increasing order |
| Formula.PiecesAreCut | formula_converter.py:385-413 | the pieces are the text between consecutive top-level commas |
| Formula.JoinPieces | formula_converter.py:385-413 | joining the pieces with commas gives back the argument text |
| Formula.SplitArgsLast | formula_converter.py:414-417 | the closed pieces are all kept stripped, the last one only when it is not blank |
| Formula.SplitArgsPieces | formula_converter.py:385-417 | `_split_args` returns the pieces stripped, in order, dropping only a blank last piece |
| Formula.SplitArgsAreStripped | formula_converter.py:409 | no argument has surrounding white space (also formula_converter.py:414-415) |
| Formula.SplitWithoutComma | formula_converter.py:385-417 | text without a comma is one argument, or none when blank |
| Formula.Format | formula_converter.py:321-322 | `str.format` with `{d}` fields succeeds exactly when the template needs no more arguments than given |
| Formula.FormatIgnoresExtra | formula_converter.py:321 | arguments beyond those the template uses are ignored |
| Formula.FormatOneField | formula_converter.py:321 | a template with one field `{d}` gets argument d in its place |
| Formula.FormatPlain | formula_converter.py:321 | a template without braces is its own result |
| Formula.ConvertCall | formula_converter.py:290-329 | an unknown name gives no SQL and the note "No mapping for Alteryx function: name"; at most one note |
| Formula.ZeroArityIgnoresArguments | formula_converter.py:310-312 | a zero-arity function becomes its template whatever the arguments |
| Formula.NameAppliedToArguments | formula_converter.py:314-316 | a variadic or plain-name template is applied to all arguments joined with ", " (also formula_converter.py:327-329) |
| Formula.TemplateIgnoresExtraArguments | formula_converter.py:318-321 | a positional template formats its arguments; extra ones are ignored without a note |
| Formula.TooFewArguments | formula_converter.py:322-326 | too few arguments give the argument-mismatch note and the call kept behind a TODO comment |
| Formula.SpecialConversion | formula_converter.py:331-357 | always some SQL; anything but switch (ignoring case) becomes a TODO comment followed by the call |
| Formula.SwitchConversion | formula_converter.py:333-355 | fewer than two arguments: the Invalid Switch NULL; odd pairs: a note and a COALESCE; otherwise a CASE on the value with the WHEN clauses and the default in ELSE |
| Formula.WhenClauses | formula_converter.py:349-353 | one WHEN clause per case/result pair, in order |
| Formula.QuoteFieldsPlain | formula_converter.py:205-206 | text without `[` is left alone by the field-reference rewrite |
| Formula.QuoteFieldsReference | formula_converter.py:205-206 | a reference `[name]` becomes `"name"` |
| Formula.QuoteFieldsSegment | formula_converter.py:206 | plain text is copied and the following reference quoted before the rest is rewritten |
| Formula.QuoteFieldsAll | formula_converter.py:205-206 | every reference of a text is quoted, however many there are |
| Formula.OperatorsAreRewritten | formula_converter.py:208-213 | after the operator replacements no `!`, `&&` or `\|\|` is left |
| Formula.CallOpenAt | formula_converter.py:233-236 | a match of `\bname\s*\(` at i ends at a `(` after the name |
| Formula.CallOpenAtMatches | formula_converter.py:233-236 | a match spells the name ignoring case after a non-word character, with only white space up to the `(` |
| Formula.OpenAfterSpacesFinds | formula_converter.py:233 | `\s*\(` finds the `(` after white space only, and fails exactly when a non-space comes first |
| Formula.CallsInSearches | formula_converter.py:250 | `re.search` of a key's pattern succeeds exactly when it matches at some position |
| Formula.NestedAmongKeys | formula_converter.py:249-253 | `has_nested` is `any` over the table keys |
| Formula.CallAt | formula_converter.py:234-254 | a kept match starts at i, carries its key and has its `(` before its matching `)` |
| Formula.CallAtIsCall | formula_converter.py:234-254 | every kept match is a well-formed call |
| Formula.CollectComplete | formula_converter.py:234 | the `finditer` scan misses no match |
| Formula.CallsOfComplete | formula_converter.py:232-254 | no kept match of a key is missed |
| Formula.CallsOfFirstKept | formula_converter.py:232-254 | every listed match is kept at its start, for a key of the table |
| Formula.CallsComplete | formula_converter.py:231-254 | the `matches` list holds every kept match of every table key |
| Formula.CallsAreCalls | formula_converter.py:231-254 | every entry of the `matches` list is a kept match of a table key |
| Formula.NoParenNoCalls | formula_converter.py:231-257 | text without `(` holds no call, so the loop stops |
| Formula.Nesting | formula_converter.py:249-254 | one `has_nested` flag per found call |
| Formula.FirstInner | formula_converter.py:261-264 | the first call without nested calls, None exactly when all are nested |
| Formula.Rightmost | formula_converter.py:266-268 | the call starting furthest right, the first listed among equals as the stable sort leaves it |
| Formula.PickRule | formula_converter.py:259-268 | the first call without nested calls, or else the rightmost one |
| Formula.Splice | formula_converter.py:278 | `s[:i] + t + s[j + 1:]` has the length of the two ends plus t |
| Formula.OutcomeSwapsOut | formula_converter.py:274-284 | an iteration replaces exactly when the conversion is non-empty and changes the text, and then swaps the call for it keeping both ends |
| Formula.Picked | formula_converter.py:259-268 | the converted call lies inside the text |
| Formula.Outcome | formula_converter.py:274-284 | an iteration with a call passes on the notes of its conversion |
| Formula.Run | formula_converter.py:226-288 | the loop never does more than `max_iterations` replacements |
| Formula.RunOnce | formula_converter.py:229-286 | a replacement hands the remaining iterations to the new text and keeps note order; any other outcome ends the loop on the text as it is |
| Formula.RunToCap | formula_converter.py:226-288 | while every reached text re-matches and is replaced, the loop runs until the cap of iterations |
| Formula.RunNotes | formula_converter.py:229-286 | with at most one note per iteration, the loop adds at most one note per replacement plus one |
| Formula.ConvertCallNotes | formula_converter.py:290-329 | `_convert_function` adds at most one note |
| Formula.RewriteNotes | formula_converter.py:220-288 | the rewrite loop adds at most one note per replacement plus one |
| Formula.NoParenPassesThrough | formula_converter.py:220-288 | text without a parenthesis leaves the loop unchanged and without notes |
| Formula.NoSpecifierUnchanged | formula_converter.py:419-424 | a format without `%` is left alone when every specifier starts with `%` |
| Formula.DateSpecifiersArePercent | formula_converter.py:162-176 | every Alteryx date specifier is two characters starting with `%` |
| Formula.ConvertAggregation | formula_converter.py:469-483 | an unknown aggregation is the field behind a `/* TODO: action */` comment |
| Formula.MonthNameExample | formula_converter.py:162-176 | the full month name `%B` becomes `%M`, and is not rewritten again into minutes (also formula_converter.py:419-424) |
| Formula.MinutesExample | formula_converter.py:162-176 | minutes `%M` become `%i` (also formula_converter.py:419-424) |
| Formula.AggregationFilled | formula_converter.py:485-489 | a template aggregation is filled with the field followed by the extra arguments |
| Formula.SumExample | formula_converter.py:447 | `Sum` is `SUM(field)` (also formula_converter.py:492-493) |
| Formula.CountDistinctExample | formula_converter.py:449 | `CountDistinct` is `COUNT(DISTINCT field)` (also formula_converter.py:485-489) |
| Formula.AggregationApplied | formula_converter.py:492-493 | a plain-name aggregation is applied to the field |
| Formula.AggregationFallback | formula_converter.py:490-491 | a template needing more arguments than given falls back to the name before `(` applied to the field |
| Formula.PercentileFallbackExample | formula_converter.py:465 | `Percentile` without its extra argument is `APPROX_PERCENTILE(field)` (also formula_converter.py:490-491) |
| Formula.StepOfCalls | formula_converter.py:229-286 | an iteration finds no call and stops, or converts the picked call with its split arguments |
| Formula.FormulaConverter.constructor | formula_converter.py:182-187 | the converter holds the function and date tables, no notes, and the case-insensitive name map built from the keys |
| Formula.FormulaConverter.Convert | formula_converter.py:189-218 | the empty expression is `NULL` with the notes untouched; any other is stripped, quoted, operator-rewritten and run through the loop, and the notes are this conversion's only |
| Formula.FormulaConverter.FindCalls | formula_converter.py:231-254 | the `matches` list key by key in table order, each with its `has_nested` flag |
| Formula.FormulaConverter.KeyCalls | formula_converter.py:232-254 | the kept matches of one key, left to right, with their flags |
| Formula.FormulaConverter.MatchAt | formula_converter.py:234-245 | the match at i, dropped when its `)` is missing or it is an upper-case name other than the key |
| Formula.FormulaConverter.ConvertAllFunctions | formula_converter.py:220-288 | the text after at most `max_iterations` iterations of the loop, and every iteration's notes appended |
| Formula.FormulaConverter.Iterate | formula_converter.py:229-286 | one loop iteration: find, pick and convert |
| Formula.FormulaConverter.ConvertPicked | formula_converter.py:270-284 | split the picked call's arguments, convert it and splice in the conversion unless it failed, is empty or changes nothing |
| Formula.FormulaConverter.ConvertFunction | formula_converter.py:290-329 | the conversion of one call, its notes appended |
| Formula.FormulaConverter.HandleSpecialFunction | formula_converter.py:331-357 | the special conversion, with Switch's WHEN clauses built pair by pair |
| Formula.FormulaConverter.FindMatchingParen | formula_converter.py:359-383 | the loop's result is the first closing position, or -1 |
| Formula.FormulaConverter.SplitArgs | formula_converter.py:385-417 | the loop's result is the stripped pieces |
| Formula.FormulaConverter.ConvertDateFormat | formula_converter.py:419-424 | the date table's replacements applied in order |
| Formula.FormulaConverter.GetConversionNotes | formula_converter.py:426-428 | the notes of the last conversion |
| Formula.ConvertAlteryxExpression | formula_converter.py:431-442 | a fresh converter's conversion: `NULL` for the empty expression, else the converted text |
| FormulaExamples.SoleCallSite | formula_converter.py:231-254 | in a text whose only `(` follows one word, every call found is a call of that word |
| FormulaExamples.CallSpelling | formula_converter.py:233-254 | a listed call spells a table key after a word boundary, then white space up to the `(` |
| FormulaExamples.FunctionTableKeys | formula_converter.py:20 | Trim and FileExists are the only keys spelling `trim` and `fileexists` ignoring case, with their table entries (also formula_converter.py:155) |
| FormulaExamples.PrepareFieldCall | formula_converter.py:203-213 | `f([name])` reaches the loop as `f("name")` |
| FormulaExamples.PrepareTrim | formula_converter.py:203-213 | `Trim([Name])` reaches the loop as `Trim("Name")` |
| FormulaExamples.OnlyCallStep | formula_converter.py:259-284 | when every call found is the same one, the iteration converts it |
| FormulaExamples.PickedStep | formula_converter.py:259-284 | an iteration that finds calls converts the one it picks |
| FormulaExamples.OnlyCall | formula_converter.py:231-254 | a text holding one call of a key no other key spells: that call is the only one found |
| FormulaExamples.CapitalCallStays | formula_converter.py:242-245 | a call in capitals spelling a key but not the key itself is not found again |
| FormulaExamples.TrimConversion | formula_converter.py:20 | `Trim(a)` becomes `TRIM(a)` (also formula_converter.py:327-329) |
| FormulaExamples.TrimStep | formula_converter.py:229-286 | the first iteration on `Trim("Name")` replaces it with `TRIM("Name")` |
| FormulaExamples.TrimDone | formula_converter.py:242-257 | `TRIM("Name")` holds no call to convert, so the loop stops |
| FormulaExamples.TrimConverted | formula_converter.py:189-288 | `convert('Trim([Name])')` is `TRIM("Name")` after one replacement, with no notes |
| FormulaExamples.FileExistsConversion | formula_converter.py:155 | FileExists has no template: the call is kept behind a TODO comment (also formula_converter.py:306-308, 357) |
| FormulaExamples.TodoConversion | formula_converter.py:306-308 | a function without a template other than Switch is kept behind a TODO comment (also formula_converter.py:357) |
| FormulaExamples.OneCallReplaced | formula_converter.py:270-284 | a sole call converting without a note to different text is replaced |
| FormulaExamples.FileExistsStep | formula_converter.py:270-284 | an iteration puts the TODO comment in front of the FileExists call and leaves the call (also formula_converter.py:357) |
| FormulaExamples.FileExistsKeeps | formula_converter.py:229-286 | on a text ending in the call, every iteration replaces and the result again ends in the call |
| FormulaExamples.FileExistsRunsToCap | formula_converter.py:226-288 | `convert('FileExists(x)')` re-matches the placeholder every iteration and runs until the cap of 100 |
| Analyzer.Neighbours | transformation_analyzer.py:28-30 | a neighbour list has one entry per connection at most |
| Analyzer.AdjacencyLists | transformation_analyzer.py:21-30 | the keys of each map are exactly the near ends of the connections, and each list holds the far ends in connection order, with multiplicity |
| Analyzer.NeighboursAreEdges | transformation_analyzer.py:28-30 | v is in u's list exactly when a connection joins u to v in that direction |
| Analyzer.TotalLengthSnoc | transformation_analyzer.py:28-30 | one more connection adds one entry to the list of its near end |
| Analyzer.TotalLengthIsConnections | transformation_analyzer.py:21-30 | the lengths of each map's lists add up to the number of connections |
| Analyzer.NeighbourIsId | transformation_analyzer.py:28-30 | a neighbour is an end of some connection |
| Analyzer.NeighboursEmpty | transformation_analyzer.py:66 | a list is empty exactly when no connection leaves (or enters) the id, so `not downstream.get(id)` means no outgoing connection (also transformation_analyzer.py:562) |
| Analyzer.UpstreamRank | transformation_analyzer.py:44 | in a ranked (acyclic) workflow the rank goes down along an upstream list |
| Analyzer.ClosedOriginsFirst | transformation_analyzer.py:38-47 | an order listing every upstream neighbour before the id puts every connection's origin before its destination |
| Analyzer.VisitingStep | transformation_analyzer.py:44-45 | visiting the next upstream neighbour keeps the state of `dfs(id)`, and in an acyclic workflow lists that neighbour |
| Analyzer.VisitingDone | transformation_analyzer.py:47 | once every upstream neighbour is visited, appending the id ends `dfs(id)` |
| Analyzer.FinishedStep | transformation_analyzer.py:50-51 | a top-level `dfs` call lists its id and keeps what was listed |
| Analyzer.SimplePathSnoc | transformation_analyzer.py:437-441 | pushing a downstream neighbour not on the stack keeps the stack a simple path |
| Analyzer.CompletionAtEnd | transformation_analyzer.py:433-435 | a stack that has reached the end completes only to itself |
| Analyzer.ExploringStep | transformation_analyzer.py:437-443 | a neighbour on the stack is skipped, any other explored, with the stack restored after |
| Analyzer.ExploringDone | transformation_analyzer.py:429-443 | after every downstream neighbour the call has found exactly the completions of its stack, up to the cap |
| Analyzer.ExploredAtEnd | transformation_analyzer.py:433-435 | a stack that has reached the end is appended once, as it stands |
| Analyzer.DownstreamEdges | transformation_analyzer.py:28-29 | the downstream list holds exactly the destinations of the connections leaving the id (also transformation_analyzer.py:437) |
| Analyzer.PathNodes | transformation_analyzer.py:405-406 | the tools along a path of ids, ids that are not tools dropped |
| Analyzer.InLayerCounts | transformation_analyzer.py:557-575 | the list of a layer holds exactly the tools suggested for it, each as often as it is listed among the tools |
| Analyzer.LayersPartition | transformation_analyzer.py:549-577 | every tool but a container is in exactly one of the three layer lists, as often as listed; a container in none |
| Analyzer.LayersSnoc | transformation_analyzer.py:557-575 | one more tool goes to the end of its layer's list |
| Analyzer.SourceFileType | transformation_analyzer.py:484-496 | the file kind of a source path by its extension |
| Analyzer.DatabaseType | transformation_analyzer.py:498-515 | the database kind by the first keyword found in the lower-cased connection string |
| Analyzer.SourceType | transformation_analyzer.py:481-524 | a file kind exactly when there is a source path; otherwise a database kind when there is a connection string; "Unknown" exactly when neither is set and the tool type names none of S3, Azure, Snowflake |
| Analyzer.TargetFileType | transformation_analyzer.py:532-542 | the file kind of a target path: the source kinds without XML |
| Analyzer.TargetType | transformation_analyzer.py:526-547 | "Preview/Browse" exactly for Browse; otherwise a file kind when there is a target path; "Database Table" exactly when no path but a connection string or table name; else "Unknown" |
| Analyzer.UpperCaseExtension | transformation_analyzer.py:483-486 | the extension is compared without regard to case: `DATA.CSV` is a CSV file |
| Analyzer.XmlKinds | transformation_analyzer.py:491-492 | an XML source path is an XML file |
| Analyzer.XmlTargetIsFile | transformation_analyzer.py:531-542 | an XML target path (not Browse) is a plain file |
| Analyzer.PlainClosingParen | transformation_analyzer.py:247-257 | -1 or a position after the opening one holding `)` |
| Analyzer.PlainCloseFromFirst | transformation_analyzer.py:251-257 | the scan from any position reached without closing finds the first closing position |
| Analyzer.PlainClosingParenFirst | transformation_analyzer.py:247-257 | the quote-blind matcher returns the first position where the depth returns to zero, and -1 exactly when there is none |
| Analyzer.QuoteFreeMatchersAgree | transformation_analyzer.py:247-257 | in a text without quote characters it agrees with the quote-aware matcher of the formula converter |
| Analyzer.QuotedParenDiffers | transformation_analyzer.py:247-257 | a quoted `)` closes for this matcher and not for the quote-aware one: on `(')')` one gives 2, the other 4 |
| Analyzer.SearchCall | transformation_analyzer.py:304 | the leftmost match of `\bname\s*\(` ignoring case: no match before it, and None exactly when there is none (also transformation_analyzer.py:351, 378) |
| Analyzer.Repeat | transformation_analyzer.py:299-339 | a capped loop does at most its cap of rewrites (also transformation_analyzer.py:347-366, 374-393) |
| Analyzer.RepeatUnfold | transformation_analyzer.py:302-339 | one loop iteration: the text when no rewrite applies, else a loop with one iteration fewer on the rewritten text |
| Analyzer.RepeatStops | transformation_analyzer.py:302-314 | a loop stops before its cap only where no rewrite applies (also transformation_analyzer.py:350-360, 377-387) |
| Analyzer.RepeatToCap | transformation_analyzer.py:299-302 | a loop whose rewrite always applies runs to its cap (also transformation_analyzer.py:347-350) |
| Analyzer.IifRewriteUnclosed | transformation_analyzer.py:310-314 | no IIF rewrite where the leftmost `IIF(` has no matching `)` |
| Analyzer.IifRewriteFewArgs | transformation_analyzer.py:318-337 | no IIF rewrite where the leftmost call has fewer than three arguments |
| Analyzer.IifRewriteAt | transformation_analyzer.py:316-334 | the leftmost call with three arguments or more becomes a CASE over its first three, each converted, the rest of the text kept |
| Analyzer.WrapRewriteAt | transformation_analyzer.py:351-365 | the leftmost IsNull/IsEmpty call becomes `(x IS NULL)`/`(x = '')` over its stripped inner text, or the loop breaks without a matching `)` (also transformation_analyzer.py:378-392) |
| Analyzer.WrapPassClears | transformation_analyzer.py:343-395 | a pass stopping before its cap on a balanced text leaves no call of the function |
| Analyzer.IifPassClears | transformation_analyzer.py:293-341 | an IIF pass stopping before its cap on a balanced text leaves no IIF, or a leftmost one with fewer than three arguments |
| Analyzer.IifStopsFewArgs | transformation_analyzer.py:318-337 | where a closed leftmost IIF is not rewritten it has fewer than three arguments |
| Analyzer.LegacyOperatorsRewritten | transformation_analyzer.py:234-238 | after the operator rewrites no `&&` or `\|\|` is left |
| Analyzer.TransformationAnalyzer.constructor | transformation_analyzer.py:17-19 | the analyzer holds the workflow and its two adjacency maps |
| Analyzer.TransformationAnalyzer.BuildGraph | transformation_analyzer.py:21-30 | the two maps are the adjacency of the connections, downstream and upstream |
| Analyzer.TransformationAnalyzer.Visit | transformation_analyzer.py:38-47 | the nested `dfs`: a visited id is skipped, otherwise its upstream neighbours are listed before it; acyclic input keeps origins first |
| Analyzer.TransformationAnalyzer.OrderedIds | transformation_analyzer.py:35-51 | each id listed once, every tool listed, and for acyclic input every connection's origin before its destination |
| Analyzer.TransformationAnalyzer.PathsFrom | transformation_analyzer.py:429-443 | the nested `dfs` adds only completions of its stack to the end, all of them unless the cap is reached, and a stack already at the end exactly once |
| Analyzer.TransformationAnalyzer.FindAllPaths | transformation_analyzer.py:425-446 | at most `max_paths` paths, each a simple path from start to end along connections; fewer than the cap means all of them; from a tool to itself exactly `[[start]]` |
| Analyzer.TransformationAnalyzer.StepsAlong | transformation_analyzer.py:410-413 | one step per tool of the path, numbered from 1 |
| Analyzer.TransformationAnalyzer.StepsFor | transformation_analyzer.py:410-413 | one step per tool, numbered from 1 |
| Analyzer.TransformationAnalyzer.LineagesAlongComplete | transformation_analyzer.py:404-421 | every path through some tool has its lineage, and there are no more lineages than paths |
| Analyzer.TransformationAnalyzer.ThroughIsLineage | transformation_analyzer.py:404-421 | a path through some tool found between a source and a target gives a lineage from that source to that target over its tools |
| Analyzer.TransformationAnalyzer.LineagesBetween | transformation_analyzer.py:402-421 | for one source and target: the paths `_find_all_paths` finds and one lineage per path through some tool, in path order |
| Analyzer.TransformationAnalyzer.LineagesFrom | transformation_analyzer.py:404-421 | the loop over the paths gives one lineage per path through some tool, in order |
| Analyzer.TransformationAnalyzer.Pairs | transformation_analyzer.py:401-402 | one pair per source and target |
| Analyzer.TransformationAnalyzer.GetDataLineage | transformation_analyzer.py:397-423 | for every source/target pair in loop order, the lineages of all the paths found between them; each a lineage; at most 10 per pair |
| Analyzer.TransformationAnalyzer.LineagesForSource | transformation_analyzer.py:402-421 | the loop over the targets adds each pair's lineages after those before |
| Analyzer.TransformationAnalyzer.OneMorePair | transformation_analyzer.py:401-421 | one more pair adds the lineages of its paths at the end |
| Analyzer.TransformationAnalyzer.SuggestMedallionMapping | transformation_analyzer.py:549-577 | the three lists hold the tools of each layer in tool order, containers skipped |
| Analyzer.TransformationAnalyzer.SuggestedLayerRule | transformation_analyzer.py:559-575 | a non-container tool no connection leaves is gold, even an Input; one with an outgoing connection has its category's layer; this is its step's layer (also transformation_analyzer.py:63-67) |
| Analyzer.TransformationAnalyzer.FindMatchingParen | transformation_analyzer.py:247-257 | the loop returns the quote-blind matcher's result |
| Analyzer.TransformationAnalyzer.ConvertIifToCase | transformation_analyzer.py:293-341 | the IIF pass at the given recursion depth |
| Analyzer.TransformationAnalyzer.IifStep | transformation_analyzer.py:303-337 | one loop iteration of the IIF pass, None where the loop breaks |
| Analyzer.TransformationAnalyzer.ConvertedCase | transformation_analyzer.py:320-331 | the CASE expression over the first three arguments, each converted by a pass of its own |
| Analyzer.TransformationAnalyzer.WrapStep | transformation_analyzer.py:351-365 | one loop iteration of the IsNull/IsEmpty pass (also transformation_analyzer.py:378-392) |
| Analyzer.TransformationAnalyzer.ConvertIsNull | transformation_analyzer.py:343-368 | the IsNull pass, at most 50 rewrites |
| Analyzer.TransformationAnalyzer.ConvertIsEmpty | transformation_analyzer.py:370-395 | the IsEmpty pass, at most 50 rewrites |
| Analyzer.TransformationAnalyzer.ConvertAlteryxExpression | transformation_analyzer.py:218-245 | the empty expression is returned as it is; any other is stripped, quoted, operator-rewritten, then passed through IIF, IsNull and IsEmpty in that order |
| Analyzer.TransformationAnalyzer.StepLayer | transformation_analyzer.py:63-84 | a step's layer is gold for a tool no connection leaves, whatever its category, and its category's layer otherwise |
| Analyzer.TransformationAnalyzer.StepsOf | transformation_analyzer.py:54-59 | at most one step per id of the order |
| Analyzer.TransformationAnalyzer.StepsOfSnoc | transformation_analyzer.py:55-59 | one more id adds the step of its tool numbered by its position, and nothing for an id that is not a tool |
| Analyzer.TransformationAnalyzer.StepsOfIncreasing | transformation_analyzer.py:55-59 | the step numbers grow along the list |
| Analyzer.TransformationAnalyzer.StepsOfCover | transformation_analyzer.py:55-59 | every position holding a tool has its step, numbered position + 1 |
| Analyzer.TransformationAnalyzer.StepsOfOrder | transformation_analyzer.py:32-61 | one step per tool with distinct ids and growing numbers, origins' steps first for acyclic input |
| Analyzer.TransformationAnalyzer.GetOrderedTransformations | transformation_analyzer.py:32-61 | every tool has exactly one step, numbers grow along the list, and for acyclic input a connection's origin comes before its destination |
| AnalyzerExamples.NoParenNoSearch | transformation_analyzer.py:304 | text without `(` holds no match of `\bname\s*\(` |
| AnalyzerExamples.NoParenIifRepeat | transformation_analyzer.py:302-306 | without a `(` the IIF pass leaves the text alone |
| AnalyzerExamples.IifPassOnce | transformation_analyzer.py:302-341 | a pass whose first rewrite leaves no `(` ends with that rewrite |
| AnalyzerExamples.IifAtStart | transformation_analyzer.py:304-309 | a text opening with `IIF(` has its leftmost match there |
| AnalyzerExamples.ThreeArgs | transformation_analyzer.py:259-291 | `e,x,y` with a balanced first argument and plain words splits into exactly those three arguments |
| AnalyzerExamples.WordPass | transformation_analyzer.py:293-341 | a plain word is its own IIF conversion |
| AnalyzerExamples.InnerPass | transformation_analyzer.py:293-341 | the pass on `IIF(a,b,c)t` gives `CASE WHEN a THEN b ELSE c END` followed by t |
| AnalyzerExamples.NestedStep | transformation_analyzer.py:316-334 | the first round of the outer pass converts the outer call, its condition converted by a pass of its own |
| AnalyzerExamples.NestedIif | transformation_analyzer.py:293-341 | `IIF(IIF(a,b,c)t,x,y)` becomes the inner CASE inside the outer CASE's condition: exactly two `CASE WHEN` and two `END` |
| AnalyzerExamples.NestedIifExample | transformation_analyzer.py:293-341 | `IIF(IIF(a,b,c)>0,x,y)` becomes `CASE WHEN CASE WHEN a THEN b ELSE c END>0 THEN x ELSE y END` |
| ToolMappings.CategoryFromPlugin | tool_mappings.py:442-444 | UNKNOWN for an unlisted plugin; otherwise the category of the last entry listing it, as a repeated dict key keeps |
| ToolMappings.FindReplaceIsJoin | tool_mappings.py:48 | the FindReplace plugin, listed twice, resolves to its later category JOIN (also tool_mappings.py:59) |
| ToolMappings.LastListedAsJoin | tool_mappings.py:10-116 | a plugin listed among the join tools and in no later group is a join tool (also tool_mappings.py:442-444) |
| ToolMappings.AfterLastDot | tool_mappings.py:453-455 | the text after the last dot has no dot |
| ToolMappings.AfterLastDotSuffix | tool_mappings.py:453-455 | the text after the last dot is a suffix, preceded by a dot when shorter than the whole |
| ToolMappings.LastPieceIsAfterLastDot | tool_mappings.py:453-455 | `split('.')[-1]` is the text after the last dot |
| ToolMappings.AfterLastDotOfPath | tool_mappings.py:453-455 | the class name of `prefix.name` is name |
| ToolMappings.SimpleName | tool_mappings.py:447-458 | "Unknown" for the empty path; otherwise the class name after the last dot, through `PLUGIN_NAME_MAP` when listed there |
| ToolMappings.SelectSimpleName | tool_mappings.py:40 | the Select tool's plugin path has the display name "Select" (also tool_mappings.py:136, 447-458) |
| ToolMappings.SqlMappingFor | tool_mappings.py:461-467 | the listed entry, or the placeholder "No direct mapping for" the tool with custom-logic SQL and dbt |
| ToolMappings.MedallionLayerFor | tool_mappings.py:470-474 | GOLD for a final output; otherwise the table's layer, SILVER for an unlisted category |
| ToolMappings.MedallionLayerTable | tool_mappings.py:402-414 | INPUT and PARSE are bronze, OUTPUT and REPORTING gold, CONTAINER has no layer, every other category silver |
| ToolMappings.DbtPrefix | tool_mappings.py:477-479 | the listed prefix, `int_` for an unlisted layer |
| ToolMappings.DbtPrefixes | tool_mappings.py:417-421 | bronze is `stg_`, silver `int_`, gold `fct_` |
| MacroMappings.MacroForTool | macro_mappings.py:356-396 | None exactly for a tool absent from the table; otherwise the table entry as the context selects it |
| MacroMappings.Selected | macro_mappings.py:371-396 | only the macro name can change; without a truthy context or alternates the entry is returned as it is; a changed macro is one of the entry's alternates |
| MacroMappings.AllMacroFiles | macro_mappings.py:399-410 | exactly the set of macro files named in the table |
| MacroMappings.ToolsUsing | macro_mappings.py:424-427 | exactly the tools of the entries naming the file |
| MacroMappings.ToolsForMacroFile | macro_mappings.py:413-427 | exactly the tools whose entry names the file |
| MacroMappings.MacroFilesAreUsed | macro_mappings.py:399-427 | a file is among all macro files exactly when some tool uses it |
| MacroMappings.JoinTypeSelection | macro_mappings.py:376-380 | for Join, the upper-cased `join_type` selects its listed alternate, and an unlisted type keeps the default entry |
| MacroMappings.InnerJoinSelected | macro_mappings.py:169-186 | "inner" selects `inner_join` (also macro_mappings.py:376-380) |
| MacroMappings.CrossJoinKeepsDefault | macro_mappings.py:169-186 | "cross" has no alternate, so the default `left_join` entry is kept (also macro_mappings.py:376-380) |
| MacroMappings.SampleTypeSelection | macro_mappings.py:383-387 | for Sample, `sample_type` is looked up as given |
| MacroMappings.SampleTypeExamples | macro_mappings.py:63-75 | the Sample lookup is case-sensitive: "random" selects `sample_random_n`, "Random" keeps the default (also macro_mappings.py:383-387) |
| MacroMappings.RegExOperationSelection | macro_mappings.py:389-394 | for RegEx, `operation` is looked up as given |
| MacroMappings.RegExOperationExamples | macro_mappings.py:293-307 | the RegEx lookup is case-sensitive: "replace" selects `regex_replace`, "Replace" keeps `regex_extract` (also macro_mappings.py:389-394) |
| MacroMappings.JoinUnionTools | macro_mappings.py:413-427 | the join_union file serves Join, Union, Append Fields and Join Multiple, in table order |
| MacroMappings.ToolsUsingConcat | macro_mappings.py:424-427 | the tool list of a concatenation is the concatenation of the tool lists |
| Naming.WordCharsOnly | dbt_generator.py:980 | same length, every character a word character, and `_` exactly where the input had something other than an ASCII letter or digit |
| Naming.CollapseUnderscores | dbt_generator.py:981 | no two underscores in a row, word characters kept, empty only for the empty input, both end characters kept |
| Naming.CollapseWithoutPairs | dbt_generator.py:981 | text without two underscores in a row is left alone |
| Naming.StripUnderscores | dbt_generator.py:982 | no `_` at either end, no pair introduced, and empty exactly when the input is all underscores |
| Naming.Sanitize | dbt_generator.py:975-987 | "unknown" for the empty name; otherwise a non-empty lower-case `[a-z0-9_]` name of at most 50 characters, without `__`, not starting with `_`, ending in `_` only when cut at 50 |
| Naming.LowerKeepsShape | dbt_generator.py:982 | lower-casing word characters gives `[a-z0-9_]` text with every underscore in place |
| Naming.SanitizeClean | dbt_generator.py:975-987 | a name that is already clean comes back unchanged |
| Naming.SanitizeTwice | dbt_generator.py:975-987 | sanitizing is idempotent unless the cut at 50 left a trailing `_` |
| Naming.LastIndex | dbt_generator.py:257 | the last index of the character, or -1 when it is absent (also dbt_generator.py:265) |
| Naming.PathName | dbt_generator.py:257 | the name of a path has no `/` (also dbt_generator.py:265) |
| Naming.NameOfLast | dbt_generator.py:257 | a last component other than `.` is the path's name (also dbt_generator.py:265) |
| Naming.Stem | dbt_generator.py:257 | the stem of a path has no `/` (also dbt_generator.py:265) |
| Naming.NameInDirectory | dbt_generator.py:257 | the name of `dir/name` is name (also dbt_generator.py:265) |
| Naming.StemOfFile | dbt_generator.py:257 | the stem of `dir/base.ext` is base (also dbt_generator.py:265) |
| Seqs.Dedup | dbt_generator.py:121 | `list(dict.fromkeys(s))`: the same elements, without repeats |
| Seqs.DedupAppend | dbt_generator.py:121 | de-duplicating `existing + new` keeps the existing columns' first occurrences in order and appends the new ones not already there, in their order |
| Seqs.DedupMerge | dbt_generator.py:118-122 | merging into an already merged list is de-duplicating the whole concatenation |
| Dbt.SanitizeName | dbt_generator.py:975-987 | the early return for "" gives what the rest of the function would give |
| Dbt.QuoteColumn | dbt_generator.py:293-298 | the column unchanged exactly when it is `*` or starts with `"`; otherwise wrapped in `"` |
| Dbt.QuoteColumnIdempotent | dbt_generator.py:293-298 | quoting twice is quoting once |
| Dbt.SqlPieces | dbt_generator.py:216-233 | the split always holds a current part |
| Dbt.JoinSqlPieces | dbt_generator.py:216-233 | joining the parts with commas gives back the text, one part per depth-zero comma plus one |
| Dbt.SqlColumnsJoin | dbt_generator.py:216-238 | joining the columns with "," gives back the clause, except a depth-zero comma at its very end |
| Dbt.TrimStartChar | dbt_generator.py:135 | `lstrip(c)` leaves no c in front (also dbt_generator.py:137) |
| Dbt.StripChar | dbt_generator.py:135 | `strip(c)` leaves no c at either end (also dbt_generator.py:137) |
| Dbt.SelectedColumns | dbt_generator.py:131-139 | the columns of the selected fields in order, no empty one and no `*` |
| Dbt.AddAll | dbt_generator.py:146-169 | the appends keep the columns before them in place, add exactly the new non-empty names, and keep a repeat-free list repeat-free |
| Dbt.AddAllConcat | dbt_generator.py:146-169 | two loops of appends are one loop over both lists |
| Dbt.AggregationStep | dbt_generator.py:147-153 | one more aggregation adds its field unless `*`, then its output name, each only if absent |
| Dbt.FormulaFieldNames | dbt_generator.py:165-169 | the names the formula loop tries: each formula's field, "" when missing |
| Dbt.ColumnsOfMembers | dbt_generator.py:126-177 | a name is a column of the tool exactly when one of its stages names it |
| Dbt.ColumnsOfDistinct | dbt_generator.py:126-177 | only the selected fields, the group-by batch and the SQL batch can bring a repeat |
| Dbt.GroupByKeepsRepeats | dbt_generator.py:142-143 | the group-by batch is checked against the list before it, so repeated group-by fields all stay |
| Dbt.DatabaseMatch | dbt_generator.py:245 | the leftmost match of `database=([^;]+)` at or after a position, None exactly when there is none |
| Dbt.RunBefore | dbt_generator.py:245 | `[^;]+` takes the longest start without `;` |
| Dbt.SchemaName | dbt_generator.py:240-249 | the schema name is never empty |
| Dbt.SchemaNameLeftmost | dbt_generator.py:242-247 | the leftmost `database=` with a value in the lower-cased connection string names the schema, sanitized |
| Dbt.SchemaNameRaw | dbt_generator.py:249 | without such a match the schema is "raw" |
| Dbt.TableName | dbt_generator.py:251-259 | the table name is never empty |
| Dbt.TableNamePrecedence | dbt_generator.py:253-254 | a table name wins over the file and the tool id |
| Dbt.TableNameOfFile | dbt_generator.py:256-257 | without a table name, a file `dir/base.ext` names the table after base |
| Dbt.TableNameOfTool | dbt_generator.py:259 | with neither, the table is `source_<id>` |
| Dbt.ModelReference | dbt_generator.py:541-547 | a `stg_` reference exactly for an input, an `int_` one for anything else |
| Dbt.ModelReferenceEnds | dbt_generator.py:541-547 | the reference ends in the input's table name, or the sanitized display name of any other tool |
| Dbt.GoldPrefix | dbt_generator.py:482-486 | `fct` exactly for a Summarize or a tool with aggregations, `dim` otherwise |
| Dbt.ConvertExpression | dbt_generator.py:705-708 | the empty expression is "NULL" |
| Dbt.ConvertedHasNoLogicalPairs | dbt_generator.py:716-728 | after the replacements in dict order no `&&` and no `\|\|` is left |
| Dbt.ReplaceAllSplit | dbt_generator.py:727-728 | the replacements applied in order are the first k, then the rest |
| Dbt.ConvertPlainExpression | dbt_generator.py:705-730 | text without `[` and without the first character of any pattern comes back unchanged |
| Dbt.SourceCte | dbt_generator.py:552 | `source` exactly when there is at most one upstream model |
| Dbt.JoinConditions | dbt_generator.py:589-595 | at most one condition per key, none exactly when no key splits into two at `=`, each on `source_1` |
| Dbt.SplitCount | dbt_generator.py:591-592 | a split at c has one more piece than c occurs |
| Dbt.SelectFieldFails | dbt_generator.py:660-661 | the Select entry as written fails exactly when ` AS ` occurs ignoring case but not in upper case |
| Dbt.SelectFieldLowercaseAs | dbt_generator.py:660-661 | `a as b` raises IndexError, for any names a and b |
| Dbt.SelectFields | dbt_generator.py:660-662 | one entry per field, and the list fails exactly when some entry fails |
| Dbt.SortParts | dbt_generator.py:676-681 | one entry per sort field, and a KeyError exactly when some entry has no field |
| Dbt.UnionSelects | dbt_generator.py:650-654 | one select per input |
| Dbt.QuoteAll | dbt_generator.py:614 | each column quoted, in order |
| Dbt.TransformationSource | dbt_generator.py:552 | every plan reading one CTE reads `source` exactly when there is at most one upstream model |
| Dbt.TransformationFailures | dbt_generator.py:549-703 | only a Select whose first 20 fields hold a field with ` as ` not in upper case, and a Sort with an entry without a field, fail |
| Dbt.JoinFallback | dbt_generator.py:587-597 | a Join falls back to `1=1` exactly when no key has exactly one `=` |
| Dbt.SummarizeDefaults | dbt_generator.py:612-636 | without group-by fields it groups by 1 and lists none; without aggregations it counts the records as `record_count` |
| Dbt.UnionSelectsAll | dbt_generator.py:649-654 | a Union of n > 1 inputs selects from `source_1` to `source_n` |
| Dbt.SelectKeepsTwenty | dbt_generator.py:657-662 | a Select keeps its first 20 fields at most |
| Dbt.SelectFieldCorrectedAgrees | dbt_generator.py:660-661 | the corrected entry never fails and agrees with the as-written one wherever the field has no lower-case letter |
| Dbt.SelectFieldCorrectedAlias | dbt_generator.py:660-661 | corrected, `a as b` gets its alias: `"a" as "b"` |
| Dbt.NewSource | dbt_generator.py:100-115 | the entry for a new table names the node's schema and table and holds its columns |
| Dbt.Entry | dbt_generator.py:117-124 | an existing entry keeps everything but its columns, which become existing + new de-duplicated; otherwise the new entry |
| Dbt.AddSourceOwn | dbt_generator.py:100-124 | the node's own (schema, table) is recorded with that entry |
| Dbt.AddSourceOthers | dbt_generator.py:100-124 | every other (schema, table) is recorded as before |
| Dbt.NodesFor | dbt_generator.py:98-101 | the source nodes naming (schema, table), in order |
| Dbt.CollectedEntry | dbt_generator.py:96-124 | an entry exactly when some node names it; the first such node's description and path; its columns alone, or the columns of all of them de-duplicated first occurrence first |
| Dbt.CollectedConcat | dbt_generator.py:98-99 | collecting a + b is collecting a, then b |
| Dbt.DbtGenerator.constructor | dbt_generator.py:43-48 | the generator starts with no sources |
| Dbt.DbtGenerator.SplitSqlColumns | dbt_generator.py:216-238 | the loop's parts are the depth-zero split, unstripped, with an empty last part dropped |
| Dbt.DbtGenerator.SelectedFieldColumns | dbt_generator.py:131-139 | the selected-fields loop gives the columns of the selected fields |
| Dbt.DbtGenerator.AddAggregationColumns | dbt_generator.py:146-153 | the aggregation loop adds the aggregation names absent so far |
| Dbt.DbtGenerator.AddJoinKeyColumns | dbt_generator.py:156-162 | the join-key loop adds the stripped sides absent so far |
| Dbt.DbtGenerator.AddStrippedColumns | dbt_generator.py:158-162 | the loop over the sides of one key |
| Dbt.DbtGenerator.AddFormulaColumns | dbt_generator.py:165-169 | the formula loop adds the formula fields absent so far |
| Dbt.DbtGenerator.ExtractColumnsFromNode | dbt_generator.py:126-177 | the columns of every stage in order, each only added where the source checks for it |
| Dbt.DbtGenerator.AddSourceNode | dbt_generator.py:100-124 | one node adds or merges its entry |
| Dbt.DbtGenerator.CollectSources | dbt_generator.py:96-124 | every source node of every workflow, in order, added or merged |
| Docs.BaseNamePrecedence | doc_generator.py:695-700 | the source path's stem wins, then the target path's stem, then the table name, annotation and plugin name, the first not empty |
| Docs.LayerPrefix | doc_generator.py:704-710 | one of the four prefixes `stg_`, `int_`, `fct_`, `dim_` |
| Docs.SuggestModelName | doc_generator.py:693-710 | the layer prefix followed by the sanitized base name: a `[a-z0-9_]` name of at most 54 characters |
| Docs.SuggestModelNameLayer | doc_generator.py:704-710 | `stg_` exactly for bronze, `int_` exactly for silver, `fct_` or `dim_` exactly for gold, and `fct_` exactly for a gold Summarize tool |
| Docs.PrefixedName | doc_generator.py:706-710 | a prefix in front of a sanitized name keeps both parts readable and the name clean |
| Docs.SuggestFromFile | doc_generator.py:697-698 | a tool reading `dir/base.ext` is named after base |
| Docs.SwapChar | doc_generator.py:379 | one character in, one character out |
| Docs.ReplaceOneChar | doc_generator.py:379 | `s.replace(c, d)` for single characters swaps every c for d |
| Docs.Escape | doc_generator.py:379 | same length, no `"`, `[` or `]` left, every other character kept |
| Docs.EscapeIsReplaces | doc_generator.py:379 | the escaping is the source's chain of three replacements |
| Docs.MermaidLabel | doc_generator.py:375-383 | at most 40 characters with nothing reserved; a display name of at most 40 is escaped whole, a longer one becomes its first 37 escaped characters and "..." |
| Docs.ShapeOf | doc_generator.py:385-392 | a cylinder exactly for an input, a subroutine exactly for an output, a hexagon exactly for another macro |
| Docs.NodeIdChars | doc_generator.py:375 | the node identifier holds neither `"` nor `\|` |
| Docs.ShapeMarks | doc_generator.py:385-392 | the two characters after the identifier tell the shape apart |
| Docs.BracketsUnquoted | doc_generator.py:385-392 | the shape brackets hold no `"` |
| Docs.Quoted | doc_generator.py:385-392 | a quote-free caption between quote-free parts is read back between the only two `"` |
| Docs.MermaidNodeParts | doc_generator.py:373-393 | the node text's shape marks follow the category precedence, and it holds exactly two `"` |
| Docs.ContainersUpTo | doc_generator.py:325-327 | only containers, and every container among the tools seen |
| Docs.ChildIdsMembers | doc_generator.py:328-329 | an id is recorded as a child exactly when some container lists it |
| Docs.ContainerLabel | doc_generator.py:333-334 | the annotation, else the plugin name, with `"` turned into `'`, cut to 30 characters |
| Docs.RenderAll | doc_generator.py:320-371 | one text per line |
| Docs.EdgeLineLabelled | doc_generator.py:356-369 | an arrow carries a `\|label\|` exactly when the anchor is neither empty nor `Output` nor `Output1` |
| Docs.ChildLinesMembers | doc_generator.py:338-342 | a child id naming a tool gives that tool's line, one naming none gives nothing, and every line comes from a listed id |
| Docs.SubgraphStarts | doc_generator.py:332-344 | every container opens a subgraph with at least a title and an `end` |
| Docs.TopLinesMembers | doc_generator.py:347-354 | the top-level lines are exactly those of the tools that are neither containers nor children |
| Docs.EdgeLinesEach | doc_generator.py:357-369 | one arrow per connection, in connection order |
| Docs.DiagramHeader | doc_generator.py:320 | the diagram starts with `graph LR` |
| Docs.GenerateMermaidDiagram | doc_generator.py:318-371 | the lines the loops build are DiagramText, the diagram as functions |
| Docs.FindContainers | doc_generator.py:323-329 | the first loop gives the containers in order and maps exactly the listed child ids |
| Docs.SubgraphLines | doc_generator.py:332-344 | the subgraph loop gives the rendered subgraphs |
| Docs.OneSubgraph | doc_generator.py:333-344 | one container gives its title, children and `end` |
| Docs.TopLevelLines | doc_generator.py:347-354 | the loop over the tools gives the rendered top-level lines |
| Docs.ConnectionLines | doc_generator.py:357-369 | the loop over the connections gives the rendered arrows |
| Docs.RenderSubgraph | doc_generator.py:333-344 | a subgraph renders as its title, its children and `end` |
| Docs.TopLinesStep | doc_generator.py:347-354 | one more tool adds its line exactly when it is drawn at the top level |
| Docs.EdgeLinesStep | doc_generator.py:357-369 | one more connection adds its arrow |
| Docs.ChildLinesStep | doc_generator.py:338-342 | one more child id adds the line of the tool it names, if any |
| Docs.RenderDiagram | doc_generator.py:320-371 | the rendered diagram is the header and the rendered parts in order |
| Docs.AddChildren | doc_generator.py:328-329 | every child id maps to the container, and ids outside the list keep their container |
| Docs.SubgraphBody | doc_generator.py:338-342 | the loop over one container's children gives its rendered child lines |

## Left out

- Characters are ASCII for case: `Text.Lower`, `Text.Upper` and the `\w` class change or admit only ASCII letters, digits and `_`, where Python's `str.lower`, `str.upper`, `re.IGNORECASE` and `\w`/`\b` act on all of Unicode. The members below inherit this.
- Formula.CallOpenAt: `\bname\s*\(` with ASCII-only case folding and word boundary; for "éIIF(a,b,c)" Python sees no word boundary before `IIF`, while the model does.
- Analyzer.SearchCall: the same ASCII-only `\b`/`\s`/IGNORECASE search; "éIIF(a,b,c)" differs as for Formula.CallOpenAt.
- Dbt.SelectedColumn: the ` AS ` test upper-cases ASCII only; Python's `upper()` turns "a aſ b" (long s) into "A AS B" and finds ` AS `, the model does not.
- Dbt.SelectField: the same ASCII-only `upper()` as Dbt.SelectedColumn, so "a aſ b" differs.
- Models.Workflow.UpstreamNodeByAnchor: the anchor comparison folds ASCII only; Python's `lower()` maps the Kelvin sign K to `k`, the model does not.
- MacroMappings.AlternateKey: the join type is upper-cased ASCII only; Python's `upper()` turns "ınner" (dotless i) into "INNER" and selects the inner-join macro, the model keeps the default.
- MacroMappings.JoinTypeSelection: inherits the ASCII-only upper-casing of MacroMappings.AlternateKey.
- Analyzer.SourceType: the extension test lower-cases ASCII only.
- Analyzer.TargetType: the extension test lower-cases ASCII only.
- Analyzer.TransformationAnalyzer.ConvertIifToCase: `_convert_iif_to_case` recurses into the arguments without bound; the model recurses at most `IifDepth` = 100 levels deep, so an IIF nested deeper (300 levels, say) is converted only to depth 100. The 50-round cap of each pass is the source's own.
- `str.format`: Formula.Format handles only positional `{d}` fields, the only kind the function templates use; format specs, named fields and `{{` escapes are not modelled.
- `_extract_columns_from_sql` (its lazy, dot-all regular expression): Dbt.DbtGenerator.ExtractColumnsFromNode takes its result as the parameter `sqlColumns`.
- `has_nested`: modelled as written, including the case-sensitive `find` offset that may be -1 and Python's slice at that index, by Formula.HasNested over the function table.
- `TransformationStep`: modelled without `description` and `dbt_hint`; `_generate_step_description` and `_generate_dbt_hint` are fixed-text emission.
- `Path(...).stem` is read as `PurePosixPath`: `/` is the only separator, so Windows-style `\` paths are one name.
- Exceptions (the IndexError and KeyError of the transformation SQL, `str.format` with too few arguments) are rendered as a `Failure` or `None` value rather than raised.
- `get_macro_coverage_stats`: a floating-point percentage rounded with `round`.
- `get_source_inventory` and `get_target_inventory`: they copy node fields, and the modelled source and target types, into report dictionaries.
- `_get_descriptive_gold_name`: a name precedence chain (target stem, table name, annotation, Summarize fields, output name, display name) used only by the gold model file generator, which is text emission; not part of this model.
- File and console I/O: `_write_file`, `_create_structure`, `generate`/`generate_all`, and the YAML, Markdown and SQL text the generators assemble around the modelled rules, with their timestamps.
- quality_validator.py: template strings, file writes and a floating-point pass rate.
- main.py: command-line parsing and file globbing around modules that are not part of this model.
- tests/test_source_columns.py: it exercises CSV and JSON column readers that are not part of this model.

## Findings

| source | as written | input that shows it | evidently intended | confidence | as-written member | corrected member |
|---|---|---|---|---|---|---|
| dbt_generator.py:660-661 | a Select field is tested for ` AS ` on `f.upper()` but split at ` AS ` case-sensitively, so `f.split(' AS ')[1]` raises IndexError | `a as b` | the alias split ignores case as the test does, giving `"a" as "b"` | not executed | Dbt.SelectFieldLowercaseAs | Dbt.SelectFieldCorrectedAlias |

Dbt.SelectField models the entry as written and Dbt.SelectFieldFails states exactly when it fails; Dbt.SelectFieldCorrected is the intended entry, and Dbt.SelectFieldCorrectedAgrees proves it never fails and agrees with the source wherever case cannot matter. The transformation SQL plan (Dbt.TransformationFailures) keeps the as-written entry, so that the failure stays visible in the model of the code.
