# Deep-research report pipeline, modelled in Dafny

This project models the text pipeline of the daily AI-research service. The service runs two research engines and saves a report:

- **The Python service.** It runs a Gemini engine and a LangGraph/LangChain engine.
- **The Rust backend.** It runs one search-and-model engine.

Each engine answers in markdown. Two independent parsers turn that markdown into typed records:

- the `## TL;DR` text;
- the `## Global Viral Events` list;
- the `## Strategic Deep Dives` list;
- the `## Completeness Audit`.

The Python parser is `ReportParser`; the Rust one is the set of `parser.rs` functions.

Around the parsers the project models these pieces:

- the token-budget trimmer of the search context;
- search-result deduplication and query construction, in Python and in Rust;
- prompt composition, fan-out and section combination;
- the engine runners that turn an outcome into an `EngineResult`;
- the orchestrators that build and save the daily report;
- the frontend's TL;DR bullet splitter and URL helpers;
- the `CORS_ORIGINS` parser;
- the report list's status summary.

**How the model is written.**

- **Pure code** becomes functions and lemmas: regex scans, record construction, `match` chains.
- **Loops that fill a list, dict or set** become methods with loop invariants. Each method is proved equal to a specification function, and the properties are proved about that function. Examples are the field loop, the deep-dive scan, the trimmer, the dedup loops and the bullet loop.
- **The two repositories** are classes whose `SaveReport` changes their rows and appends to a ghost log of save attempts.

Each regex is written out as an explicit scanner:

- a header search;
- a body capture up to the terminator;
- a `\n###\s+` block split;
- a `- **Key**: value` field match.

The two parsers share these scanners where the regexes agree. They keep separate ones where the regexes differ:

- **Section terminator.** Python stops at `\n##`, which also stops at `\n###`. Rust stops only at `\n## `.
- **Field match.** Python's `re.match` is anchored. Rust's `captures` searches the whole line.

**Inputs taken as parameters.** Everything the code does not compute itself is a parameter:

- the token encoder;
- `int()` / `str::parse` and `float()`, as `string -> Option<…>`;
- the language model;
- the Tavily search;
- the research-prompt builder;
- clock readings;
- whether a save fails.

Module layout:

| file | module | models |
|---|---|---|
| `wrappers.dfy` | `Wrappers` | `Option`, `Result` |
| `types.dfy` | `Enums`, `Events`, `Reports`, `RustTypes`, `Clocks` | the enums and records of both backends, clock readings |
| `text.dfy` | `Text` | `strip`/`trim`, `split`, `join`, `lower` |
| `seqs.dfy` | `Seqs` | sequence facts used by the proofs |
| `unique.dfy` | `Unique` | "first occurrence wins" deduplication |
| `markdown.dfy` | `Markdown` | the shared section, block and field scanners, the deep-dive scan, gaps |
| `report_parser.dfy` | `ReportParser` | `src/service/report_parser.py` |
| `rust_parser.dfy` | `RustParser` | `rust-backend/src/parser.rs` |
| `parser_agreement.dfy` | `ParserAgreement` | where the two parsers agree and where they differ |
| `context_trimmer.dfy` | `ContextTrimmer` | `backend/repo/context_trimmer.py` |
| `langchain_client.dfy` | `LangChainClient` | the pure helpers of `backend/repo/langchain_client.py` |
| `tavily_tool.dfy` | `TavilyTool` | `rust-backend/src/search/tavily_tool.rs` |
| `rust_engine.dfy` | `RustEngine` | `rust-backend/src/engines/engine.rs` |
| `engine_agreement.dfy` | `EngineAgreement` | where the two engines' queries, preambles and merges agree |
| `engine_runner.dfy` | `EngineRunner` | `src/service/engine_runner.py` |
| `rust_runner.dfy` | `RustRunner` | `rust-backend/src/engines/runner.rs` |
| `orchestrator.dfy` | `Orchestrator` | `src/service/research_orchestrator.py` and the Firestore `save_report` |
| `rust_orchestrator.dfy` | `RustOrchestrator` | `rust-backend/src/orchestrator.rs` and the SQLite `save_report` |
| `report_utils.dfy` | `ReportUtils` | `frontend/src/lib/report-utils.ts` |
| `cors_config.dfy` | `CorsConfig` | `parse_cors_origins` of `rust-backend/src/config.rs` |
| `report_routes.dfy` | `ReportRoutes` | `_summarize` of `src/ui/report_routes.py` |

## Model

| member | source | states |
|---|---|---|
| Text.Trim | rust-backend/src/config.rs:6 | the stripped text is the slice of the input that drops exactly its leading and trailing whitespace; it is empty exactly when the input is all whitespace, and otherwise neither end is whitespace |
| Text.TrimStart | src/service/report_parser.py:35 | drops exactly the leading whitespace: the result is a suffix, everything dropped is whitespace, and it does not start with whitespace |
| Text.TrimEnd | src/service/report_parser.py:35 | drops exactly the trailing whitespace: the result is a prefix, everything dropped is whitespace, and it does not end with whitespace |
| Text.TrimmedEnds | src/service/report_parser.py:35 | a stripped text is empty or has no whitespace at either end |
| Text.TrimOfTrimmed | src/service/report_parser.py:35 | stripping a text without surrounding whitespace changes nothing |
| Text.TrimFreeOf | src/service/report_parser.py:35 | stripping never introduces a substring the text was free of |
| Text.Split | backend/repo/context_trimmer.py:50 | `split` always yields at least one piece, and no piece holds the separator |
| Text.JoinSplit | backend/repo/context_trimmer.py:50-60 | joining the pieces of a split with the same separator gives back the text |
| Text.SplitJoin | backend/repo/context_trimmer.py:50-60 | splitting a join of separator-free pieces gives back the pieces |
| Text.SplitCount | rust-backend/src/config.rs:13 | a split yields one more piece than the text has separators |
| Text.ToLower | src/service/report_parser.py:71 | lower-casing keeps the length and maps each character on its own |
| Text.CleanPieces | rust-backend/src/config.rs:14-16 | cleaning the pieces and dropping the empty ones never yields more items than pieces, and never yields an empty one |
| Clocks.Elapsed | src/service/engine_runner.py:46-51 | the duration is the end reading minus the start reading, and is not negative when the start reading comes first |
| Unique.Firsts | backend/repo/langchain_client.py:54-57 | first-occurrence dedup keeps only kept-kind items of the input, no two with one key, and the key of every kept-kind item of the input |
| Unique.FirstsSnoc | backend/repo/langchain_client.py:56-57 | one more item is appended exactly when it is of the kept kind and its key is unseen |
| Unique.FirstOccurrenceKept | backend/repo/langchain_client.py:56-57 | the first item with a given key is kept |
| Unique.FirstsKeepOrder | backend/repo/langchain_client.py:54-62 | first occurrences are kept in the order they appear |
| Markdown.HeaderAt | src/service/report_parser.py:33 | a header match at a position starts with `##` and ends with the newline after the title |
| Markdown.LastNewline | src/service/report_parser.py:33 | the body starts after the last newline of the whitespace that follows the title, the place where the greedy `\s*\n` backtracks to |
| Markdown.FindHeader | src/service/report_parser.py:32-33 | the search finds the leftmost position where the header pattern matches, and nothing matches before it |
| Markdown.BodyEnd | src/service/report_parser.py:33 | the lazy body ends at the first occurrence of the terminator, or at the end of the text |
| Markdown.SectionFound | src/service/report_parser.py:32-35 | a section is captured exactly when the header pattern occurs somewhere |
| Markdown.SectionFreeOfTerminator | src/service/report_parser.py:33 | a captured body never contains its terminator |
| Markdown.FreeOfLonger | src/service/report_parser.py:48 | a body free of `\n##` is free of `\n###` |
| Markdown.NextSep | src/service/report_parser.py:48 | finds the first `\n###` followed by whitespace at or after a position, with none before it |
| Markdown.Blocks | src/service/report_parser.py:48 | `re.split` always yields at least one block |
| Markdown.BlocksOfUnsplittable | src/service/report_parser.py:48 | a text without `\n###` is one block, itself |
| Markdown.BlocksOfSplittable | rust-backend/src/parser.rs:21-22 | a text with a separator splits into at least two blocks |
| Markdown.HashRun | src/service/report_parser.py:61 | the `#+` run from a position: only `#`s, ending at the first other character |
| Markdown.StripHeading | src/service/report_parser.py:61 | removing `^#+\s*` removes a prefix of `#`s and whitespace only, leaves a line that does not start with `#` unchanged, and leaves no leading whitespace after a `#` run |
| Markdown.KeyEnd | src/service/report_parser.py:68 | the lazy `(.+?)` key ends at the first `**:` after its start, with room for a value after it |
| Markdown.FieldAt | src/service/report_parser.py:67-69 | a field line matched at a position starts with `-` there and has a non-empty key |
| Markdown.FindField | rust-backend/src/parser.rs:47 | the unanchored search returns the field matched at the first position where one matches, or nothing when no position does |
| Markdown.CollectFields | src/service/report_parser.py:65-71 | the loop over the stripped lines builds exactly the map of the field-line fold |
| Markdown.FieldKeysLowerCase | src/service/report_parser.py:71 | every key of the field map is lower case |
| Markdown.FieldsFromAppend | src/service/report_parser.py:66-71 | folding over two runs of lines is folding over the first, then over the second |
| Markdown.FieldsLastWins | src/service/report_parser.py:70-71 | a field line that no later line with the same lower-cased key overrides sets that key to its value: later duplicates overwrite earlier ones |
| Markdown.FieldsUntouched | src/service/report_parser.py:65-71 | a key that no line names keeps its value, or stays absent |
| Markdown.FieldsKeys | src/service/report_parser.py:65-71 | a key is in the map exactly when it was there already or some line is a field line for it |
| Markdown.MarkerIndex | src/service/report_parser.py:127 | the first line starting with `- **Key Findings**`, and no marker before it |
| Markdown.DiveRunInFindings | src/service/report_parser.py:130-132 | once in findings mode, each `- ` line adds one finding in order and no line touches the fields |
| Markdown.DiveRunNoMarker | src/service/report_parser.py:133-138 | without a marker the scan only reads field lines, and never enters findings mode |
| Markdown.DiveRunMarker | src/service/report_parser.py:125-138 | with the first marker at `k`, the fields come from the lines before `k` and the findings from the `- ` lines after it |
| Markdown.RunDive | src/service/report_parser.py:121-138 | the `in_findings` loop over the stripped lines computes exactly the scan function |
| Markdown.DiveRunFromStart | src/service/report_parser.py:121-138 | from the empty start, the scan's fields are those of the lines before the first marker and its findings are the `- ` lines after it |
| Markdown.DiveOf | src/service/report_parser.py:114-119 | a dive exists only with a non-empty title |
| Markdown.DiveOfSections | src/service/report_parser.py:140-145 | priority defaults to `MEDIUM` and summary to empty, both from the fields before the marker; the findings are the bulleted lines after it |
| Markdown.BlockItem | src/service/report_parser.py:49-55 | a block yields at most one item |
| Markdown.BlockItemOf | src/service/report_parser.py:50-55 | a block that is blank after trimming is skipped; otherwise it yields the parser's item, if any |
| Markdown.FilterMapBlocks | rust-backend/src/parser.rs:24-33 | never more items than blocks |
| Markdown.FilterMapBlocksStep | rust-backend/src/parser.rs:24-33 | one more block appends exactly that block's item |
| Markdown.FilterMapBlocksFrom | rust-backend/src/parser.rs:24-33 | every item returned is the parse of some non-blank trimmed block |
| Markdown.Gaps | src/service/report_parser.py:173-174 | gaps are non-empty, comma-free, already stripped, and at most one more than the commas |
| Markdown.GapsOfNothing | src/service/report_parser.py:173-174 | an absent `gaps` field gives no gaps |
| Markdown.GapsOfOnePiece | src/service/report_parser.py:174 | a comma-free value gives its stripped self, or nothing when blank |
| Markdown.ClampRating | src/service/report_parser.py:88 | `max(1, min(10, x))` lies in [1, 10], is `x` inside that range, and 1 or 10 outside it |
| Markdown.Section | src/service/report_parser.py:32-35 | the body captured by the section pattern, or none; SectionFound and SectionFreeOfTerminator state its properties |
| Markdown.MatchField | src/service/report_parser.py:67-69 | the key and value of a field line, or none, by the anchored or the searching pattern; AnchoredFieldIsFound states that the search finds what the anchored match finds, and FieldsLastWins what a match does to the map |
| Markdown.FieldsOf | src/service/report_parser.py:65-71 | the field map of a run of lines; CollectFields computes it, and FieldsLastWins, FieldsUntouched and FieldsKeys state its properties |
| Markdown.GapsAtComma | src/service/report_parser.py:173-174 | the gaps of `a,b` with a comma-free `a` are the gaps of `a` followed by the gaps of `b` |
| Markdown.GapsRoundTrip | src/service/report_parser.py:173-174 | stripped, non-empty, comma-free gaps joined with `,` read back as exactly those gaps |
| ReportParser.TldrStripped | src/service/report_parser.py:35 | the TL;DR has no surrounding whitespace |
| ReportParser.TldrAbsent | src/service/report_parser.py:32-35 | without a TL;DR header the result is empty |
| ReportParser.TldrStopsAtHeading | src/service/report_parser.py:33 | the TL;DR never contains `\n##`, so it ends at any sub-heading |
| ReportParser.CategoryOf | src/service/report_parser.py:73-74 | the category is the exact `CATEGORY_MAP` entry of the `category` field, and `RESEARCH` when the field is absent or unknown |
| ReportParser.ConfidenceOf | src/service/report_parser.py:75-78 | the confidence is the exact `CONFIDENCE_MAP` entry of the field, and `MEDIUM` otherwise |
| ReportParser.ImpactOf | src/service/report_parser.py:80-88 | the rating is in [1, 10]; it is 5 when the field is missing or `int()` rejects it, and the clamped value otherwise |
| ReportParser.SingleEvent | src/service/report_parser.py:58-91 | a returned event has a non-empty headline and a rating within the record's declared bounds |
| ReportParser.EventFields | src/service/report_parser.py:60-90 | an event exists exactly when the heading line is non-empty; it carries that heading, the looked-up category, confidence and rating, and `source` with default `Unknown` |
| ReportParser.ParseSingleEvent | src/service/report_parser.py:58-91 | the field loop computes the event function |
| ReportParser.ParseViralEvents | src/service/report_parser.py:37-56 | the block loop computes the events function |
| ReportParser.ParseEventBlocks | src/service/report_parser.py:49-55 | the loop appends each non-blank block's event in order |
| ReportParser.ViralEventsAtMostOne | src/service/report_parser.py:41-48 | at most one event is ever returned, because the body cannot contain `\n###` to split on |
| ReportParser.ViralEventsValid | src/service/report_parser.py:85-91 | every event has a non-empty headline and a rating in [1, 10] |
| ReportParser.ViralEventsAbsent | src/service/report_parser.py:45-46 | without the section there are no events |
| ReportParser.ParseSingleDive | src/service/report_parser.py:114-145 | the dive loop computes the dive function with the anchored field match |
| ReportParser.ParseDeepDives | src/service/report_parser.py:93-112 | the block loop computes the dives function |
| ReportParser.ParseDiveBlocks | src/service/report_parser.py:105-111 | the loop appends each non-blank block's dive in order |
| ReportParser.DeepDivesAtMostOne | src/service/report_parser.py:97-104 | at most one dive is ever returned |
| ReportParser.DeepDivesTitled | src/service/report_parser.py:117-119 | every dive has a non-empty title |
| ReportParser.DeepDivesAbsent | src/service/report_parser.py:101-102 | without the section there are no dives |
| ReportParser.NumberField | src/service/report_parser.py:167-169 | an absent field gives its default; a present one gives whatever the conversion gives |
| ReportParser.ParseCompletenessAudit | src/service/report_parser.py:147-181 | the parse computes the audit function |
| ReportParser.AuditAbsent | src/service/report_parser.py:156-157 | without the section there is no audit |
| ReportParser.AuditWellFormed | src/service/report_parser.py:174-181 | a returned audit has a score in [0.0, 1.0] and only non-empty gaps |
| ReportParser.AuditDefaults | src/service/report_parser.py:166-174 | with none of the four fields the audit is zero signals, zero sources, score 0.0 and no gaps |
| ReportParser.AuditUnparsable | src/service/report_parser.py:166-171 | an integer field that `int()` rejects discards the whole audit |
| ReportParser.ScoreUnparsable | src/service/report_parser.py:169-171 | a score that `float()` rejects discards the whole audit |
| ReportParser.ParseTldr | src/service/report_parser.py:30-35 | the TL;DR section's stripped body, or none; its properties are the lemmas TldrStripped, TldrAbsent and TldrStopsAtHeading |
| ReportParser.ViralEvents | src/service/report_parser.py:37-56 | the events read from the `Viral Events` section block by block; ParseViralEvents computes it, and ViralEventsAtMostOne, ViralEventsValid and ViralEventsAbsent state its properties |
| ReportParser.DeepDives | src/service/report_parser.py:93-112 | the dives read from the `Deep Dives` section block by block; ParseDeepDives computes it, and DeepDivesAtMostOne, DeepDivesTitled and DeepDivesAbsent state its properties |
| ReportParser.AuditOfFields | src/service/report_parser.py:166-181 | the audit built from the field map; AuditOfFieldsWellFormed, AuditDefaults, AuditUnparsable and ScoreUnparsable state its properties |
| ReportParser.CompletenessAuditOf | src/service/report_parser.py:147-181 | the audit of the `Completeness Audit` section, or none without it; ParseCompletenessAudit computes it, and AuditAbsent and AuditWellFormed state its properties |
| RustParser.ParseTldr | rust-backend/src/parser.rs:6-11 | a returned TL;DR is non-empty and has no surrounding whitespace |
| RustParser.TldrAbsent | rust-backend/src/parser.rs:6-11 | without a header the result is `None` |
| RustParser.TldrBlank | rust-backend/src/parser.rs:9-10 | a body that is all whitespace gives `None` |
| RustParser.TldrStopsAtHeading | rust-backend/src/parser.rs:7 | the TL;DR never contains `\n## ` |
| RustParser.ImpactOf | rust-backend/src/parser.rs:72-77 | the rating is in [1, 10]; it is 5 when the field is missing or unparsable, and the clamped value otherwise |
| RustParser.SingleEvent | rust-backend/src/parser.rs:36-97 | a returned event has a non-empty headline and a rating in [1, 10] |
| RustParser.EventFields | rust-backend/src/parser.rs:37-96 | an event exists exactly when the heading is non-empty; it carries the category, confidence and rating read from its fields, `source` or `Unknown`, and `summary` or empty |
| RustParser.ParseSingleEvent | rust-backend/src/parser.rs:36-97 | the `HashMap` loop computes the event function |
| RustParser.ViralEventsValid | rust-backend/src/parser.rs:13-34 | every event has a non-empty headline and a rating in [1, 10] |
| RustParser.ViralEventsAbsent | rust-backend/src/parser.rs:16-19 | without the section there are no events |
| RustParser.ViralEventsBlocks | rust-backend/src/parser.rs:21-33 | a `###` separator inside the section splits it into two or more blocks, each parsed on its own |
| RustParser.ParseSingleDive | rust-backend/src/parser.rs:122-164 | the dive loop computes the dive function with the unanchored field search |
| RustParser.DeepDivesTitled | rust-backend/src/parser.rs:125-128 | every dive has a non-empty title |
| RustParser.DeepDivesAbsent | rust-backend/src/parser.rs:102-105 | without the section there are no dives |
| RustParser.ParseCompletenessAudit | rust-backend/src/parser.rs:166-203 | the field loop and `?` chain compute the audit function |
| RustParser.AuditPresentIff | rust-backend/src/parser.rs:183-195 | an audit exists exactly when all three number fields are present and parse; it then holds their values, no gaps without a `gaps` field, and only non-empty gaps |
| RustParser.AuditAbsent | rust-backend/src/parser.rs:169 | without the section there is no audit |
| RustParser.CategoryOf | rust-backend/src/parser.rs:55-63 | the six category names map to their categories and anything else, or no field, to `Research`; EventFields states it of every event and CategoriesAgree that Python maps the same way |
| RustParser.ConfidenceOf | rust-backend/src/parser.rs:65-70 | `high`, `medium` and `low` map to their levels and anything else, or no field, to `Medium`; EventFields states it of every event and ConfidencesAgree that Python maps the same way |
| RustParser.ViralEvents | rust-backend/src/parser.rs:13-34 | the events of the section's blocks; ViralEventsValid, ViralEventsAbsent and ViralEventsBlocks state its properties |
| RustParser.DeepDives | rust-backend/src/parser.rs:99-120 | the dives of the section's blocks; DeepDivesTitled and DeepDivesAbsent state its properties |
| RustParser.AuditOfFields | rust-backend/src/parser.rs:183-195 | the audit built from the field map with the `?` chain; AuditPresentIff states when it exists and what it holds |
| RustParser.CompletenessAuditOf | rust-backend/src/parser.rs:166-203 | the audit of the section, or none without it; ParseCompletenessAudit computes it and AuditAbsent states the missing-section case |
| ParserAgreement.CategoriesAgree | rust-backend/src/parser.rs:55-63 | the Rust `match` and the Python map give the same category |
| ParserAgreement.ConfidencesAgree | rust-backend/src/parser.rs:65-70 | the Rust `match` and the Python map give the same confidence |
| ParserAgreement.ImpactsAgree | rust-backend/src/parser.rs:72-77 | with Python's `int()` and Rust's `parse::<i32>()` as two parsers, where Python's agrees with every value Rust's accepts: the ratings are equal unless only Python reads the value; then Rust gives 5 and Python the clamped number |
| ParserAgreement.WideRatingDiffers | src/service/report_parser.py:81-88 | on `99999999999`, which overflows `i32`, Python rates 10 and Rust rates 5 |
| ParserAgreement.AnchoredFieldIsFound | rust-backend/src/parser.rs:47 | a line the anchored match accepts gives the same field to the unanchored search |
| ParserAgreement.AuditsAgree | rust-backend/src/parser.rs:183-185 | when Rust returns an audit, and Python's parsers agree with every value Rust's accept, Python returns that audit when the score is in [0.0, 1.0], and raises otherwise |
| ParserAgreement.SubHeadingPython | src/service/report_parser.py:32-35 | on `##TL;DR\nA\n###B` Python's TL;DR stops at the sub-heading |
| ParserAgreement.SubHeadingRust | rust-backend/src/parser.rs:6-11 | on the same text Rust's TL;DR keeps the sub-heading |
| ContextTrimmer.CountTokens | backend/repo/context_trimmer.py:12-20 | the empty text has no tokens |
| ContextTrimmer.TrimContext | backend/repo/context_trimmer.py:23-60 | the trimmer computes the trimmed-context function |
| ContextTrimmer.KeepFittingLines | backend/repo/context_trimmer.py:50-58 | the `running` loop keeps exactly the greedy prefix of lines |
| ContextTrimmer.KeptFrom | backend/repo/context_trimmer.py:53-57 | from line `i`, the greedy count stops at a line that does not fit, and otherwise counts it and goes on with less room |
| ContextTrimmer.PromptFillsBudget | backend/repo/context_trimmer.py:34-39 | when the prompt leaves no room, the result is empty |
| ContextTrimmer.ContextFits | backend/repo/context_trimmer.py:41-43 | a context that fits the room is returned unchanged |
| ContextTrimmer.KeptWithinRoom | backend/repo/context_trimmer.py:52-58 | the kept lines' counts, taken one line at a time, add up to no more than the room |
| ContextTrimmer.KeptIsGreedy | backend/repo/context_trimmer.py:53-56 | the first line not kept would overflow the room |
| ContextTrimmer.TrimmedIsGreedyPrefix | backend/repo/context_trimmer.py:45-60 | when trimming, the result joins the greedy prefix of the lines; the kept lines' summed counts are within the room, and the next line would have overflowed it |
| ContextTrimmer.TrimmedCanExceedRoom | backend/repo/context_trimmer.py:50-60 | with one token per character, context `a\na\na` and a budget of 2, the result `a\na` counts 3 tokens: the joining newlines are not counted |
| ContextTrimmer.TrimKeepsWholeLines | backend/repo/context_trimmer.py:50-60 | in every case the result joins a prefix of the context's lines, so no line is ever cut |
| ContextTrimmer.KeptCount | backend/repo/context_trimmer.py:50-58 | the number of leading lines whose summed counts stay within the room, at most the number of lines |
| ContextTrimmer.TrimmedContext | backend/repo/context_trimmer.py:23-60 | the trimmed context; TrimContext computes it, and PromptFillsBudget, ContextFits, TrimmedIsGreedyPrefix, TrimmedCanExceedRoom and TrimKeepsWholeLines state its properties |
| LangChainClient.Topic | backend/repo/langchain_client.py:36 | `prompt[:200]`: the prompt's prefix of length at most 200 |
| LangChainClient.BuildSearchQueries | backend/repo/langchain_client.py:34-41 | three distinct queries, each the topic followed by its own suffix in order |
| LangChainClient.Blocks | backend/repo/langchain_client.py:58-62 | one `Title/URL/Content` block per kept item, in order |
| LangChainClient.BlocksSnoc | backend/repo/langchain_client.py:58-62 | one more kept item appends its block |
| LangChainClient.DedupKept | backend/repo/langchain_client.py:44-62 | kept items all come from list batches and have a url; no url is kept twice; every url of the input is kept |
| LangChainClient.DedupResults | backend/repo/langchain_client.py:44-64 | the nested loops compute the dedup function |
| LangChainClient.BatchItemsAppend | backend/repo/langchain_client.py:48-54 | the items of two runs of batches are those of the first followed by those of the second |
| LangChainClient.BadBatchIgnored | backend/repo/langchain_client.py:48-53 | an exception or non-list batch changes nothing |
| LangChainClient.FirstHitWins | backend/repo/langchain_client.py:54-57 | the first item with a given non-empty url is kept, with its title and content |
| LangChainClient.KeptInFirstSeenOrder | backend/repo/langchain_client.py:54-62 | kept items appear in the order of their first occurrence |
| LangChainClient.LaterBatchesOnlyAppend | backend/repo/langchain_client.py:48-62 | later batches only append to what earlier ones kept |
| LangChainClient.DedupEmptyIff | backend/repo/langchain_client.py:63-64 | the result is empty exactly when no item has a url |
| LangChainClient.BuildInitialState | backend/repo/langchain_client.py:67-79 | prompt and run id set, every other field empty |
| LangChainClient.ComposeFullPrompt | backend/repo/langchain_client.py:121-130 | the full prompt is the prompt, then `\n\nSearch context:\n`, then the trimmed context |
| LangChainClient.ComposedContextIsWholeLines | backend/repo/langchain_client.py:125-129 | the context part is a whole-line prefix of the search context; it is empty when the prompt leaves no room, and all of it when it fits |
| LangChainClient.RouteToSections | backend/repo/langchain_client.py:132-146 | three sends to `generate_section` named tldr, events and dives_audit, all on the same full prompt, with distinct preambles |
| LangChainClient.SectionMessages | backend/repo/langchain_client.py:210-217 | a system message with the preamble, then a user message with the full prompt |
| LangChainClient.RoutedCallsDifferOnlyInPreamble | backend/repo/langchain_client.py:132-146 | any two routed calls send the same user message and different system messages |
| LangChainClient.GenerateSection | backend/repo/langchain_client.py:219-237 | one result, named after its section |
| LangChainClient.Branches | backend/repo/langchain_client.py:219-237 | one result per send, each the section generated for that send |
| LangChainClient.CombineResults | backend/repo/langchain_client.py:148-157 | the combined markdown is the tldr, events and dives_audit contents in that order, with `\n\n` between them and empty content for a missing name |
| LangChainClient.JoinThree | backend/repo/langchain_client.py:157 | joining three parts puts the separator between each pair |
| LangChainClient.InitialStateCombinesToSeparators | backend/repo/langchain_client.py:148-157 | with no results only the two separators remain |
| LangChainClient.LastResultWins | backend/repo/langchain_client.py:152-155 | on duplicate names the last result wins |
| LangChainClient.ByNameOfDistinct | backend/repo/langchain_client.py:152-155 | with distinct names, a name maps to a content exactly when that result is present |
| LangChainClient.SameResultsSameCombine | backend/repo/langchain_client.py:148-157 | two distinct-name result lists with the same members combine to the same text |
| LangChainClient.CombineIgnoresOrder | backend/repo/langchain_client.py:148-157 | combining is invariant under permutation of distinct-name results |
| LangChainClient.FanOutInAnyOrder | backend/types/graph_state.py:28 | however the three branch results are concatenated, the combined text is tldr, events, dives |
| LangChainClient.ComposedState | backend/repo/langchain_client.py:121-130 | after search and compose, the state holds the deduplicated context and the full prompt composed from it |
| LangChainClient.ExecuteResearchOutput | backend/repo/langchain_client.py:182-190 | the graph's output is the three model answers to the same full prompt, in section order, joined by `\n\n` |
| LangChainClient.RunResearch | backend/repo/langchain_client.py:159-172 | a result passes through; a `LangChainError` is re-raised unchanged; any other exception is wrapped with `LangChain research failed: ` |
| LangChainClient.WrapsOnce | backend/repo/langchain_client.py:164-172 | wrapping an already wrapped failure changes nothing |
| LangChainClient.BatchItems | backend/repo/langchain_client.py:48-54 | the items of the list batches in order, skipping raised and non-list ones; BatchItemsAppend, FirstHitWins, KeptInFirstSeenOrder and DedupEmptyIff state its properties |
| LangChainClient.ByName | backend/repo/langchain_client.py:152-155 | the content of the last result with the given section name; LastResultWins and ByNameOfDistinct state it |
| LangChainClient.SearchNode | backend/repo/langchain_client.py:192-208 | one batch per query of `_build_search_queries`, each the search of that query, in query order |
| LangChainClient.ExecuteResearch | backend/repo/langchain_client.py:182-190 | the combined markdown of the run; ExecuteResearchOutput and SearchedResearchOutput state what it is |
| LangChainClient.SearchedResearchOutput | backend/repo/langchain_client.py:182-208 | a run fed by its own search node answers, in section order, the full prompt composed from the deduplicated searches of the topic with each of the three suffixes |
| TavilyTool.BuildQueries | rust-backend/src/search/tavily_tool.rs:6-10 | three distinct queries, each the untruncated topic followed by its suffix |
| TavilyTool.SearchAll | rust-backend/src/search/tavily_tool.rs:16-22 | the three results are the searches of the three queries, in order |
| TavilyTool.Blocks | rust-backend/src/search/tavily_tool.rs:31-34 | one block with a trailing newline per kept item, in order |
| TavilyTool.MergeKept | rust-backend/src/search/tavily_tool.rs:26-42 | kept items come from successful searches; no url twice; every url seen is kept |
| TavilyTool.ParallelSearch | rust-backend/src/search/tavily_tool.rs:5-56 | the search computes the merge of the three results |
| TavilyTool.MergeResults | rust-backend/src/search/tavily_tool.rs:22-55 | the `seen_urls` loop computes the merge function |
| TavilyTool.MergeItems | rust-backend/src/search/tavily_tool.rs:29-36 | the inner loop extends the kept items, the seen set and the blocks together |
| TavilyTool.MergeStep | rust-backend/src/search/tavily_tool.rs:30-35 | a new url appends the item, its url and its block; a seen one changes nothing |
| TavilyTool.OkItemsAppend | rust-backend/src/search/tavily_tool.rs:26-29 | the items of two runs of results are those of the first followed by those of the second |
| TavilyTool.FailedSearchSkipped | rust-backend/src/search/tavily_tool.rs:38-40 | a failed search changes nothing |
| TavilyTool.MergeFailsIff | rust-backend/src/search/tavily_tool.rs:51-53 | the merge fails, with `All Tavily searches failed`, exactly when no item was returned |
| TavilyTool.AllFailedNoItems | rust-backend/src/search/tavily_tool.rs:38-40 | all-failed results carry no items |
| TavilyTool.AllSearchesFailed | rust-backend/src/search/tavily_tool.rs:51-53 | when all three searches fail the merge fails |
| TavilyTool.FirstHitWins | rust-backend/src/search/tavily_tool.rs:30 | the first item with a given url is kept, even an empty url |
| TavilyTool.KeptInFirstSeenOrder | rust-backend/src/search/tavily_tool.rs:26-36 | kept items appear in the order of their first occurrence |
| TavilyTool.LaterResultsOnlyAppend | rust-backend/src/search/tavily_tool.rs:26-42 | later results only append to what earlier ones kept |
| TavilyTool.OkItems | rust-backend/src/search/tavily_tool.rs:26-29 | the items of the successful results in order; MergeKept, OkItemsAppend, MergeFailsIff and AllFailedNoItems state its properties |
| TavilyTool.Merged | rust-backend/src/search/tavily_tool.rs:22-55 | the merged context, or the all-failed error; ParallelSearch and MergeResults compute it, and FailedSearchSkipped, MergeFailsIff and AllSearchesFailed state its properties |
| RustEngine.SearchContext | rust-backend/src/engines/engine.rs:49 | a failed search becomes the empty context |
| RustEngine.FullPrompt | rust-backend/src/engines/engine.rs:50 | the full prompt is the prompt, then `\n\nSearch context:\n`, then the context |
| RustEngine.RunResearch | rust-backend/src/engines/engine.rs:41-70 | succeeds exactly when all three calls on the same full prompt do, with their answers joined by `\n\n`; otherwise the first failure, in the order tldr, events, dives, is returned with its prefix |
| RustEngine.SearchFailureTolerated | rust-backend/src/engines/engine.rs:49 | a failed search runs exactly like an empty one |
| RustEngine.OnlyThreeCallsMatter | rust-backend/src/engines/engine.rs:56-60 | models that agree on those three calls give the same result |
| RustEngine.PreamblesDistinct | rust-backend/src/engines/engine.rs:8-39 | the three preambles differ |
| EngineAgreement.SameQueriesForShortTopics | backend/repo/langchain_client.py:34-41 | for a topic of at most 200 characters both engines build the same three queries |
| EngineAgreement.LongTopicsDiffer | backend/repo/langchain_client.py:36 | for a longer topic every query differs, since only Python truncates |
| EngineAgreement.SharedPreambles | backend/config/prompts.py:3-38 | the TL;DR and dives/audit preambles are the same text in both backends |
| EngineAgreement.EventsPreamblesDiffer | backend/config/prompts.py:9-20 | the events preambles differ in their summary line |
| EngineAgreement.UrlLessHitDiffers | rust-backend/src/search/tavily_tool.rs:29-35 | a hit without a url is dropped by Python and kept by Rust |
| EngineRunner.FailedResult | src/service/engine_runner.py:74-90 | a failed result: status FAILED, the message, no markdown, `None` tldr, no events or dives, no audit, the clock's times |
| EngineRunner.RunEngine | src/service/engine_runner.py:39-90 | an exception never escapes. A returned text gives COMPLETED with that text and the four parser results, unless the audit constructor raises. A raised one gives FAILED with its message and empty fields. FAILED exactly when there is a message |
| EngineRunner.RunGeminiEngine | src/service/engine_runner.py:17-25 | the result is tagged GEMINI |
| EngineRunner.RunLangChainEngine | src/service/engine_runner.py:28-36 | the result is tagged LANGCHAIN |
| EngineRunner.CompletedResultWellFormed | src/service/engine_runner.py:53-73 | a completed result has at most one event and one dive, valid events, titled dives, and an audit score in [0.0, 1.0] |
| EngineRunner.EmptyAnswerCompletes | src/service/engine_runner.py:49-73 | an empty answer completes, with tldr `""` rather than `None` |
| RustRunner.RunEngine | rust-backend/src/engines/runner.rs:11-72 | `Ok(md)` gives `Completed` with `md` and the four parser results; `Err(e)` gives `Failed` with `e` and empty fields; `Failed` exactly when a message is set; the clock's times on both paths |
| RustRunner.ResultWellFormed | rust-backend/src/engines/runner.rs:29-31 | every event has a non-empty headline and a rating in [1, 10], and every dive a title |
| Orchestrator.ReportId | src/service/research_orchestrator.py:33 | `rpt-` followed by the date |
| Orchestrator.ReportIdInjective | src/service/research_orchestrator.py:33 | different dates give different report ids |
| Orchestrator.ReportStore.SaveReport | src/repo/firestore_client.py:22-34 | one attempt is logged; success stores the report under its id; failure stores nothing and raises `Failed to save report <id>` |
| Orchestrator.DailyReport | src/service/research_orchestrator.py:30-48 | the report has the date's id, both results present and tagged by engine, and `run_date == created_at` |
| Orchestrator.EachResultFromItsEngine | src/service/research_orchestrator.py:36-39 | each result is its own runner's, and a failing engine yields a failed result with its message |
| Orchestrator.OnlyTheDatePromptMatters | src/service/research_orchestrator.py:32-38 | both engines see only the date's prompt |
| Orchestrator.ResearchOrchestrator.constructor | src/service/research_orchestrator.py:20-28 | keeps the two clients and the repository |
| Orchestrator.ResearchOrchestrator.RunDailyResearch | src/service/research_orchestrator.py:30-52 | exactly one save, of the very report returned; only a failed save fails the call, with the repository's error |
| RustOrchestrator.SearchTopic | rust-backend/src/orchestrator.rs:18 | `AI industry developments ` followed by the date |
| RustOrchestrator.ReportRepo.SaveReport | rust-backend/src/repo/sqlite.rs:41-60 | one attempt is logged; success replaces the row of the report id; failure changes no row and returns its error |
| RustOrchestrator.DailyResult | rust-backend/src/orchestrator.rs:17-27 | the result completes exactly when the engine run on the date's prompt and topic succeeds, and carries its markdown or its error |
| RustOrchestrator.RunDailyResearch | rust-backend/src/orchestrator.rs:9-47 | the report always carries the result; one save is attempted with it; a save error is returned instead of the report |
| RustOrchestrator.SearchOutageTolerated | rust-backend/src/orchestrator.rs:17-27 | when all three searches fail the day runs the model on an empty context |
| RustOrchestrator.ModelFailureRecorded | rust-backend/src/orchestrator.rs:20-36 | a failing TL;DR call gives a failed result whose message is prefixed `TL;DR failed: ` |
| ReportUtils.IsUrlIff | frontend/src/lib/report-utils.ts:3-5 | `isUrl` holds exactly when the trimmed text starts with `http://` or `https://`, ignoring case |
| ReportUtils.SchemeIff | frontend/src/lib/report-utils.ts:4 | the scanned `^https?://` with the `i` flag is the case-insensitive prefix test |
| ReportUtils.HttpsIsNotHttp | frontend/src/lib/report-utils.ts:8 | `https://` at a position excludes `http://` there, so the two scheme cases never overlap |
| ReportUtils.SkipUrlChars | frontend/src/lib/report-utils.ts:8 | `[^\s)>\]"']+` consumes a maximal run of URL characters |
| ReportUtils.SchemeAt | frontend/src/lib/report-utils.ts:8 | the scheme length at a position is 8 for `https://`, 7 for `http://`, and 0 otherwise |
| ReportUtils.MatchAt | frontend/src/lib/report-utils.ts:8 | a match starting at a position is URL-shaped and inside the text |
| ReportUtils.Matches | frontend/src/lib/report-utils.ts:8-9 | every global match is URL-shaped |
| ReportUtils.ExtractUrls | frontend/src/lib/report-utils.ts:7-11 | the result has no duplicates and holds only matches |
| ReportUtils.ExtractUrlsComplete | frontend/src/lib/report-utils.ts:10 | every match is in the result |
| ReportUtils.ExtractUrlsInOrder | frontend/src/lib/report-utils.ts:10 | distinct matches keep their first-occurrence order |
| ReportUtils.UrlShapedIsUrl | frontend/src/lib/report-utils.ts:3-8 | every URL-shaped match satisfies `isUrl` |
| ReportUtils.ExtractedAreUrls | frontend/src/lib/report-utils.ts:3-11 | every extracted url satisfies `isUrl` |
| ReportUtils.DashMarker | frontend/src/lib/report-utils.ts:27-29 | a `^[-*]\s+` marker is a dash or star followed by whitespace |
| ReportUtils.SkipDigits | frontend/src/lib/report-utils.ts:30 | `\d+` consumes digits up to the first non-digit |
| ReportUtils.NumberMarker | frontend/src/lib/report-utils.ts:30-32 | a `^\d+\.\s+` marker ends in whitespace and spans at least three characters |
| ReportUtils.MarkerLeavesText | frontend/src/lib/report-utils.ts:22-32 | a trimmed line keeps text after its marker |
| ReportUtils.CleanLines | frontend/src/lib/report-utils.ts:22 | the lines are trimmed and the blank ones dropped |
| ReportUtils.ParseTldrBullets | frontend/src/lib/report-utils.ts:21-39 | the `bullets`/`current` loop computes the bullet function |
| ReportUtils.ScanInvariant | frontend/src/lib/report-utils.ts:26-37 | during the scan no bullet is empty, and the bullet count is the marker lines plus any leading text |
| ReportUtils.BulletsNonEmpty | frontend/src/lib/report-utils.ts:28-37 | the output never contains `""` |
| ReportUtils.BulletCount | frontend/src/lib/report-utils.ts:26-37 | as many bullets as marker lines, plus one when text precedes the first marker |
| ReportUtils.UnmarkedLinesJoin | frontend/src/lib/report-utils.ts:33-35 | lines without a marker join into one bullet with single spaces |
| ReportUtils.ExtendUnmarked | frontend/src/lib/report-utils.ts:34 | an unmarked line is appended with one space, or starts the bullet |
| ReportUtils.IsUrl | frontend/src/lib/report-utils.ts:3-5 | `isUrl`; IsUrlIff states exactly when it holds, and UrlShapedIsUrl and ExtractedAreUrls which texts satisfy it |
| ReportUtils.Step | frontend/src/lib/report-utils.ts:27-35 | one line of the bullet scan; ExtendUnmarked states the unmarked-line case |
| ReportUtils.Scan | frontend/src/lib/report-utils.ts:26-36 | the bullet scan over the lines; ScanInvariant, FlushedNonEmpty and UnmarkedLinesJoin state its properties |
| ReportUtils.TldrBullets | frontend/src/lib/report-utils.ts:21-39 | the TL;DR bullets; ParseTldrBullets computes it, and BulletsNonEmpty and BulletCount state its properties |
| CorsConfig.TrimStartChar | rust-backend/src/config.rs:14 | drops only leading quotes, until none is left |
| CorsConfig.TrimEndChar | rust-backend/src/config.rs:14 | drops only trailing quotes, until none is left |
| CorsConfig.ParseCorsOrigins | rust-backend/src/config.rs:5-17 | no origin is empty or holds a comma, and there are at most as many origins as commas plus one |
| CorsConfig.OriginsTrimmed | rust-backend/src/config.rs:14 | no origin has surrounding whitespace |
| CorsConfig.CleanPlain | rust-backend/src/config.rs:14 | a plain origin cleans to itself, with or without surrounding quotes |
| CorsConfig.EdgesTrimmed | rust-backend/src/config.rs:6-11 | text not starting with `[` and without surrounding whitespace is left as is |
| CorsConfig.BracketedUnwrap | rust-backend/src/config.rs:8-11 | both brackets are stripped when both are present |
| CorsConfig.ListRoundTrip | rust-backend/src/config.rs:5-17 | a comma-separated list of plain origins parses back to those origins |
| CorsConfig.JsonRoundTrip | rust-backend/src/config.rs:5-17 | a JSON array of quoted plain origins parses back to those origins |
| CorsConfig.EmptyParse | rust-backend/src/config.rs:5-17 | an empty setting gives no origins |
| CorsConfig.EmptyInner | rust-backend/src/config.rs:8-16 | an empty list, bracketed or not, gives no origins |
| CorsConfig.DefaultIsSingleOrigin | rust-backend/src/config.rs:56-59 | the default `http://localhost:3000` gives exactly itself |
| CorsConfig.CleanPiece | rust-backend/src/config.rs:14 | a cleaned piece has no surrounding whitespace |
| ReportRoutes.Summarize | src/ui/report_routes.py:37-56 | the reassignments compute the summary function |
| ReportRoutes.NoResultsPending | src/ui/report_routes.py:38-40 | with neither result the status is PENDING and both tldrs are `None` |
| ReportRoutes.GeminiProvisional | src/ui/report_routes.py:42-44 | a Gemini result gives its tldr, and its status unless LangChain completed |
| ReportRoutes.LangChainCompletedWins | src/ui/report_routes.py:45-48 | a completed LangChain result makes the summary COMPLETED |
| ReportRoutes.LangChainUnfinishedDefers | src/ui/report_routes.py:42-48 | an unfinished LangChain result leaves Gemini's status, or PENDING without one |
| ReportRoutes.FieldsCopied | src/ui/report_routes.py:45-56 | the id, run date and LangChain tldr are copied unchanged |
| ReportRoutes.CompletedIffAnEngineCompleted | src/ui/report_routes.py:42-48 | the summary is COMPLETED exactly when one of the engines completed |
| ReportRoutes.StatusFromTheReport | src/ui/report_routes.py:38-48 | the status shown is PENDING or the status of a result the report holds |
| ReportRoutes.SummaryStatus | src/ui/report_routes.py:38-48 | the summary's status; CompletedIffAnEngineCompleted and StatusFromTheReport state it |
| ReportRoutes.Summary | src/ui/report_routes.py:37-56 | the report summary; Summarize computes it, and NoResultsPending, GeminiProvisional, LangChainCompletedWins, LangChainUnfinishedDefers and FieldsCopied state its cases |

## Left out

- Regex engines are replaced by explicit scanners over the patterns used. Whitespace is the ASCII set: space, tab, newline, carriage return, form feed and vertical tab. Lower-casing is ASCII only.
- JavaScript's Unicode `\s` and `trim` are not modelled.
- Rust's `lines()` is modelled as a split on `\n`. A `\r` before the newline therefore stays on the line until `trim` removes it. A trailing empty line that `lines()` drops is kept, but it is blank and is never a field line.
- `int()`, `float()` and `str::parse` are given parser functions. The Python defaults `"5"`, `"0"` and `"0.0"` are taken as already-parsed 5, 0 and 0.0.
- ImpactsAgree: Python's `int()` and Rust's `parse::<i32>()` differ on overflowing numbers such as `99999999999`, on underscored numbers such as `1_0`, and on non-ASCII digits, all of which only Python reads. The lemma assumes only that Python reads every value Rust reads, with the same value; on the rest it states that the ratings differ, and WideRatingDiffers shows one such input. Neither parser's grammar is modelled.
- AuditsAgree: it rests on the same assumption, that Python's `int()` and `float()` read every value Rust's `parse` reads, with the same value.
- TrimmedIsGreedyPrefix: the docstring promises that the result fits the budget. The code counts each kept line on its own, so the newlines of the join and any tokenizer merging across lines go uncounted, and the result's own count can exceed the room, as TrimmedCanExceedRoom shows. The contract states what the code ensures, the per-line sum, and not the documented bound; the log message's "~%d" suggests the bound is meant as approximate, so this is not recorded as a defect.
- The token encoder (tiktoken) is a given function. The only fact assumed about it is that the empty text has no tokens.
- The budget `int(max_tokens * max_fraction)` is the constant 96000, or a given integer. Floating-point arithmetic is not modelled: confidence scores are reals and durations are integers.
- Clock readings are given integers. `datetime.now`, `time.monotonic`, `Utc::now` and `Instant` are not modelled.
- Concurrency is not modelled. This covers `asyncio.gather`, `tokio::join!` and the LangGraph runtime (`_build_graph`, `_add_graph_edges`, checkpointing, `uuid4`). The engine runs are taken one after the other. The fan-out is a concatenation of the three branch results in any order.
- Provider I/O is not modelled: the Tavily client, the OpenAI and Gemini clients, and `call_llm`. Their outputs are parameters.
- `build_research_prompt` and the research prompt template are a given function.
- Persistence is modelled only as the save effect, which may fail. Serialisation and the other repository operations are not modelled.
- HTTP routes other than `_summarize`, authentication, error-to-status mapping, app wiring, settings loading other than `parse_cors_origins`, and `_get_date_or_today` (a wall-clock read) are not modelled.
- The frontend UI is not modelled, nor `domainFrom`, which depends on the browser's `URL` parser.
- `src/types/events.py` is not part of this model. The record bounds used are those of `backend/types/events.py`:
  - `impact_rating` in [1, 10];
  - `confidence_score` in [0.0, 1.0].
- A pydantic `ValidationError` raised by a `CompletenessAudit` whose score is outside that range is modelled as the `ScoreRejected` outcome. The engine runner turns it into a failed result. Its message is a given text.
- Exceptions other than those the code handles explicitly are modelled only where the code catches them: the engine runner, the LangChain error wrapper and the dedup loop.
- The identical `_summarize` of backend/ui/report_routes.py is covered by the same model.
