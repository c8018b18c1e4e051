# SOKbot core in Dafny

SOKbot is a Telegram bot. It reads a chat message, decides whether the user wants a project sheet, help or a chat answer, and extracts a project name and a list of sections. It then builds a "project sheet" in a Google Sheets spreadsheet from two templates. The repository holds two copies of most files: an older one under `bot/` and one under `deploy/bot_server/bot/`. This project models the core of both copies.

- **Sheet builder** (`Sheets`, `Runs`, `SheetTitles`, `BuildPlan`, `Builder` and `ProjectSheets`).
  - The Google service is an in-memory class. It holds the main spreadsheet as a map from sheet id to title, logs every call, and takes an oracle that says which calls raise and with which status.
  - The builder does the following, in order:
    - chooses a free title, `base` or `base-N`;
    - copies and renames the top template;
    - walks `sections + ['Прочее']` with a running `current_row`;
    - for each section, copies the section template to a scratch sheet, copy-pastes its 10-column block, sends the placeholder fixes and deletes the scratch sheet;
    - writes the sum formula into E2.
  - The `bot/` copy retries a pass on HTTP 503, at most three times, with delays that double from 2 s. The `deploy/` copy fetches the titles once, returns the new sheet id and re-raises every failure.
  - Each builder method that calls the service is proved against a plan of service calls. The predicate `Runs.Ran` says the calls were made in the plan's order and stopped at the first failure, and that the reported status is that failure. `Success` is reported only after the whole plan.
  - The retry states this pass by pass. For each pass it names the slice of the call log that pass made, the sheets and the next sheet id it started from, and how it ended.
- **Intent classifier and chat history** (`Intent`, `Processor`).
  - The classifier is the ordered keyword search of `_determine_intent`, in both copies.
  - `CommandProcessor` is a class whose per-chat histories are trimmed to `max_history_length`.
  - The model also covers the extraction guard of `_extract_project_info` and both `process_command` functions. Each language-model answer is an input.
- **Response validator** (`GptParser`). This is `validate_response` with its field order and type rules, and the error wrapping of both `parse_command` functions. The deploy copy's guard against blank input is included.
- **Regex command parser** (`CommandParser`).
  - `clean_text` and the two fixed patterns are modelled. Each pattern is a function that follows the backtracking order of Python's `re.search`.
  - The parser comes with round-trip lemmas for create commands and the sample command of the file's self-test. The two copies of the file are identical.
- **Confirmation state machine** (`Confirmation`). This is `handle_message` of deploy/bot_server/bot/main.py over the module-level `user_context` map. The parser result is an input.
- **Python string primitives** (`Text`) and JSON values (`JsonValue`) support the modules above.

## Model

| member | source | states |
|---|---|---|
| Text.Lower | bot/command_parser.py:33 | `str.lower()` keeps the length and maps each character by the case table, so the result has no upper-case letter and keeps whitespace where it was |
| Text.LowerIdempotent | bot/command_parser.py:33 | lower-casing twice is the same as lower-casing once |
| Text.LowerNoUpper | bot/command_parser.py:33 | a text with no upper-case letter is unchanged by `lower()` |
| Text.Title | bot/sheets_api.py:620 | `str.title()` keeps the length and upper-cases the first character |
| Text.TitleWord | bot/sheets_api.py:620 | inside a word of cased letters, every letter after the first is lower case |
| Text.Strip | bot/command_parser.py:33 | `strip()` is an infix of the input that neither starts nor ends with whitespace, and everything it drops on either side is whitespace |
| Text.StripKeepsAbsent | bot/command_parser.py:49 | stripping never introduces a character, so a comma-free group stays comma-free |
| Text.StripStripped | bot/command_parser.py:66 | a text without surrounding whitespace is its own strip |
| Text.StripAllSpace | bot/command_parser.py:68 | an all-whitespace piece strips to the empty string, so the comprehension drops it |
| Text.Split | bot/command_parser.py:67 | `split(',')` yields at least one piece and no piece contains the separator |
| Text.SplitJoin | bot/command_parser.py:67 | splitting a separator-joined list of separator-free pieces gives the list back |
| Text.ReplaceAbsent | bot/sheets_api.py:620 | `replace` leaves a text without the pattern unchanged |
| Text.NatStr | bot/sheets_api.py:567 | `str(n)` is a non-empty run of decimal digits without a leading zero |
| Text.ParseNatStr | bot/sheets_api.py:567 | `int(str(n)) == n` for every natural `n` |
| Text.NatStrInjective | bot/sheets_api.py:407 | two different ids never render as the same decimal string |
| JsonValue.Get | bot/command_processor.py:221 | `dict.get(key)` is the stored value when the key is present and `None` otherwise |
| CommandParser.CollapseSpaces | bot/command_parser.py:31 | `re.sub(r'\s+', ' ', text)` is empty exactly for empty input and keeps a leading non-space character |
| CommandParser.CollapseAppend | bot/command_parser.py:31 | no whitespace run crosses the end of a text ending in a non-space character, so collapsing distributes over that concatenation |
| CommandParser.CollapseRun | bot/command_parser.py:31 | a non-empty whitespace run between two non-space characters becomes exactly one plain space, and the text on either side collapses on its own |
| CommandParser.CollapseSingleSpaced | bot/command_parser.py:31 | after collapsing, every whitespace character is a single plain space |
| CommandParser.CleanText | bot/command_parser.py:31-34 | `clean_text` output is single-spaced, has no surrounding whitespace and no upper-case letter |
| CommandParser.CleanTextShape | bot/command_parser.py:31-34 | collapse, lower and strip in the source's order give single-spaced text with no upper-case letter |
| CommandParser.CleanTextKeepsText | bot/command_parser.py:31-34 | `clean_text` keeps every non-whitespace character of the command, in order, lower-cased |
| CommandParser.CleanTextOfCleanCommand | bot/command_parser.py:31-34 | a command that is already single-spaced and trimmed is only lower-cased |
| CommandParser.CleanTextIdempotent | bot/command_parser.py:31-34 | `clean_text(clean_text(t)) == clean_text(t)` |
| CommandParser.SpaceRun | bot/command_parser.py:14 | a greedy `\s*` takes the maximal whitespace run: every character taken is whitespace and the next is not |
| CommandParser.MatchPieces | bot/command_parser.py:14 | the fixed trailer pieces, when they match, end inside the text at or after the start |
| CommandParser.LazyGroupEnd | bot/command_parser.py:14 | the lazy `[^,]+?` ends after its start, inside the text, and never spans a comma |
| CommandParser.LazyReachesEnd | bot/command_parser.py:14 | the lazy group stops exactly at the first end after which the trailer matches |
| CommandParser.TryTableSpaces | bot/command_parser.py:14 | giving back `\s+` one character at a time yields a non-empty, comma-free group |
| CommandParser.SearchTable | bot/command_parser.py:46 | the leftmost match of the project pattern has a non-empty, comma-free group |
| CommandParser.TableMatchAt | bot/command_parser.py:46 | at the first "таблицу", one space and a comma-free name followed by the trailer, the match's group is exactly that name |
| CommandParser.ExtractProjectName | bot/command_parser.py:46-50 | a name, when found, is comma-free and has no surrounding whitespace |
| CommandParser.NoTableNoName | bot/command_parser.py:46-50 | without "таблицу" followed by whitespace the result is `None` |
| CommandParser.ProjectNameAlone | bot/command_parser.py:14 | `…таблицу <name>` at the end of the command yields exactly `name` (the `\s*$` alternative) |
| CommandParser.ProjectNameWithSections | bot/command_parser.py:14 | `…таблицу <name>, добавь разделы …` yields exactly `name` (the first alternative) |
| CommandParser.LineRun | bot/command_parser.py:18 | what `.+` may take: a run with no newline |
| CommandParser.GreedyLineEnd | bot/command_parser.py:18 | the greedy `.+` ends after its start and inside the text |
| CommandParser.TrySectionsSpaces | bot/command_parser.py:18 | the sections group, when found, is non-empty and inside the text |
| CommandParser.SearchSections | bot/command_parser.py:62 | the leftmost match of the sections pattern has a non-empty group inside the text |
| CommandParser.StrippedNonEmpty | bot/command_parser.py:65-69 | every kept section is non-empty, stripped and comma-free |
| CommandParser.ExtractSections | bot/command_parser.py:62-71 | every returned section is non-empty, stripped and comma-free |
| CommandParser.NoSectionsWordNoSections | bot/command_parser.py:62-71 | without "разделы" followed by whitespace the result is `[]` |
| CommandParser.SectionsRoundTrip | bot/command_parser.py:62-71 | `…разделы s1, …, sn` yields exactly `[s1, …, sn]`, in order |
| CommandParser.ParseCommand | bot/command_parser.py:84-96 | the parsed name is comma-free and trimmed, and every section is clean |
| CommandParser.ParseCleanText | bot/command_parser.py:84-88 | on clean text, `parse_command` is the two extractors applied to the text itself |
| CommandParser.CreateCommandName | bot/command_parser.py:87 | a create command in clean form yields its own name |
| CommandParser.CreateCommandSections | bot/command_parser.py:88 | a create command in clean form yields its own sections |
| CommandParser.ParseCreateCommand | bot/command_parser.py:84-96 | a clean create command parses to exactly its name and its sections |
| CommandParser.SampleCommand | bot/command_parser.py:106-118 | `parse_command` of the sample command as typed (capital "Ф") cleans it to the lower-case command and gives the project "фестиваль гто" and the seven sections, "аренда" among them |
| CommandParser.RawSampleClean | bot/command_parser.py:106 | the typed sample command is already single-spaced and has no surrounding whitespace |
| CommandParser.RawSampleLower | bot/command_parser.py:33 | lower-casing the typed sample command changes only the capital "Ф" |
| GptParser.FieldsError | bot/gpt_command_parser.py:82-93 | no error exactly when every required field is present with its type; otherwise the first bad field in the fixed order is reported |
| GptParser.ResponseError | bot/gpt_command_parser.py:82-97 | no error exactly for well-formed responses: three fields of type str, list and bool, and every section a string |
| GptParser.ValidateResponse | deploy/bot_server/bot/gpt_command_parser.py:63-97 | accepts exactly the well-formed responses and returns them unchanged; the deploy copy prefixes every failure with "Ошибка при валидации ответа: " |
| GptParser.CopiesAgree | bot/gpt_command_parser.py:82-99 | both copies accept exactly the same responses |
| GptParser.ParseCommandBot | bot/gpt_command_parser.py:114-142 | succeeds exactly on a decoded, well-formed reply, returned unchanged; every failure is a ParsingError with the "Неожиданная ошибка" prefix |
| GptParser.ParseCommandDeploy | deploy/bot_server/bot/gpt_command_parser.py:112-148 | the same, and a message that is not a non-blank string is rejected with the empty-message error whatever the reply |
| GptParser.BlankMessagesRejected | deploy/bot_server/bot/gpt_command_parser.py:116-117 | a whitespace-only message is rejected before any reply is used |
| GptParser.EmptyResponse | tests/test_command_parser.py:125 | `{}` is rejected for the missing `project_name` |
| GptParser.NameOnly | tests/test_command_parser.py:126 | `{"project_name": "Test"}` is rejected for the missing `sections` |
| GptParser.SectionsNotAList | tests/test_command_parser.py:127 | a string `sections` is rejected for its type |
| GptParser.NameNotAString | tests/test_command_parser.py:128 | a numeric `project_name` is rejected for its type |
| GptParser.FlagAsString | tests/test_command_parser.py:129 | the string "true" as the flag is rejected for its type |
| Intent.FirstFound | bot/command_processor.py:101-104 | the index found is that of the first keyword contained in the text, and none is found exactly when no keyword occurs |
| Intent.DetermineIntentBot | bot/command_processor.py:75-112 | "create_table" exactly when a create keyword occurs in the lower-cased message; "help" exactly when no create keyword but a help keyword occurs; "chat" otherwise |
| Intent.DetermineIntentDeploy | deploy/bot_server/bot/command_processor.py:75-143 | "create_table" exactly when a create rule fires; "help" exactly when none fires, no question about a project or table is asked, and a help keyword occurs |
| Intent.CreateKeywordsExtended | deploy/bot_server/bot/command_processor.py:89-100 | every create keyword of the bot copy is one of the deploy copy |
| Intent.DeployExtendsBot | deploy/bot_server/bot/command_processor.py:109-112 | what the bot copy classifies as a create command, the deploy copy does too |
| Intent.BotChatNeverDeployHelp | deploy/bot_server/bot/command_processor.py:130-140 | a message the bot copy answers in chat never gets help from the deploy copy |
| Intent.CaseInsensitive | bot/command_processor.py:86 | a message and its lower-cased form get the same intent, in both copies |
| Intent.CreateMonotone | bot/command_processor.py:101-104 | text added around a create command keeps it a create command, in both copies |
| Processor.TrimHistory | bot/command_processor.py:143-145 | the kept history is the most recent part, in order; it is unchanged when short and exactly `max` entries long otherwise |
| Processor.UserTurnShape | bot/command_processor.py:135-146 | after the user's turn the history is non-empty, at most `max` long, ends with the user's message and is preceded by the newest old entries |
| Processor.UserTurnKeepsShortHistory | bot/command_processor.py:140-145 | a history shorter than `max` only gains the user's message |
| Processor.ChatTurnShape | bot/command_processor.py:135-172 | a successful turn ends with the user's message and then the reply, a failed one with the user's message; at most `max + 1` entries are kept |
| Processor.CommandProcessor.constructor | bot/command_processor.py:62-63 | no chat has a history and the bound is 5 |
| Processor.CommandProcessor.ChatWithAi | bot/command_processor.py:114-172 | only the caller's chat history changes, by one chat turn; the answer is the reply or the apology |
| Processor.ExtractProjectInfoDeploy | deploy/bot_server/bot/command_processor.py:205-284 | the result is `{}` or the parsed reply itself, and it passes the checks exactly when the reply was parsed and passes them |
| Processor.ExtractProjectInfoBot | bot/command_processor.py:174-231 | the result is `(None, None)` or the reply's name and sections, the latter only for a parsed dict |
| Processor.BotRequestsSheetOnlyForProject | bot/command_processor.py:255-273 | a sheet is requested exactly when the name and the sections are truthy, with those values; otherwise the rephrase message is sent |
| Processor.BotReportIgnoresBuildResult | bot/command_processor.py:273-285 | whether success is reported does not depend on what the builder returned |
| Processor.BotFailsAfterRequest | bot/command_processor.py:273-308 | the error reply of the create branch comes only after the sheet was requested, from sections that cannot be joined |
| Processor.DeployGuardMatchesValidator | deploy/bot_server/bot/command_processor.py:308-313 | the guard of `process_command` rejects exactly what `_extract_project_info` refused |
| Processor.DeployBuildsOnlyValidProjects | deploy/bot_server/bot/command_processor.py:305-337 | a build starts exactly for a validated reply whose sections can be joined; it gets that reply's name and sections, and those sections are a list of strings |
| Processor.ProcessCommandBot | bot/command_processor.py:233-308 | dispatches on the intent: the create branch leaves the histories alone, help answers the help text, and chat performs one chat turn on the caller's history |
| Processor.ProcessCommandDeploy | deploy/bot_server/bot/command_processor.py:286-360 | the same dispatch with the deploy classifier and the deploy create branch |
| Confirmation.ToCommand | deploy/bot_server/bot/main.py:93-98 | the command's flag, name and sections are the fields of the validated reply |
| Confirmation.Parse | deploy/bot_server/bot/main.py:91 | the handler sees exactly the success or the ParsingError of the deploy `parse_command` |
| Confirmation.Bot.constructor | deploy/bot_server/bot/main.py:27 | the confirmation map starts empty |
| Confirmation.Bot.HandleMessage | deploy/bot_server/bot/main.py:74-144 | the new map and the answer are one step of the state machine on the old map |
| Confirmation.OnlySenderChanges | deploy/bot_server/bot/main.py:96-134 | only the sender's entry is written or deleted |
| Confirmation.StepKeepsContextValid | deploy/bot_server/bot/main.py:94-100 | every stored project awaits confirmation and has a non-empty name and non-empty sections |
| Confirmation.ParsingErrorKeepsContext | deploy/bot_server/bot/main.py:141-144 | a ParsingError leaves the map unchanged and is reported |
| Confirmation.CreateCommandComesFirst | deploy/bot_server/bot/main.py:93-117 | a create command is handled whatever is pending: a complete one replaces the sender's entry, an incomplete one changes nothing |
| Confirmation.PendingAnswers | deploy/bot_server/bot/main.py:117-134 | with a confirmation pending, yes confirms and deletes, no deletes, and any other text keeps the entry and sends nothing |
| Confirmation.NothingPending | deploy/bot_server/bot/main.py:136-139 | without a pending entry, a non-create message is not understood and changes nothing |
| Confirmation.StoreThenConfirm | deploy/bot_server/bot/main.py:93-129 | storing a project and answering yes reports that project and removes the entry |
| Sheets.ApplyRequest | bot/sheets_api.py:538-553 | a request only renames the sheet it names or deletes sheets; every other sheet keeps its title |
| Sheets.ApplyAll | bot/sheets_api.py:550-553 | a batch never adds a sheet |
| Sheets.Service.FetchTitles | bot/sheets_api.py:431-433 | one logged fetch that returns the current titles and changes no sheet |
| Sheets.Service.Copy | bot/sheets_api.py:529-535 | a successful copy adds one sheet under the next id; a failed one changes no sheet |
| Sheets.Service.ReadTop | bot/sheets_api.py:556 | one logged read of the top template's column A |
| Sheets.Service.ReadScratchRows | bot/sheets_api.py:586 | one logged read of the scratch sheet's rows |
| Sheets.Service.FetchGrid | bot/sheets_api.py:590-596 | one logged fetch of the scratch sheet's grid |
| Sheets.Service.Update | bot/sheets_api.py:550-553 | a successful batch applies its requests in order; a failed one changes nothing |
| SheetTitles.CandidateInjective | bot/sheets_api.py:439 | different attempts produce different titles |
| SheetTitles.FreeIndex | bot/sheets_api.py:429-440 | the loop stops at an attempt whose title is free, with every earlier title taken |
| SheetTitles.FreeTitleProperties | bot/sheets_api.py:426-440 | the chosen title is never taken; it is `base` when free, else `base-N` for the smallest free N ≥ 1 |
| SheetTitles.UniqueTitleRefetching | bot/sheets_api.py:416-440 | one fetch per attempt up to the free title, stopping at a failed fetch; the answer is the free title |
| SheetTitles.UniqueTitleSingleFetch | deploy/bot_server/bot/sheets_api.py:441-465 | one fetch, then the free title |
| SheetTitles.VariantsAgree | deploy/bot_server/bot/sheets_api.py:453-465 | both variants choose the same title |
| BuildPlan.AllSections | bot/sheets_api.py:563 | the sections in order followed by "Прочее", so an empty list still gives one section |
| BuildPlan.StartRow | bot/sheets_api.py:556-557 | the column-A count plus 1, or 4 when the column is empty |
| BuildPlan.SectionRowNext | bot/sheets_api.py:668 | each section starts the section template's row count below the previous one |
| BuildPlan.SectionRowClosedForm | bot/sheets_api.py:565-668 | section `i` starts at `start + i * rows` |
| BuildPlan.RowFixesExact | bot/sheets_api.py:602-626 | one fix per placeholder cell of a row, aimed at that cell's column |
| BuildPlan.GridFixesExact | bot/sheets_api.py:600-626 | the fixes are exactly one per placeholder cell, at row `current_row-1+row_idx` and column `col_idx`, with the placeholder replaced by the title-cased section |
| BuildPlan.FixesAreTextUpdates | bot/sheets_api.py:608-625 | every fix is a text update of the new sheet |
| BuildPlan.FixesInsideBlock | bot/sheets_api.py:610-645 | every fix lands inside the 10-column block pasted for its section |
| BuildPlan.FormulaPartsAt | bot/sheets_api.py:565-567 | term `i` of the formula names the first row of section `i` |
| BuildPlan.FormulaReadsBack | bot/sheets_api.py:685 | the formula is "=" followed by the `E<row>` terms joined by "+", and each term parses back to its section's first row |
| BuildPlan.BlocksTile | bot/sheets_api.py:640-668 | consecutive section blocks touch without overlapping, and each formula term names the first row of its block |
| BuildPlan.CellRequestsKeepSheets | bot/sheets_api.py:629-665 | copy-paste and cell updates leave the sheet titles alone |
| Builder.CollectFixes | bot/sheets_api.py:598-626 | the nested scan of `rowData` builds exactly the fix list of the plan |
| Builder.FillSection | bot/sheets_api.py:588-668 | a non-empty section makes the grid read, then the copy, then the fix batch if any, stopping at the first failure; no sheet changes |
| Builder.OpenScratch | bot/sheets_api.py:570-586 | the section template is fetched, copied to a scratch sheet under the next id, and its rows are read |
| Builder.CopySection | bot/sheets_api.py:565-682 | one pass makes the section's calls in order and deletes the scratch sheet, empty section or not; on success the sheets are as before |
| Builder.CopyTop | bot/sheets_api.py:519-535 | the top template is fetched and copied under the next id; on failure the header's run ends there |
| Builder.OpenProjectSheet | bot/sheets_api.py:518-556 | the header's calls in order; on success the new sheet carries the chosen title and nothing else changes |
| Builder.SectionPass | bot/sheets_api.py:565-668 | one pass extends the run by one section, advances `current_row` by the template's rows and appends the term `E<current_row>` |
| Builder.BuildSections | bot/sheets_api.py:557-682 | the loop runs the passes in order and stops at the first failure; on success all sections ran and the formula terms are those of every section |
| Builder.BuildSheet | bot/sheets_api.py:518-711 | the whole build runs its plan; on success the new sheet is the only change, and existing sheets are always kept |
| ProjectSheets.SheetUrl | bot/sheets_api.py:714 | the link starts with the Google Sheets prefix |
| ProjectSheets.SheetUrlInjective | bot/sheets_api.py:714 | two different sheets of one spreadsheet never share a link |
| ProjectSheets.FreshTitleSheet | bot/sheets_api.py:516-553 | the new sheet's title is not taken, so sheet titles stay distinct |
| ProjectSheets.GetSheetInfo | bot/sheets_api.py:391-414 | one fetch; the answer is the sheet whose id reads as `sheet_id`, or `None` when there is none or the fetch failed |
| ProjectSheets.LinkFindsSheet | bot/sheets_api.py:406-408 | the `gid` of a link identifies exactly its sheet |
| ProjectSheets.AttemptBot | bot/sheets_api.py:478-714 | an incomplete configuration ends a pass without any call; otherwise the title search and the build run in order; a built sheet has the free title and its link is returned |
| ProjectSheets.Delays | bot/sheets_api.py:717-720 | the waits start at 2 s and double |
| ProjectSheets.TracedPass | bot/sheets_api.py:478-726 | one pass adds its record: a complete configuration runs the title search and the build for the titles and next sheet id the pass found, stopping at the first failure; a built pass adds exactly the sheet with the free title and answers its link; an incomplete configuration makes no call |
| ProjectSheets.LastPassBuilt | bot/sheets_api.py:714 | when the last pass built the sheet, the configuration was complete, the link names the id that pass started from, and that pass added exactly the sheet with the free title |
| ProjectSheets.FaultlessPassesBuild | bot/sheets_api.py:478-714 | when the service answers every call with success, every pass with a complete configuration builds the sheet |
| ProjectSheets.RaisedPassFailedCall | bot/sheets_api.py:716-726 | a pass that raised made at least one call, and the service answered its last call with the status the pass raised |
| ProjectSheets.CreateProjectSheetWithRetry | bot/sheets_api.py:474-730 | at most 3 passes; pass `k` ran the title search and build for the sheets and next id it started from, on its own slice of the log, and the slices chain from the old log to the new one; only a 503 before the last pass is retried, after the next delay; the link is returned exactly when the last pass built the sheet, and it points at the sheet that pass added under the free title; a missing key returns `None` at once without any call |
| ProjectSheets.RequestSections | bot/sheets_api.py:458 | absent sections stand for `[]` |
| ProjectSheets.CreateProjectSheetBot | bot/sheets_api.py:442-461 | the same pass-by-pass retry contract, for the unpacked project data |
| ProjectSheets.CreateProjectSheetDeploy | deploy/bot_server/bot/sheets_api.py:487-713 | a missing key raises before any call; otherwise one fetch and the build run in order; success returns the new id, under the free title; any failure is re-raised without retry |

## Left out

- Authentication, credential files and the JSON reading of credentials/client_secrets.json are not modelled. The configuration is an input of type `Option<map<string, string>>`, where `None` stands for a missing file, invalid JSON or a missing `installed` section.
- The OpenAI requests, their prompts and the Telegram sending are not modelled. Each model answer is an input (`Reply`, `Completion`, `Option<string>`).
- `time.sleep` is not modelled. The waits are returned as the sequence `delays`.
- `asyncio.create_task` in the deploy `process_command` is not modelled. The project data handed to the background build is returned instead, and `_create_table_async` is not part of this model.
- Cell contents of the main spreadsheet are not modelled. Copy-paste, cell updates and the formula are recorded as requests in the call log, and only sheet ids and titles change.
- The template spreadsheets are fixed data: the top template's column-A count and the section template's rows and grid.
- A copied sheet's title is one constant, and the scratch sheet is addressed by id rather than by its title.
- Service failures come from an oracle, a finite map from the position of a call in the log to its status. It covers every deterministic failure pattern but not failures that depend on anything else.
- Sheets left behind by a failed pass are not cleaned up, as in the source. The model states only that existing sheets are kept.
- ProjectSheets.CreateProjectSheetDeploy: a missing configuration key (`KeyError`) and an unreadable file both become `Err(OtherError)`.
- ProjectSheets.GetSheetInfo: scans the sheets in an unspecified order rather than the service's order; ids are distinct, so at most one sheet matches either way.
- deploy/bot_server/bot/sheets_api.py:467 `create_project_sheet_with_retry` is not a separate member. It only packs its arguments and calls `create_project_sheet` once, which is ProjectSheets.CreateProjectSheetDeploy.
- The `List` annotation at deploy/bot_server/bot/sheets_api.py:467 is never imported, so the module would fail at import. The model follows the method logic as written.
- The final `return None` after the retry loop (bot/sheets_api.py:730) is unreachable. Every pass returns or continues, and the last pass never continues. The model has no such path.
- `str.lower()` and `str.title()` are modelled for ASCII letters and the basic Cyrillic block only; every other character counts as uncased.
- `project_name` and `sections` of the sheet builder are strings and a list of strings. Non-string values in the project data are not modelled.
- Helpers of the service and the auth code are not modelled: `create_spreadsheet`, `write_values`, `create_new_sheet`, `get_sheets` and `delete_sheet`.
- Logging is not modelled.
- After the last pass, bot/sheets_api.py:716-726 returns `None`; no exception reaches the caller of `create_project_sheet_with_retry`.
- ProjectSheets.AttemptBot and ProjectSheets.GetSheetInfo (and SheetTitles.UniqueTitleRefetching, which they use): the titles and sheets are read from `self.spreadsheet_id`, which bot/sheets_api.py:64-69 sets once, at authentication, from `main_sheet` of the configuration then on disk (and leaves `None` when that key was missing). A pass re-reads the configuration and writes to its `main_sheet` (bot/sheets_api.py:486-509). The model has one spreadsheet, so it assumes the two ids name the same spreadsheet; a configuration changed after authentication is not modelled.
