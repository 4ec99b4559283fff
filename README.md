# MyCodeHelper core, modelled in Dafny

MyCodeHelper is a command-line chat client for coding questions. It talks to one of two backends. The first is a Local AI server with an OpenAI-style chat-completions endpoint, which streams its answers as `data:` lines. The second is the Hugging Face inference API, which receives one rendered prompt string. This project models the deterministic core of `bundle/mycodehelper-complete.js` and proves properties about it:

- the command-line parser `CLIParser.parseArgs`;
- the request builders `LocalAIClient.buildMessages` and `HuggingFaceClient.buildPrompt`;
- the stream decoder `handleStreamingResponse`;
- how both clients' `generateContent` turn answers and failures into text;
- the bounded directory walk `FileUtils.analyzeCodebase` and its summary `getProjectSummary`;
- provider choice in `initialize` and mode choice in `run`;
- the conversation kept by the interactive loop (`interactiveMode`, `processFileInteractive`).

## Modelling choices

- **Modules.** There is one module per file:
  - `Wrappers`, `Strings`, `Paths` and `Records` hold the JavaScript values and library functions the core uses.
  - `CliArgs`, `Requests`, `Stream`, `Scanner`, `Summary`, `Clients`, `App` and `Interactive` hold the core.
- **JavaScript values.**
  - `null` and `undefined` are both `Option.None`.
  - A string is truthy when it is present and non-empty (`Truthy`).
  - Strings are `seq<char>`.
  - `toLowerCase` lowers ASCII letters only.
  - `trim` removes the ECMAScript white-space and line-terminator set.
  - `path.join` and `basename` are simplified for `/`-separated paths (see Left out).
- **Loops become methods proved against spec functions.**
  - The index loop of `parseArgs` is `CliArgs.ParseArgs`, proved equal to `CliArgs.Parse`.
  - The reader loop of `handleStreamingResponse` is `Stream.HandleStreamingResponse`, proved equal to `Stream.StreamOutcome`, with the text written to standard output equal to the decoded text.
  - The recursive `scanDir` closure pushes into a shared array. It is the class `Scanner.CodebaseScan`, whose `files` field is that array. It is proved equal to the spec walk `Scanner.WalkDir`, and the walk equals the reference `Take(CandDir(root, path, 0), maxFiles)`: the depth-first listing, cut at the cap.
  - The `forEach` of `getProjectSummary` is `Summary.Summarize`.
  - The `conversation` field that the loop pushes to and resets is the class `Interactive.ChatSession`, with methods for a chat turn, a file turn, one pass of the loop, and the whole loop.
- **The file system is a value.** It is an in-memory tree `Scanner.Node`: files with size, content and a readable flag, directories with ordered entries and a readable flag, and other entries. A directory that cannot be listed is treated as empty, as the `catch` at line 150 does.
- **Transport and JSON are parameters.**
  - `fetch` is a function from the request to a `Clients.Fetched`: either a failure message, or a status, a status text and a body.
  - A body (`Stream.Body`) is the sequence of decoded chunks, plus an optional error raised by the read after them.
  - `JSON.parse` of a stream payload is an abstract `payload -> Option<delta>`.
  - The non-streamed `response.json()` is an abstract reader whose result is unreadable (with the thrown message) or the text found at the looked-up property path.
  - `JSON.stringify` of the project context and of the summary is an abstract rendering.
- **How an `async` call settles** is `Records.Outcome`: `Returned(text)` or `Thrown(message)`.
- **The interactive loop's collaborators are parameters.** The client's `generateContent` and `FileUtils.readFile` are fields of `Interactive.Setting`, together with the JSON rendering of the project context and `CONFIG.streaming`. The input lines are a finite sequence.

## Where the code and the design description disagree (the model follows the code)

- **Stream read failures escape.** The design says every transport failure becomes a returned error text. The Local AI client returns the `handleStreamingResponse` promise without awaiting it inside its `try` (line 217), so a read that fails during streaming rejects past `generateContent`. In the interactive loop this lands in the `catch` at line 628. Only after the user turn has been pushed, so the conversation is left with an unanswered user turn (`Interactive.ThrownLeavesUserTurn`, `Interactive.ThrownBreaksAlternating`). `Clients.LocalThrowsOnlyMidStream` states exactly when this happens.
- **A missing credential is never detected with defaults.** The design says a missing credential is detected at startup. The Local AI key defaults to `local-key` (line 23), so with the configuration from the environment alone some backend is always chosen (`App.EnvironmentAlwaysConfigured`). Only a configuration file that replaces `LOCAL_AI` can make `initialize` decline for want of a key.
- **The current turn is sent twice.** The design describes the history as a window over earlier turns. The chat history window is taken after the current user turn has been pushed (lines 605, 608), and `buildMessages` appends the message again (line 253). So the Local AI backend receives the user turn twice (`Interactive.UserTurnSentTwice`), and the Hugging Face prompt renders it twice.
- **A stream frame split across two reads is lost.** It is dropped as a malformed line (`Stream.StraddledFrameLost`). The design mentions only malformed JSON.

## Model

Source paths are relative to the repository root.

| member | source | states |
|---|---|---|
| Strings.Split | bundle/mycodehelper-complete.js:268 | `split` on one character always yields at least one piece |
| Strings.SplitLength | bundle/mycodehelper-complete.js:172 | `split('\n')` yields one more piece than there are newlines, so a file's line count is its newline count plus one |
| Strings.SplitPiecesFree | bundle/mycodehelper-complete.js:268 | no piece of a split contains the separator |
| Strings.SplitJoin | bundle/mycodehelper-complete.js:268 | joining the pieces with the separator gives the original string back |
| Strings.SplitWithoutSeparator | bundle/mycodehelper-complete.js:268 | a chunk without a newline is a single line |
| Strings.ToLower | bundle/mycodehelper-complete.js:568 | lower-casing keeps the length and lowers each character on its own |
| Strings.TrimStart | bundle/mycodehelper-complete.js:595 | the result is a suffix with no leading white space, and every removed character is white space |
| Strings.TrimEnd | bundle/mycodehelper-complete.js:595 | the result is a prefix with no trailing white space, and every removed character is white space |
| Strings.TrimEmptyIff | bundle/mycodehelper-complete.js:600 | `trim()` is empty exactly when every character is white space |
| Strings.NatToString | bundle/mycodehelper-complete.js:213 | a status renders as a non-empty string of decimal digits |
| Strings.NatToStringValue | bundle/mycodehelper-complete.js:213 | reading the rendered digits back gives the number (round trip) |
| Paths.LastIndex | bundle/mycodehelper-complete.js:142 | finds the last occurrence of a character, and is absent exactly when the character is not in the string |
| Paths.PathJoin | bundle/mycodehelper-complete.js:139 | the joined path ends with the entry name |
| Paths.BasenameSuffix | bundle/mycodehelper-complete.js:175 | the base name is a suffix of the path and holds no `/` |
| Paths.BaseExt | bundle/mycodehelper-complete.js:142 | `extname` of a base name is empty or a proper suffix starting with its only `.`, and empty when the name has no `.` |
| Paths.BasenameOfName | bundle/mycodehelper-complete.js:175 | a name without `/` is its own base name |
| Paths.BasenameJoin | bundle/mycodehelper-complete.js:139 | the base name of `join(dir, name)` is `name` |
| Paths.ExtnameJoin | bundle/mycodehelper-complete.js:139-143 | the extension of the joined path is the extension of the entry name |
| Paths.ExtnameExamples | bundle/mycodehelper-complete.js:142 | `a.js` has extension `.js`; a leading-dot name such as `.rc` has none |
| CliArgs.ApplySwitch | bundle/mycodehelper-complete.js:65-82 | a switch clears `stream` exactly when it is `--no-stream`, and never touches the prompt |
| CliArgs.ParseArgs | bundle/mycodehelper-complete.js:46-92 | the index loop, including `args[++i]` past the end and the `break` after the prompt, computes the recursive parse `Parse(args)` |
| CliArgs.NoArguments | bundle/mycodehelper-complete.js:48-60 | with no arguments every field has its default |
| CliArgs.StreamStaysOff | bundle/mycodehelper-complete.js:73-74 | once `stream` is false no later argument sets it back |
| CliArgs.LeadingNoStream | bundle/mycodehelper-complete.js:73-74 | a leading `--no-stream` turns streaming off whatever follows |
| CliArgs.StreamOffNeedsFlag | bundle/mycodehelper-complete.js:62-89 | if streaming ends up off, `--no-stream` occurs among the remaining arguments |
| CliArgs.NoStreamOnlyWay | bundle/mycodehelper-complete.js:62-89 | `--no-stream` is the only way `stream` becomes false |
| CliArgs.ValueOptionTakesNext | bundle/mycodehelper-complete.js:67-84 | a value option takes the next argument verbatim, even one starting with `-`, and parsing resumes after it |
| CliArgs.ValueOptionAtEnd | bundle/mycodehelper-complete.js:67-84 | a value option in last position sets its field to `undefined` |
| CliArgs.UnknownDashIgnored | bundle/mycodehelper-complete.js:62-89 | a run made only of unknown arguments starting with `-` leaves the record unchanged (built from `CliArgs.UnknownDashSkipped`) |
| CliArgs.UnknownDashSkipped | bundle/mycodehelper-complete.js:62-89 | a single unknown argument starting with `-` is skipped wherever it stands: the parse of the rest is unchanged |
| CliArgs.PositionalTakesRest | bundle/mycodehelper-complete.js:85-87 | the first positional argument takes itself and all later arguments joined by spaces, and parsing stops |
| CliArgs.ParseStep | bundle/mycodehelper-complete.js:62-84 | a non-positional argument consumes one or two arguments and leaves the prompt alone |
| CliArgs.PromptIsSuffix | bundle/mycodehelper-complete.js:85-87 | a prompt set by the parse is the join of a suffix of the arguments whose first element is positional |
| Requests.FileBlocks | bundle/mycodehelper-complete.js:238-240 | one fenced block per file, in order, tagged with the extension |
| Requests.BuildMessages | bundle/mycodehelper-complete.js:227-256 | in order: the truthy system prompt, then the single file-context message exactly when there are files, then the history unchanged, then the user message; length is history + 1 + 0..2 |
| Requests.FileContextMessageIffFiles | bundle/mycodehelper-complete.js:229-246 | the messages before the history are exactly the truthy system prompt followed, when files are attached, by the one file-context message |
| Requests.FileContextSnoc | bundle/mycodehelper-complete.js:238-240 | one more file adds its block after the others, separated by a blank line |
| Requests.FileContextSingle | bundle/mycodehelper-complete.js:238-245 | a single file gives the header followed by its block |
| Requests.JoinSnoc | bundle/mycodehelper-complete.js:240 | joining one more part appends the separator and the part |
| Requests.FileBlocksSnoc | bundle/mycodehelper-complete.js:238-240 | the blocks of one more file end with that file's block |
| Requests.PromptEndsWithHumanTurn | bundle/mycodehelper-complete.js:366 | the prompt always ends with `Human: <message>\nAssistant:` |
| Requests.PromptStartsWithSystem | bundle/mycodehelper-complete.js:348-350 | a truthy system prompt opens the prompt as `System: <prompt>\n\n` |
| Requests.PromptFilesSection | bundle/mycodehelper-complete.js:352-358 | files bring the `Files for context:` section listing every file in order; without files there is no such section |
| Requests.RenderHistoryAppend | bundle/mycodehelper-complete.js:360-364 | history turns are rendered in order: rendering a concatenation concatenates the renderings |
| Requests.TurnLineSpeaker | bundle/mycodehelper-complete.js:362 | a `user` turn is rendered as `Human: `, any other role as `Assistant: ` |
| Requests.RenderHistoryLines | bundle/mycodehelper-complete.js:360-364 | the history section is one line per turn, each the rendering of that turn |
| Stream.BlankIsTrimEmpty | bundle/mycodehelper-complete.js:268 | the character-level blank test is the same as `line.trim() === ''` |
| Stream.NonBlank | bundle/mycodehelper-complete.js:268 | filtering out blank lines never lengthens the list |
| Stream.Effect | bundle/mycodehelper-complete.js:271-281 | a line stops the stream exactly when it is `data: [DONE]`; it emits only a non-empty decoded delta of a `data: ` payload; a line without the prefix is skipped |
| Stream.PrependPrepend | bundle/mycodehelper-complete.js:280 | appending two texts in turn is appending their concatenation |
| Stream.ThenPrepend | bundle/mycodehelper-complete.js:280 | already accumulated text passes through the rest of the stream unchanged |
| Stream.LineStep | bundle/mycodehelper-complete.js:270-285 | proof step for `Stream.ReadLines`: the fold over a chunk's lines advanced by one line |
| Stream.ConcatSnoc | bundle/mycodehelper-complete.js:279 | writing one more piece extends the written text by that piece |
| Stream.ReadLines | bundle/mycodehelper-complete.js:270-285 | the inner loop over one chunk's lines appends, and writes, exactly what the spec fold adds, and reports whether `[DONE]` was met |
| Stream.HandleStreamingResponse | bundle/mycodehelper-complete.js:258-293 | the reader loop settles as `StreamOutcome`; what it writes to standard output, in non-empty pieces, is the decoded text, and equals the returned text |
| Stream.PrependEmpty | bundle/mycodehelper-complete.js:259 | starting from an empty response adds nothing |
| Stream.ScanLinesAppend | bundle/mycodehelper-complete.js:270-285 | decoding two line lists in a row is decoding their concatenation, and a stop in the first ends it |
| Stream.AllLinesAppend | bundle/mycodehelper-complete.js:267-268 | the lines of concatenated chunk lists are the concatenated lines |
| Stream.ScanChunksFlat | bundle/mycodehelper-complete.js:263-287 | decoding chunk by chunk is decoding the lines of all chunks in order |
| Stream.Payloads | bundle/mycodehelper-complete.js:271-272 | the `data: ` payloads are at most as many as the lines |
| Stream.BeforeDone | bundle/mycodehelper-complete.js:273 | the payloads before the first `[DONE]`: a prefix with no `[DONE]`, followed by `[DONE]` when it is shorter |
| Stream.Contents | bundle/mycodehelper-complete.js:275-284 | the contents kept from the payloads are all non-empty |
| Stream.ScanLinesReference | bundle/mycodehelper-complete.js:270-285 | the decoded text is the concatenation of the non-empty deltas of the payloads before the first `[DONE]`, and the decoder stops exactly when some payload is `[DONE]` |
| Stream.StreamReference | bundle/mycodehelper-complete.js:258-293 | the stream returns the concatenated deltas before `[DONE]` unless a read fails before any `[DONE]`, when the failure is rethrown |
| Stream.NothingAfterDone | bundle/mycodehelper-complete.js:273 | nothing read after `[DONE]` counts, neither later chunks nor a later failed read |
| Stream.BlankIsNotData | bundle/mycodehelper-complete.js:268-271 | a blank line never starts with `data: ` |
| Stream.BlankLinesIrrelevant | bundle/mycodehelper-complete.js:268 | dropping blank lines does not change the decoded result |
| Stream.SingleLineChunk | bundle/mycodehelper-complete.js:267-268 | a chunk without newline that is not blank is one line |
| Stream.WholeFrame | bundle/mycodehelper-complete.js:271-281 | a frame read whole is decoded |
| Stream.CutFrame | bundle/mycodehelper-complete.js:267-271 | a frame cut across two reads yields nothing |
| Stream.StraddledFrameLost | bundle/mycodehelper-complete.js:267-271 | the same frame returns its delta when read whole and is lost when split across two reads |
| Scanner.Take | bundle/mycodehelper-complete.js:131 | the first `n` elements, none when `n <= 0`, all when `n` is large |
| Scanner.TakeAppend | bundle/mycodehelper-complete.js:137 | cutting a concatenation at the cap cuts the first part, then the second at what is left |
| Scanner.WalkDirTake | bundle/mycodehelper-complete.js:130-152 | the capped walk of a directory appends to the files found before the reference listing cut at the remaining room |
| Scanner.WalkEntriesTake | bundle/mycodehelper-complete.js:136-149 | the capped loop over entries appends the reference listing of the entries cut at the remaining room |
| Scanner.WalkEntryTake | bundle/mycodehelper-complete.js:139-148 | one entry appends its reference files cut at the remaining room |
| Scanner.AnalyzeTake | bundle/mycodehelper-complete.js:125-157 | `analyzeCodebase` returns the first `maxFiles` files of the depth-first listing order, at most `maxFiles` and none when `maxFiles <= 0` |
| Scanner.CandDirKept | bundle/mycodehelper-complete.js:141-147 | every file listed under a directory has an allowed extension and a size below 100000 |
| Scanner.CandEntriesKept | bundle/mycodehelper-complete.js:136-148 | every file listed for a run of entries is kept by the extension and size tests |
| Scanner.CandEntryKept | bundle/mycodehelper-complete.js:141-147 | every file listed for one entry is kept by the extension and size tests |
| Scanner.JoinedExtensionKept | bundle/mycodehelper-complete.js:139-145 | an entry name with an allowed extension keeps it once joined to its directory |
| Scanner.FileEntryKept | bundle/mycodehelper-complete.js:143-147 | a file entry yields only records with an allowed extension and size |
| Scanner.AnalyzeKept | bundle/mycodehelper-complete.js:125-157 | every returned record has an extension from the allow-list at line 128 and a size below 100000 |
| Scanner.CandEntriesAppend | bundle/mycodehelper-complete.js:136 | a directory's files are those of its first entries, then those of the rest, in listing order |
| Scanner.StripIgnored | bundle/mycodehelper-complete.js:127 | removing the contents of ignored directories keeps every name and the kind of every node |
| Scanner.StripEntries | bundle/mycodehelper-complete.js:127 | stripping keeps the number of entries |
| Scanner.StripDir | bundle/mycodehelper-complete.js:141 | the listing of a tree is the same with the contents of ignored directories removed |
| Scanner.StripEntriesSame | bundle/mycodehelper-complete.js:141 | the listing of entries is the same with the contents of ignored directories removed |
| Scanner.IgnoredDirsUnread | bundle/mycodehelper-complete.js:125-157 | nothing under a directory named in the ignore set at line 127, at any depth, affects the result |
| Scanner.CutDeep | bundle/mycodehelper-complete.js:131 | removing deep listings keeps every name and the kind of every node |
| Scanner.CutEntries | bundle/mycodehelper-complete.js:131 | cutting keeps the number of entries |
| Scanner.CutDir | bundle/mycodehelper-complete.js:131 | the listing of a tree is the same with every directory deeper than five levels emptied |
| Scanner.CutEntriesSame | bundle/mycodehelper-complete.js:131 | the listing of entries is the same with every directory deeper than five levels emptied |
| Scanner.DeepDirsUnread | bundle/mycodehelper-complete.js:125-157 | directories more than five levels below the root are never listed: emptying them changes nothing |
| Scanner.CodebaseScan.ScanDir | bundle/mycodehelper-complete.js:130-152 | the recursive `scanDir` leaves in the shared `files` array exactly the spec walk from what it held before |
| Scanner.CodebaseScan.ScanEntry | bundle/mycodehelper-complete.js:137-148 | one loop iteration leaves the spec effect of that entry in `files` |
| Scanner.AnalyzeCodebase | bundle/mycodehelper-complete.js:125-157 | the result is the depth-first listing cut at `maxFiles` |
| Summary.Bump | bundle/mycodehelper-complete.js:171 | `languages[ext] = (languages[ext] \|\| 0) + 1` keeps existing keys in place, adds a new key last, and leaves `ext` present |
| Summary.HasKeyCons | bundle/mycodehelper-complete.js:171 | a key is present when it heads the list or is present in the rest |
| Summary.BumpLookup | bundle/mycodehelper-complete.js:171 | the bumped count goes up by one and every other count is unchanged |
| Summary.BumpTotal | bundle/mycodehelper-complete.js:171 | each bump adds one to the total of the counts |
| Summary.BumpKeys | bundle/mycodehelper-complete.js:171 | the keys after a bump are the old keys and the bumped one |
| Summary.BumpDistinct | bundle/mycodehelper-complete.js:171 | a bump never lists a key twice |
| Summary.PathsWhereSnoc | bundle/mycodehelper-complete.js:174-178 | one more file adds its path at the end exactly when it qualifies |
| Summary.PathsWhereMembers | bundle/mycodehelper-complete.js:174-178 | a path is collected exactly when some file has it and it qualifies |
| Summary.MainPathsMembers | bundle/mycodehelper-complete.js:174-178 | a path is a main file exactly when some file has it and its lower-cased base name contains one of the six markers |
| Summary.SummaryCounts | bundle/mycodehelper-complete.js:159-171 | `totalFiles` is the number of files, the counts sum to it, no extension is listed twice, and each count is the number of files with that extension |
| Summary.SummaryLines | bundle/mycodehelper-complete.js:172 | `totalLines` is the number of newlines in all contents plus the number of files |
| Summary.SummaryMainFiles | bundle/mycodehelper-complete.js:174-178 | `mainFiles` lists in scan order exactly the paths whose lower-cased base name contains a marker |
| Summary.HasExtensionSnoc | bundle/mycodehelper-complete.js:170 | one more file adds its extension to those present |
| Summary.SummaryKeys | bundle/mycodehelper-complete.js:170-171 | the extensions listed are exactly those of the files |
| Summary.Summarize | bundle/mycodehelper-complete.js:169-179 | the `forEach` loop computes the summary of the files |
| Summary.GetProjectSummary | bundle/mycodehelper-complete.js:159-182 | the summary of the first 50 files of the walk |
| Clients.GenerateLocal | bundle/mycodehelper-complete.js:191-225 | the call settles as the spec `LocalGenerate`; what it writes is the streamed text, the same as the returned text |
| Clients.ErrorTextShape | bundle/mycodehelper-complete.js:222-223 | an error text starts with `Error: ` followed by the error's message |
| Clients.StatusLineReadsBack | bundle/mycodehelper-complete.js:213 | the status line reads back as the heading, the decimal digits of the status (which denote it), a space and the detail |
| Clients.LocalFailuresAreText | bundle/mycodehelper-complete.js:212-224 | a failed `fetch` or a non-2xx status is returned, not thrown, as the error text of the message or of `Local AI API error: <status> <statusText>` |
| Clients.LocalThrowsOnlyMidStream | bundle/mycodehelper-complete.js:200-217 | the Local AI call throws exactly when it streams a 2xx body whose read fails before any `[DONE]`, and then with the read's error |
| Clients.LocalPlainNeverEmpty | bundle/mycodehelper-complete.js:219-220 | without streaming the returned text is never empty, missing content giving `No response from Local AI` |
| Clients.LocalStreamText | bundle/mycodehelper-complete.js:216-217 | a streamed 2xx answer that settles returns the concatenated non-empty deltas before `[DONE]`, which is also what was written |
| Clients.NoStreamOptionIgnoresDeltas | bundle/mycodehelper-complete.js:200 | `stream: false` in the options makes the result independent of the delta decoder and writes nothing |
| Clients.HfNeverThrows | bundle/mycodehelper-complete.js:301-343 | the Hugging Face call always returns, and never an empty text |
| Clients.HfStatusReported | bundle/mycodehelper-complete.js:326-329 | a non-2xx status gives the error text of `Hugging Face API error: <status> <body text>`, or the read's error when the body cannot be read |
| Clients.HfShapesAgree | bundle/mycodehelper-complete.js:332 | an array's first `generated_text` and an object's `generated_text` are treated alike |
| App.EnvLocalKey | bundle/mycodehelper-complete.js:23 | the Local AI key from the environment is always truthy, falling back to `local-key` |
| App.StreamingEnvOffIgnoresDeltas | bundle/mycodehelper-complete.js:200-217 | with `MYCODEHELPER_STREAMING=false` (line 34) the Local AI answer does not depend on the stream decoder and nothing is written |
| App.StreamingEnvOnFollowsOption | bundle/mycodehelper-complete.js:200 | with the variable unset or not `false`, a request streams exactly when its options do not say `stream: false` |
| App.ChooseProvider | bundle/mycodehelper-complete.js:416-426 | Hugging Face exactly when its key is truthy; Local AI exactly when only the Local AI key is; none exactly when both are falsy |
| App.HuggingFaceWins | bundle/mycodehelper-complete.js:416-418 | a truthy Hugging Face key selects Hugging Face whatever the Local AI key is |
| App.EnvironmentAlwaysConfigured | bundle/mycodehelper-complete.js:20-30 | with keys from the environment only, some backend is always configured, Local AI when the Hugging Face key is falsy |
| App.Initialize | bundle/mycodehelper-complete.js:398-434 | a ready result carries the provider `ChooseProvider` picks |
| App.InitializeDeclines | bundle/mycodehelper-complete.js:398-434 | `initialize` returns false exactly for `--help`, `--version` or no truthy key; otherwise it loads the project context exactly for `--codebase` or `--analyze` |
| App.RunMode | bundle/mycodehelper-complete.js:436-450 | a truthy file selects file mode, else a truthy prompt selects prompt mode, else `--analyze` selects analysis, else interactive mode |
| App.NoArgumentsIsInteractive | bundle/mycodehelper-complete.js:436-450 | a bare command line starts the interactive loop |
| App.FileBeatsPrompt | bundle/mycodehelper-complete.js:441-444 | with both a file and a prompt, file mode is chosen |
| App.SystemPromptWith | bundle/mycodehelper-complete.js:613-615 | the system prompt starts with `getSystemPrompt()` and, with a project context, ends with its rendering |
| App.FileQuestion | bundle/mycodehelper-complete.js:464 | the command-line prompt when truthy, otherwise a question naming the file's extension |
| App.FileRequestMessages | bundle/mycodehelper-complete.js:464-472 | `processFile` sends exactly the analyst system prompt, the one file under the file-context header, and the question |
| App.PromptRequestMessages | bundle/mycodehelper-complete.js:489-498 | `processPrompt` sends exactly the (context-extended) system prompt and the prompt as the user message |
| App.PromptRequestPrompt | bundle/mycodehelper-complete.js:489-498 | to Hugging Face, `processPrompt` sends the system section followed directly by the human turn |
| App.AnalyzeRequest | bundle/mycodehelper-complete.js:524-530 | `analyzeProject` attaches the first ten files, under an architect prompt ending with the summary rendering |
| App.TakeTake | bundle/mycodehelper-complete.js:527 | the first ten of the first hundred files are the first ten files |
| App.AnalyzeProjectRequest | bundle/mycodehelper-complete.js:513-530 | the analysis request attaches the first ten files of the depth-first listing and renders the 50-file summary |
| Interactive.KeywordOf | bundle/mycodehelper-complete.js:568-592 | a lower-cased line names a keyword exactly when it is one of `exit`, `quit`, `help`, `clear`, `status`, `analyze` |
| Interactive.KeywordWords | bundle/mycodehelper-complete.js:568-592 | `exit` and `quit` name Exit, and `help`, `clear`, `status`, `analyze` each name their own command |
| Interactive.Classify | bundle/mycodehelper-complete.js:564-602 | a file command has the trimmed rest after `file `; a chat line is the input itself, not starting with `file ` and not blank; a blank line trims to empty |
| Interactive.KeywordsIgnoreCase | bundle/mycodehelper-complete.js:568-592 | two lines equal up to case name the same keyword |
| Interactive.KeywordIffWord | bundle/mycodehelper-complete.js:568-592 | a line is a keyword command exactly when its lower-cased form is one of the six words |
| Interactive.KeywordCommands | bundle/mycodehelper-complete.js:568-592 | a line is Exit exactly when its lower-cased form is `exit` or `quit`, and Help, Clear, Status or Analyze exactly when it is that word |
| Interactive.BlankLineIsBlank | bundle/mycodehelper-complete.js:600-602 | a line is skipped as blank exactly when it trims to the empty string |
| Interactive.PlainLineIsChat | bundle/mycodehelper-complete.js:604-605 | a line is a chat turn carrying itself exactly when it is no keyword, does not start with `file ` and is not blank |
| Interactive.UpperCaseExit | bundle/mycodehelper-complete.js:568 | `EXIT` ends the loop |
| Interactive.CapitalFileIsChat | bundle/mycodehelper-complete.js:594 | the `file ` prefix is case-sensitive: `File ` followed by any path is a chat line carrying the whole input |
| Interactive.FileLineLoadsTrimmedPath | bundle/mycodehelper-complete.js:594-596 | `file ` followed by anything loads the trimmed rest; no keyword shadows it |
| Interactive.Last | bundle/mycodehelper-complete.js:608 | `slice(-n)` is the last `n` elements, or all when there are fewer |
| Interactive.AfterChat | bundle/mycodehelper-complete.js:605-626 | a chat turn keeps the old turns, adds the user turn, and adds the answer as an assistant turn only when the call returns |
| Interactive.ChatSession.constructor | bundle/mycodehelper-complete.js:391 | the conversation starts empty |
| Interactive.ChatSession.Chat | bundle/mycodehelper-complete.js:605-626 | the conversation becomes the spec `AfterChat` for the client's answer to the chat request |
| Interactive.ChatSession.ProcessFileInteractive | bundle/mycodehelper-complete.js:637-665 | the conversation becomes the spec `FileStep` |
| Interactive.ChatSession.Handle | bundle/mycodehelper-complete.js:566-626 | one pass stops exactly on `exit`/`quit`, and otherwise leaves the conversation as the spec `Step` |
| Interactive.ChatSession.InteractiveMode | bundle/mycodehelper-complete.js:564-632 | the loop leaves the conversation as the spec `Run` over the lines read |
| Interactive.ChatAddsPair | bundle/mycodehelper-complete.js:605-626 | an answered chat line adds exactly the user turn and then the answer, whatever it says |
| Interactive.ChatHistoryWindow | bundle/mycodehelper-complete.js:605-608 | the chat history is the last ≤10 turns including the new user turn, in order, ending with it |
| Interactive.UserTurnSentTwice | bundle/mycodehelper-complete.js:605-608 | the last two messages sent to the Local AI backend are both the new user turn |
| Interactive.ThrownLeavesUserTurn | bundle/mycodehelper-complete.js:605-631 | a chat call that throws leaves the user turn without an answer |
| Interactive.ClearEmpties | bundle/mycodehelper-complete.js:578-579 | `clear` empties the conversation |
| Interactive.QuietLines | bundle/mycodehelper-complete.js:573-602 | `help`, `status`, `analyze` and blank lines leave the conversation alone |
| Interactive.ClearLineEmpties | bundle/mycodehelper-complete.js:578-579 | a line reading `clear` in any case empties the conversation |
| Interactive.QuietInputs | bundle/mycodehelper-complete.js:573-602 | `help`, `status` and `analyze` in any case, and white-space lines, leave the conversation unchanged |
| Interactive.FileTurnPair | bundle/mycodehelper-complete.js:646-664 | a readable file is sent alone with the last ≤5 turns as they stood before, and an answer adds `[File: p]` and the answer |
| Interactive.UnreadableFileAddsNothing | bundle/mycodehelper-complete.js:638-642 | an unreadable file adds nothing |
| Interactive.PairKeepsAlternating | bundle/mycodehelper-complete.js:663-664 | appending a user turn and an assistant turn keeps the conversation in pairs |
| Interactive.StepKeepsAlternating | bundle/mycodehelper-complete.js:564-664 | with a client that never throws, each line keeps the conversation in user/assistant pairs |
| Interactive.RunKeepsAlternating | bundle/mycodehelper-complete.js:564-632 | with a client that never throws, the whole loop keeps the conversation in pairs |
| Interactive.ThrownBreaksAlternating | bundle/mycodehelper-complete.js:605-631 | a thrown chat call leaves an odd-length conversation |
| Interactive.StepGrowth | bundle/mycodehelper-complete.js:564-664 | each line adds at most two turns |
| Interactive.ExitStops | bundle/mycodehelper-complete.js:568-570 | nothing after `exit` is read |
| Interactive.RunAppend | bundle/mycodehelper-complete.js:564-632 | lines before an `exit` are processed in order, one after another |

## Left out

- **I/O and user interface:** printing, the readline prompt, the banner, help and status texts, and the SIGINT/SIGTERM handlers are not modelled.
- **Standard output writes:** these are modelled only for the streamed deltas.
- **`fetch`, headers and endpoint URLs:** foreign calls. A response is a value, and a model and temperature are not part of the request value. `temperature` is a float read with `parseFloat`.
- **`JSON.parse`, `JSON.stringify` and `TextDecoder`:** library calls, abstracted as functions. Chunks are already-decoded strings, so a multi-byte character split across two reads is not modelled.
- **`simulateStreaming` (lines 370-385):** a cosmetic timer chain that does not affect the returned value.
- **`loadConfig` (lines 678-686):** a JSON read plus a shallow `Object.assign` onto the global configuration. The provider choice takes the keys as they stand after it.
- **`FileUtils.writeFile` and the `--output` saving:** file I/O.
- **Exact `console.log` output of the one-shot modes:** not modelled.
- **The `modified` timestamp of a file record and the `structure` field of the summary:** the source leaves `structure` empty.
- **Node's `path` functions:** `path.join` is modelled as `name` for the roots `""` and `"."`, `dir + name` when `dir` ends with `/`, and `dir + "/" + name` otherwise. Normalisation of `..` and repeated separators is not modelled, and the walk's paths never need it.
- **Unicode:** `toLowerCase` is modelled on ASCII letters only, and there is no Unicode case mapping.
- **`mycodehelper.py`, `mycodehelper-standalone.py`, `install.js` and `setup.js`:** launchers and installers made of subprocess, network and interactive I/O. They are not part of this model.
- **Stream.NonBlank:** its contract states only the length bound. That it drops exactly the blank lines is used through `Stream.BlankLinesIrrelevant`, which shows the dropped lines never matter.
- **Interactive.ChatSession.InteractiveMode:** stops at the end of the given lines. In the source, a closed standard input leaves the pending question unanswered rather than ending the loop.
- **Interactive `analyze` command:** its request is modelled by `App.AnalyzeProjectRequest`. In the loop, only its effect on the conversation (none) is modelled.
