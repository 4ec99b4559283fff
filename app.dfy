/**
 * The application object `MyCodeHelperComplete` outside its interactive loop:
 * the configuration values it reads, the backend chosen by `initialize`, the
 * mode chosen by `run`, and the requests of the one-shot modes
 * (`processFile`, `processPrompt`, `analyzeProject`).
 */
module App {
  import opened Wrappers
  import opened Strings
  import opened Records
  import opened CliArgs
  import opened Requests
  import opened Scanner
  import opened Summary
  import opened Stream
  import opened Clients

  datatype Provider = HuggingFace | LocalAI

  /** The Local AI key used when `LOCAL_AI_API_KEY` is unset or empty. */
  const DefaultLocalKey: string := "local-key"

  /** `CONFIG.LOCAL_AI.apiKey` as the environment sets it. */
  function EnvLocalKey(env: Option<string>): (key: Option<string>)
    ensures Truthy(key)
  {
    if Truthy(env) then env else Some(DefaultLocalKey)
  }

  /** `CONFIG.streaming`: on unless `MYCODEHELPER_STREAMING` is exactly `false`. */
  function EnvStreaming(env: Option<string>): bool {
    env != Some("false")
  }

  /**
   * With `MYCODEHELPER_STREAMING=false` the Local AI client never streams:
   * its answer does not depend on the delta decoder and nothing is written.
   */
  lemma StreamingEnvOffIgnoresDeltas(env: Option<string>, req: Request, send: LocalTransport,
                                     readCompletion: string -> Extracted, d1: DeltaDecoder, d2: DeltaDecoder)
    requires env == Some("false")
    ensures LocalGenerate(req, EnvStreaming(env), send, readCompletion, d1) ==
            LocalGenerate(req, EnvStreaming(env), send, readCompletion, d2)
    ensures LocalWritten(req, EnvStreaming(env), send, d1) == ""
  {
  }

  /** With the variable unset or anything but `false`, a request streams exactly when its options do not say `stream: false`. */
  lemma StreamingEnvOnFollowsOption(env: Option<string>, option: Option<bool>)
    requires env != Some("false")
    ensures StreamFlag(option, EnvStreaming(env)) <==> option != Some(false)
  {
  }

  /**
   * The backend `initialize` picks from the two keys in `CONFIG` (after any
   * configuration file has been merged in): Hugging Face whenever its key is
   * truthy, Local AI only otherwise, none when both are falsy.
   */
  function ChooseProvider(hfKey: Option<string>, localKey: Option<string>): (p: Option<Provider>)
    ensures p == Some(HuggingFace) <==> Truthy(hfKey)
    ensures p == Some(LocalAI) <==> !Truthy(hfKey) && Truthy(localKey)
    ensures p == None <==> !Truthy(hfKey) && !Truthy(localKey)
  {
    if Truthy(hfKey) then Some(HuggingFace)
    else if Truthy(localKey) then Some(LocalAI)
    else None
  }

  /** A truthy Hugging Face key picks Hugging Face whatever the Local AI key is. */
  lemma HuggingFaceWins(hfKey: Option<string>, k1: Option<string>, k2: Option<string>)
    requires Truthy(hfKey)
    ensures ChooseProvider(hfKey, k1) == ChooseProvider(hfKey, k2) == Some(HuggingFace)
  {
  }

  /**
   * With the keys exactly as the environment sets them, some backend is
   * always configured: the Local AI key falls back to `local-key`.
   */
  lemma EnvironmentAlwaysConfigured(hfEnv: Option<string>, localEnv: Option<string>)
    ensures ChooseProvider(hfEnv, EnvLocalKey(localEnv)).Some?
    ensures !Truthy(hfEnv) ==> ChooseProvider(hfEnv, EnvLocalKey(localEnv)) == Some(LocalAI)
  {
  }

  /** How `initialize` settles: `false`, or `true` with a backend and whether the project context is loaded. */
  datatype Init = Declined | Ready(provider: Provider, loadContext: bool)

  /**
   * `initialize`: `--help` and `--version` end the run before anything is
   * configured; without a backend it declines; otherwise the project context
   * is loaded when `--codebase` or `--analyze` is given.
   */
  function Initialize(args: Parsed, hfKey: Option<string>, localKey: Option<string>): (r: Init)
    ensures r.Ready? ==> Some(r.provider) == ChooseProvider(hfKey, localKey)
  {
    if args.help || args.version then Declined
    else match ChooseProvider(hfKey, localKey)
      case None => Declined
      case Some(p) => Ready(p, args.codebase || args.analyze)
  }

  /** `initialize` returns `false` exactly for help, version, or no backend at all. */
  lemma InitializeDeclines(args: Parsed, hfKey: Option<string>, localKey: Option<string>)
    ensures Initialize(args, hfKey, localKey).Declined? <==>
      args.help || args.version || (!Truthy(hfKey) && !Truthy(localKey))
    ensures Initialize(args, hfKey, localKey).Ready? ==>
      Initialize(args, hfKey, localKey).loadContext == (args.codebase || args.analyze)
  {
  }

  /** What `run` does after a successful `initialize`. */
  datatype Mode = ProcessFile(path: string) | ProcessPrompt(prompt: string) | AnalyzeProject | Interactive

  /** `run`: a file first, then a prompt, then `--analyze`, and the interactive loop otherwise. */
  function RunMode(args: Parsed): (m: Mode)
    ensures m.ProcessFile? <==> Truthy(args.file)
    ensures m.ProcessPrompt? <==> !Truthy(args.file) && Truthy(args.prompt)
    ensures m == AnalyzeProject <==> !Truthy(args.file) && !Truthy(args.prompt) && args.analyze
    ensures m.ProcessFile? ==> Some(m.path) == args.file
    ensures m.ProcessPrompt? ==> Some(m.prompt) == args.prompt
  {
    if Truthy(args.file) then ProcessFile(args.file.value)
    else if Truthy(args.prompt) then ProcessPrompt(args.prompt.value)
    else if args.analyze then AnalyzeProject
    else Interactive
  }

  /** A bare command line starts the interactive loop. */
  lemma NoArgumentsIsInteractive()
    ensures RunMode(Parse([])) == Interactive
  {
    NoArguments();
  }

  /** With a file, a prompt on the same line is the question about the file rather than a mode of its own. */
  lemma FileBeatsPrompt(args: Parsed)
    requires Truthy(args.file) && Truthy(args.prompt)
    ensures RunMode(args) == ProcessFile(args.file.value)
  {
  }

  // ---- the system prompts ----

  /** `getSystemPrompt()`. */
  const SystemPrompt: string :=
    "You are MyCodeHelper, an expert AI coding assistant. You help with:\n"
    + "- Code analysis and debugging\n"
    + "- Architecture and design patterns  \n"
    + "- Best practices and optimization\n"
    + "- Documentation and explanations\n"
    + "- Problem solving and algorithms\n"
    + "\n"
    + "Provide clear, actionable, and helpful responses. When analyzing code, be specific about improvements and potential issues."

  /**
   * The system prompt of a chat or prompt request: `getSystemPrompt()`
   * followed, when a project context is loaded, by its JSON rendering
   * (`contextJson` stands for `JSON.stringify(projectContext, null, 2)`).
   */
  function SystemPromptWith(contextJson: Option<string>): (s: string)
    ensures StartsWith(s, SystemPrompt)
    ensures contextJson.None? ==> s == SystemPrompt
    ensures contextJson.Some? ==> EndsWith(s, contextJson.value)
  {
    match contextJson
    case None => SystemPrompt
    case Some(j) =>
      var note := "\n\nProject Context: " + j;
      StartsWithAppend(SystemPrompt, note);
      EndsWithAppend("\n\nProject Context: ", j);
      assert SystemPrompt + note == (SystemPrompt + "\n\nProject Context: ") + j;
      EndsWithAppend(SystemPrompt + "\n\nProject Context: ", j);
      SystemPrompt + note
  }

  const FileAnalystPrompt: string := "You are an expert code analyst. Provide detailed insights about the provided file."

  const ArchitectPrompt: string :=
    "You are a senior software architect. Analyze this codebase and provide insights about architecture, code quality, and recommendations."

  const AnalyzeQuestion: string :=
    "Analyze this codebase structure and provide insights about the architecture, patterns, and potential improvements."

  /** How many scanned files `analyzeProject` attaches. */
  const AttachedFiles: nat := 10

  // ---- the one-shot requests ----

  /** `processFile`: the prompt from the command line, or a question naming the file's extension. */
  function FileQuestion(args: Parsed, f: FileRecord): (q: string)
    ensures Truthy(args.prompt) ==> q == args.prompt.value
    ensures !Truthy(args.prompt) ==> StartsWith(q, "Analyze this " + f.extension)
  {
    var fallback := "Analyze this " + f.extension + " file and provide insights:";
    StartsWithAppend("Analyze this " + f.extension, " file and provide insights:");
    if Truthy(args.prompt) then args.prompt.value else fallback
  }

  /** The request of `processFile` for a readable file: that file alone, no history, the command line's stream flag. */
  function FileRequest(args: Parsed, f: FileRecord): Request {
    Request(FileQuestion(args, f), Some(FileAnalystPrompt), [f], [], Some(args.stream))
  }

  /** The request of `processPrompt`: the prompt alone with the (context-extended) system prompt. */
  function PromptRequest(args: Parsed, prompt: string, contextJson: Option<string>): Request {
    Request(prompt, Some(SystemPromptWith(contextJson)), [], [], Some(args.stream))
  }

  /**
   * What `processFile` sends to the Local AI backend: the analyst system
   * prompt, the one file in the file-context message, and the question.
   */
  lemma FileRequestMessages(args: Parsed, f: FileRecord)
    ensures RequestMessages(FileRequest(args, f)) ==
      [Message(System, FileAnalystPrompt), Message(System, FilesHeader + FileBlock(f)), Message(User, FileQuestion(args, f))]
  {
    var r := RequestMessages(FileRequest(args, f));
    assert Truthy(Some(FileAnalystPrompt));
    FileContextSingle(f);
    assert |r| == 3;
  }

  /** What `processPrompt` sends to the Local AI backend: the system prompt and the prompt, nothing else. */
  lemma PromptRequestMessages(args: Parsed, prompt: string, contextJson: Option<string>)
    ensures RequestMessages(PromptRequest(args, prompt, contextJson)) ==
      [Message(System, SystemPromptWith(contextJson)), Message(User, prompt)]
  {
    var r := RequestMessages(PromptRequest(args, prompt, contextJson));
    assert SystemPromptWith(contextJson)[..|SystemPrompt|] == SystemPrompt;
    assert Truthy(Some(SystemPromptWith(contextJson)));
    assert |r| == 2;
  }

  /** What `processPrompt` sends to the Hugging Face backend: the system section and the human turn, nothing between. */
  lemma PromptRequestPrompt(args: Parsed, prompt: string, contextJson: Option<string>)
    ensures RequestPrompt(PromptRequest(args, prompt, contextJson)) ==
      "System: " + SystemPromptWith(contextJson) + "\n\n" + ("Human: " + prompt + "\nAssistant:")
  {
    var sp := SystemPromptWith(contextJson);
    assert SystemPromptWith(contextJson)[..|SystemPrompt|] == SystemPrompt;
    assert Truthy(Some(sp));
    var head, ft := SystemSection(Some(sp)), FinalTurn(prompt);
    assert FilesSection([]) == "" && RenderHistory([]) == "";
    assert head + "" + "" == head;
  }

  /** The request of `analyzeProject`, given the scanned files and the JSON rendering of the summary. */
  function AnalyzeRequest(args: Parsed, files: seq<FileRecord>, summaryJson: string): (r: Request)
    ensures r.message == AnalyzeQuestion && r.history == []
    ensures r.files == Take(files, AttachedFiles)
    ensures r.systemPrompt.Some? && StartsWith(r.systemPrompt.value, ArchitectPrompt)
    ensures r.systemPrompt.Some? && EndsWith(r.systemPrompt.value, summaryJson)
  {
    var head := ArchitectPrompt + "\n\nProject Summary: ";
    StartsWithAppend(ArchitectPrompt, "\n\nProject Summary: ");
    assert head + summaryJson == ArchitectPrompt + ("\n\nProject Summary: " + summaryJson);
    StartsWithAppend(ArchitectPrompt, "\n\nProject Summary: " + summaryJson);
    EndsWithAppend(head, summaryJson);
    Request(AnalyzeQuestion, Some(head + summaryJson), Take(files, AttachedFiles), [], Some(args.stream))
  }

  lemma TakeTake<T>(s: seq<T>, m: int, n: int)
    requires n <= m
    ensures Take(Take(s, m), n) == Take(s, n)
  {
    if 0 < n && n < |s| {
      assert Take(s, m)[..n] == s[..n];
    }
  }

  /**
   * `analyzeProject` over the tree under the working directory: it scans up
   * to 100 files, attaches the first ten of them and renders the summary of a
   * separate 50-file scan with `toJson` (for `JSON.stringify(summary, null, 2)`).
   */
  method AnalyzeProjectRequest(args: Parsed, root: Node, toJson: ProjectSummary -> string) returns (r: Request)
    ensures r == AnalyzeRequest(args, Take(CandDir(root, ".", 0), 100), toJson(SummaryOf(Take(CandDir(root, ".", 0), SummaryFiles))))
    ensures r.files == Take(CandDir(root, ".", 0), AttachedFiles)
  {
    var files := AnalyzeCodebase(root, ".", 100);
    var summary := GetProjectSummary(root, ".");
    r := AnalyzeRequest(args, files, toJson(summary));
    TakeTake(CandDir(root, ".", 0), 100, AttachedFiles);
  }
}
