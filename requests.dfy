/**
 * What the two clients send: the message list of `LocalAIClient.buildMessages`
 * and the single prompt string of `HuggingFaceClient.buildPrompt`, both built
 * from the system prompt, the attached files, the history and the new message.
 */
module Requests {
  import opened Wrappers
  import opened Strings
  import opened Records

  /** The arguments of `generateContent`: the message and its `options` object. */
  datatype Request = Request(
    message: string,
    systemPrompt: Option<string>,
    files: seq<FileRecord>,
    history: seq<Message>,
    stream: Option<bool>)

  const FilesHeader: string := "Here are the relevant files for context:\n\n"

  /** One attached file as a fenced block tagged with its extension. */
  function FileBlock(f: FileRecord): string {
    "File: " + f.path + "\n```" + f.extension + "\n" + f.content + "\n```"
  }

  function FileBlocks(files: seq<FileRecord>): (blocks: seq<string>)
    ensures |blocks| == |files|
    ensures forall i :: 0 <= i < |files| ==> blocks[i] == FileBlock(files[i])
  {
    if files == [] then [] else [FileBlock(files[0])] + FileBlocks(files[1..])
  }

  /** The text of the system message that carries the attached files. */
  function FileContext(files: seq<FileRecord>): string {
    FilesHeader + Join(FileBlocks(files), "\n\n")
  }

  /** How many messages `buildMessages` puts before the history. */
  function Lead(systemPrompt: Option<string>, files: seq<FileRecord>): nat {
    (if Truthy(systemPrompt) then 1 else 0) + (if files != [] then 1 else 0)
  }

  /**
   * `buildMessages`: the system prompt when it is truthy, then one system
   * message with every attached file when there are any, then the history
   * unchanged, then the new message as a user message.
   */
  function BuildMessages(message: string, systemPrompt: Option<string>, files: seq<FileRecord>, history: seq<Message>): (r: seq<Message>)
    ensures |r| == Lead(systemPrompt, files) + |history| + 1
    ensures Truthy(systemPrompt) ==> r[0] == Message(System, systemPrompt.value)
    ensures files != [] ==> r[Lead(systemPrompt, files) - 1] == Message(System, FileContext(files))
    ensures forall i :: 0 <= i < Lead(systemPrompt, files) ==> r[i].role == System
    ensures r[Lead(systemPrompt, files)..|r| - 1] == history
    ensures r[|r| - 1] == Message(User, message)
  {
    var sys := if Truthy(systemPrompt) then [Message(System, systemPrompt.value)] else [];
    var ctx := if files != [] then [Message(System, FileContext(files))] else [];
    var r := sys + ctx + history + [Message(User, message)];
    assert r[|sys + ctx|..|r| - 1] == history;
    r
  }

  /** The message list of a request. */
  function RequestMessages(req: Request): seq<Message> {
    BuildMessages(req.message, req.systemPrompt, req.files, req.history)
  }

  /**
   * The messages before the history are exactly the truthy system prompt and
   * then, when files are attached, the one file-context message.
   */
  lemma FileContextMessageIffFiles(message: string, systemPrompt: Option<string>, files: seq<FileRecord>, history: seq<Message>)
    ensures var r := BuildMessages(message, systemPrompt, files, history);
      r[..Lead(systemPrompt, files)] ==
        (if Truthy(systemPrompt) then [Message(System, systemPrompt.value)] else []) +
        (if files != [] then [Message(System, FileContext(files))] else [])
  {
  }

  lemma {:induction false} JoinSnoc(parts: seq<string>, x: string, sep: string)
    requires parts != []
    ensures Join(parts + [x], sep) == Join(parts, sep) + sep + x
    decreases |parts|
  {
    if |parts| == 1 {
      assert Join(parts + [x], sep) == parts[0] + sep + Join([x], sep);
    } else {
      assert (parts + [x])[1..] == parts[1..] + [x];
      JoinSnoc(parts[1..], x, sep);
    }
  }

  lemma {:induction false} FileBlocksSnoc(files: seq<FileRecord>, f: FileRecord)
    ensures FileBlocks(files + [f]) == FileBlocks(files) + [FileBlock(f)]
  {
  }

  /** Attaching one more file adds its block after the others, separated by a blank line. */
  lemma FileContextSnoc(files: seq<FileRecord>, f: FileRecord)
    requires files != []
    ensures FileContext(files + [f]) == FileContext(files) + "\n\n" + FileBlock(f)
  {
    FileBlocksSnoc(files, f);
    JoinSnoc(FileBlocks(files), FileBlock(f), "\n\n");
  }

  /** A single attached file gives the header followed by its block. */
  lemma FileContextSingle(f: FileRecord)
    ensures FileContext([f]) == FilesHeader + FileBlock(f)
  {
  }

  // ---- the whole-text prompt ----

  /** One history turn: `Human` for a user turn, `Assistant` for any other role. */
  function TurnLine(m: Message): string {
    (if m.role == User then "Human" else "Assistant") + ": " + m.content + "\n"
  }

  function RenderHistory(history: seq<Message>): string
    decreases |history|
  {
    if history == [] then "" else RenderHistory(history[..|history| - 1]) + TurnLine(history[|history| - 1])
  }

  function FileEntry(f: FileRecord): string {
    "\n" + f.path + ":\n" + f.content + "\n"
  }

  function RenderFiles(files: seq<FileRecord>): string
    decreases |files|
  {
    if files == [] then "" else RenderFiles(files[..|files| - 1]) + FileEntry(files[|files| - 1])
  }

  function SystemSection(systemPrompt: Option<string>): string {
    if Truthy(systemPrompt) then "System: " + systemPrompt.value + "\n\n" else ""
  }

  function FilesSection(files: seq<FileRecord>): string {
    if files != [] then "Files for context:\n" + RenderFiles(files) + "\n" else ""
  }

  function FinalTurn(message: string): string {
    "Human: " + message + "\nAssistant:"
  }

  /**
   * `buildPrompt`: the system section, the files section, one line per
   * history turn and the new human turn, in this order.
   */
  function BuildPrompt(message: string, systemPrompt: Option<string>, files: seq<FileRecord>, history: seq<Message>): string {
    SystemSection(systemPrompt) + FilesSection(files) + RenderHistory(history) + FinalTurn(message)
  }

  /** The prompt always ends with the new human turn and the cue for the assistant. */
  lemma PromptEndsWithHumanTurn(message: string, systemPrompt: Option<string>, files: seq<FileRecord>, history: seq<Message>)
    ensures EndsWith(BuildPrompt(message, systemPrompt, files, history), "Human: " + message + "\nAssistant:")
  {
    EndsWithAppend(SystemSection(systemPrompt) + FilesSection(files) + RenderHistory(history), FinalTurn(message));
  }

  /** A truthy system prompt opens the prompt. */
  lemma PromptStartsWithSystem(message: string, systemPrompt: Option<string>, files: seq<FileRecord>, history: seq<Message>)
    requires Truthy(systemPrompt)
    ensures StartsWith(BuildPrompt(message, systemPrompt, files, history), "System: " + systemPrompt.value + "\n\n")
  {
    var head, fs, rh, ft := SystemSection(systemPrompt), FilesSection(files), RenderHistory(history), FinalTurn(message);
    AppendAssoc(head, fs, rh);
    AppendAssoc(head, fs + rh, ft);
    AppendAssoc(fs, rh, ft);
    StartsWithAppend(head, fs + rh + ft);
  }

  /** Attached files bring the files section, headed and followed by every file in order; without files there is none. */
  lemma PromptFilesSection(message: string, systemPrompt: Option<string>, files: seq<FileRecord>, history: seq<Message>)
    ensures files != [] ==> Contains(BuildPrompt(message, systemPrompt, files, history), "Files for context:\n" + RenderFiles(files))
    ensures files == [] ==> BuildPrompt(message, systemPrompt, files, history)
                              == SystemSection(systemPrompt) + RenderHistory(history) + FinalTurn(message)
  {
    var head, rh, ft := SystemSection(systemPrompt), RenderHistory(history), FinalTurn(message);
    if files != [] {
      var x := "Files for context:\n" + RenderFiles(files);
      assert FilesSection(files) == x + "\n";
      AppendAssoc(head, x, "\n");
      AppendAssoc(head + x, "\n", rh);
      AppendAssoc(head + x, "\n" + rh, ft);
      AppendAssoc("\n", rh, ft);
      ContainsMiddle(head, x, "\n" + rh + ft);
    } else {
      assert FilesSection(files) == "";
      assert head + "" == head;
    }
  }

  /** The prompt string of a request. */
  function RequestPrompt(req: Request): string {
    BuildPrompt(req.message, req.systemPrompt, req.files, req.history)
  }

  /** History turns are rendered in order: the rendering of a concatenation is the concatenation of renderings. */
  lemma {:induction false} RenderHistoryAppend(h1: seq<Message>, h2: seq<Message>)
    ensures RenderHistory(h1 + h2) == RenderHistory(h1) + RenderHistory(h2)
    decreases |h2|
  {
    if h2 == [] {
      assert h1 + h2 == h1;
    } else {
      var init := h2[..|h2| - 1];
      assert (h1 + h2)[..|h1 + h2| - 1] == h1 + init;
      assert (h1 + h2)[|h1 + h2| - 1] == h2[|h2| - 1];
      RenderHistoryAppend(h1, init);
      AppendAssoc(RenderHistory(h1), RenderHistory(init), TurnLine(h2[|h2| - 1]));
    }
  }

  /** A user turn is rendered as `Human: `, every other role as `Assistant: `. */
  lemma TurnLineSpeaker(m: Message)
    ensures m.role == User ==> TurnLine(m) == "Human: " + m.content + "\n"
    ensures m.role != User ==> TurnLine(m) == "Assistant: " + m.content + "\n"
  {
  }

  /** The history section is one line per turn, each line its turn's rendering. */
  lemma {:induction false} RenderHistoryLines(history: seq<Message>)
    ensures RenderHistory(history) == Concat(TurnLines(history))
    decreases |history|
  {
    if history != [] {
      var init := history[..|history| - 1];
      RenderHistoryLines(init);
      assert TurnLines(history) == TurnLines(init) + [TurnLine(history[|history| - 1])];
      ConcatAppend(TurnLines(init), [TurnLine(history[|history| - 1])]);
    }
  }

  /** The rendered line of each turn, in order. */
  function TurnLines(history: seq<Message>): seq<string> {
    seq(|history|, i requires 0 <= i < |history| => TurnLine(history[i]))
  }
}
