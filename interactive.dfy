/**
 * The interactive loop of `MyCodeHelperComplete`: each input line is
 * classified into a command, and the conversation (the object's
 * `conversation` array) is extended, cleared or left alone accordingly.
 *
 * The backend's `generateContent` and `FileUtils.readFile` are parameters;
 * printing and the readline prompt are not modelled.
 */
module Interactive {
  import opened Wrappers
  import opened Strings
  import opened Records
  import opened Requests
  import opened App

  /** What one input line asks for. */
  datatype Command = Exit | Help | Clear | Status | Analyze | LoadFile(path: string) | Blank | Chat(text: string)

  /** The keyword a lower-cased line names, if any. */
  function KeywordOf(lower: string): (k: Option<Command>)
    ensures k.Some? <==> lower in {"exit", "quit", "help", "clear", "status", "analyze"}
  {
    if lower == "exit" || lower == "quit" then Some(Exit)
    else if lower == "help" then Some(Help)
    else if lower == "clear" then Some(Clear)
    else if lower == "status" then Some(Status)
    else if lower == "analyze" then Some(Analyze)
    else None
  }

  /** Which word names which keyword. */
  lemma KeywordWords(lower: string)
    ensures KeywordOf(lower) == Some(Exit) <==> lower == "exit" || lower == "quit"
    ensures KeywordOf(lower) == Some(Help) <==> lower == "help"
    ensures KeywordOf(lower) == Some(Clear) <==> lower == "clear"
    ensures KeywordOf(lower) == Some(Status) <==> lower == "status"
    ensures KeywordOf(lower) == Some(Analyze) <==> lower == "analyze"
  {
  }

  /**
   * The dispatch of `interactiveMode`: the five keywords are matched on the
   * lower-cased line exactly, the `file ` prefix case-sensitively, and a line
   * of white space is skipped; anything else is a chat turn.
   */
  function Classify(input: string): (c: Command)
    ensures c.LoadFile? ==> StartsWith(input, "file ") && c.path == Trim(input[5..])
    ensures c.Chat? ==> c.text == input && !StartsWith(input, "file ") && Trim(input) != ""
    ensures c == Blank ==> Trim(input) == ""
  {
    match KeywordOf(ToLower(input))
    case Some(k) => k
    case None =>
      if StartsWith(input, "file ") then LoadFile(Trim(input[5..]))
      else if Trim(input) == "" then Blank
      else Chat(input)
  }

  /** The commands recognised by a keyword. */
  predicate IsKeyword(c: Command) {
    c.Exit? || c.Help? || c.Clear? || c.Status? || c.Analyze?
  }

  /** The keywords ignore case: two lines equal up to case name the same keyword. */
  lemma KeywordsIgnoreCase(a: string, b: string)
    requires ToLower(a) == ToLower(b)
    requires IsKeyword(Classify(a))
    ensures Classify(b) == Classify(a)
  {
  }

  /** A line is a keyword command exactly when its lower-cased form is one of the six words. */
  lemma KeywordIffWord(input: string)
    ensures IsKeyword(Classify(input)) <==>
      ToLower(input) in {"exit", "quit", "help", "clear", "status", "analyze"}
  {
    var k := KeywordOf(ToLower(input));
    assert k.Some? ==> IsKeyword(k.value);
  }

  /** Which word gives which keyword command, in any case. */
  lemma KeywordCommands(input: string)
    ensures Classify(input) == Exit <==> ToLower(input) == "exit" || ToLower(input) == "quit"
    ensures Classify(input) == Help <==> ToLower(input) == "help"
    ensures Classify(input) == Clear <==> ToLower(input) == "clear"
    ensures Classify(input) == Status <==> ToLower(input) == "status"
    ensures Classify(input) == Analyze <==> ToLower(input) == "analyze"
  {
    KeywordIffWord(input);
    KeywordWords(ToLower(input));
  }

  /** No keyword starts with a character outside the keywords' initials. */
  lemma NoKeywordFrom(lower: string)
    requires lower != [] && lower[0] !in {'e', 'q', 'h', 'c', 's', 'a'}
    ensures KeywordOf(lower) == None
  {
  }

  /** A white-space character is no letter and is left alone by lower-casing. */
  lemma WhitespaceNotLetter(c: char)
    requires IsWhitespace(c)
    ensures LowerChar(c) == c && c !in {'e', 'q', 'h', 'c', 's', 'a', 'f'}
  {
  }

  /** A line that trims to nothing starts with white space. */
  lemma BlankHead(input: string)
    requires input != [] && Trim(input) == ""
    ensures IsWhitespace(input[0])
  {
    TrimEmptyIff(input);
  }

  /** A line of white space, the empty line included, is skipped, and only such a line. */
  lemma BlankLineIsBlank(input: string)
    ensures Classify(input) == Blank <==> Trim(input) == ""
  {
    if Trim(input) == "" {
      if input == [] {
        assert ToLower(input) == [];
        assert KeywordOf(ToLower(input)) == None;
      } else {
        BlankHead(input);
        WhitespaceNotLetter(input[0]);
        NoKeywordFrom(ToLower(input));
      }
      assert !StartsWith(input, "file ") by {
        if |input| >= 5 { assert input[..5][0] == input[0]; }
      }
    }
  }

  /** Every other line is a chat turn with the line itself as the message. */
  lemma PlainLineIsChat(input: string)
    ensures Classify(input) == Chat(input) <==>
      ToLower(input) !in {"exit", "quit", "help", "clear", "status", "analyze"}
      && !StartsWith(input, "file ") && Trim(input) != ""
  {
    KeywordIffWord(input);
  }

  /** Upper-case keywords work: `EXIT` ends the loop. */
  lemma UpperCaseExit()
    ensures Classify("EXIT") == Exit
  {
    assert ToLower("EXIT") == "exit";
  }

  /** The `file ` prefix is case-sensitive: `File ` followed by anything is an ordinary chat line. */
  lemma CapitalFileIsChat(p: string)
    ensures Classify("File " + p) == Chat("File " + p)
  {
    var input := "File " + p;
    assert input[0] == 'F' && LowerChar('F') == 'f';
    NoKeywordFrom(ToLower(input));
    assert !StartsWith(input, "file ") by {
      assert input[..5][0] == 'F';
    }
    assert Trim(input) != "" by {
      TrimEmptyIff(input);
      assert !IsWhitespace(input[0]);
    }
  }

  /** `file ` followed by anything loads the trimmed rest: no keyword shadows the prefix. */
  lemma FileLineLoadsTrimmedPath(p: string)
    ensures Classify("file " + p) == LoadFile(Trim(p))
  {
    var input := "file " + p;
    var lower := ToLower(input);
    assert lower[0] == 'f';
    assert lower !in {"exit", "quit", "help", "clear", "status", "analyze"};
    assert input[..5] == "file " && input[5..] == p;
  }

  /** How many turns the chat and file requests carry as history. */
  const ChatWindow: nat := 10
  const FileWindow: nat := 5

  /** `s.slice(-n)` for a positive `n`: the last `n` elements, or all of them when there are fewer. */
  function Last<T>(s: seq<T>, n: nat): (r: seq<T>)
    requires n > 0
    ensures |r| == if |s| < n then |s| else n
    ensures r == s[|s| - |r|..]
  {
    if |s| <= n then s else s[|s| - n..]
  }

  /** The client's `generateContent(message, options)`. */
  type Generator = (string, Request) -> Outcome

  /** `FileUtils.readFile`: `None` for a path that cannot be read. */
  type FileReader = string -> Option<FileRecord>

  /**
   * What the loop works with: the chosen client, the file reader, the JSON
   * rendering of the project context when one is loaded, and `CONFIG.streaming`.
   */
  datatype Setting = Setting(client: Generator, readFile: FileReader, context: Option<string>, streaming: bool)

  // ---- one chat turn ----

  /** The options of a chat turn, built after the user turn has been pushed. */
  function ChatRequest(conv: seq<Message>, input: string, s: Setting): Request {
    Request(input, Some(SystemPromptWith(s.context)), [], Last(conv + [Message(User, input)], ChatWindow), Some(s.streaming))
  }

  /**
   * The conversation after a chat turn: the user turn, then the response as
   * the assistant turn; when the call throws only the user turn is left.
   */
  function AfterChat(conv: seq<Message>, input: string, response: Outcome): (r: seq<Message>)
    ensures |r| == |conv| + (if response.Returned? then 2 else 1)
    ensures r[..|conv|] == conv && r[|conv|] == Message(User, input)
    ensures response.Returned? ==> r[|conv| + 1] == Message(Assistant, response.text)
  {
    match response
    case Returned(t) => conv + [Message(User, input), Message(Assistant, t)]
    case Thrown(_) => conv + [Message(User, input)]
  }

  // ---- one file turn ----

  const FileNote: string := "\n\nThe user has provided a file for analysis."

  function FilePrompt(path: string): string {
    "Please analyze the file " + path + " and provide insights."
  }

  /** The user turn recorded for an analysed file. */
  function FileTurn(path: string): string {
    "[File: " + path + "]"
  }

  /** The options of `processFileInteractive`: the file, and the last turns as they stood before. */
  function AttachRequest(conv: seq<Message>, path: string, f: FileRecord, s: Setting): Request {
    Request(FilePrompt(path), Some(SystemPrompt + FileNote), [f], Last(conv, FileWindow), Some(s.streaming))
  }

  /**
   * The conversation after `processFileInteractive`: unchanged for an
   * unreadable file or a call that throws, otherwise extended by the file
   * turn and the response.
   */
  function FileStep(conv: seq<Message>, path: string, s: Setting): seq<Message> {
    match s.readFile(path)
    case None => conv
    case Some(f) =>
      match s.client(FilePrompt(path), AttachRequest(conv, path, f, s))
      case Returned(t) => conv + [Message(User, FileTurn(path)), Message(Assistant, t)]
      case Thrown(_) => conv
  }

  // ---- the loop ----

  /** The conversation after one command other than `exit`. */
  function Step(conv: seq<Message>, command: Command, s: Setting): seq<Message> {
    match command
    case Clear => []
    case LoadFile(p) => FileStep(conv, p, s)
    case Chat(t) => AfterChat(conv, t, s.client(t, ChatRequest(conv, t, s)))
    case _ => conv
  }

  /** The conversation after the loop has read `inputs`, up to and excluding the first `exit`. */
  function Run(conv: seq<Message>, inputs: seq<string>, s: Setting): seq<Message>
    decreases |inputs|
  {
    if inputs == [] then conv
    else if Classify(inputs[0]) == Exit then conv
    else Run(Step(conv, Classify(inputs[0]), s), inputs[1..], s)
  }

  /** The application object's conversation, driven by the interactive loop. */
  class ChatSession {
    var conversation: seq<Message>
    const setting: Setting

    constructor(setting: Setting)
      ensures this.setting == setting && conversation == []
    {
      this.setting := setting;
      conversation := [];
    }

    /** A plain chat line: push the user turn, ask the client, push its answer. */
    method Chat(input: string)
      modifies this
      ensures conversation == AfterChat(old(conversation), input, setting.client(input, ChatRequest(old(conversation), input, setting)))
    {
      conversation := conversation + [Message(User, input)];
      var options := Request(input, Some(SystemPromptWith(setting.context)), [], Last(conversation, ChatWindow), Some(setting.streaming));
      var response := setting.client(input, options);
      match response
      case Returned(t) =>
        conversation := conversation + [Message(Assistant, t)];
      case Thrown(_) =>
        // the loop's `catch` reports the error; the user turn stays
    }

    /** `processFileInteractive`. */
    method ProcessFileInteractive(path: string)
      modifies this
      ensures conversation == FileStep(old(conversation), path, setting)
    {
      var file := setting.readFile(path);
      if file.None? {
        return;
      }
      var options := Request(FilePrompt(path), Some(SystemPrompt + FileNote), [file.value], Last(conversation, FileWindow), Some(setting.streaming));
      var response := setting.client(FilePrompt(path), options);
      match response
      case Returned(t) =>
        conversation := conversation + [Message(User, FileTurn(path))];
        conversation := conversation + [Message(Assistant, t)];
      case Thrown(_) =>
    }

    /** One pass of the loop body; `exit` is true when the loop is to stop. */
    method Handle(input: string) returns (exit: bool)
      modifies this
      ensures exit <==> Classify(input) == Exit
      ensures conversation == if exit then old(conversation) else Step(old(conversation), Classify(input), setting)
    {
      var command := Classify(input);
      exit := false;
      match command
      case Exit =>
        exit := true;
      case Clear =>
        conversation := [];
      case LoadFile(p) =>
        ProcessFileInteractive(p);
      case Chat(t) =>
        Chat(t);
      case _ =>
    }

    /** `interactiveMode` over the lines the user enters, until `exit` or the end of the input. */
    method InteractiveMode(inputs: seq<string>)
      modifies this
      ensures conversation == Run(old(conversation), inputs, setting)
    {
      var i := 0;
      while i < |inputs|
        invariant 0 <= i <= |inputs|
        invariant Run(conversation, inputs[i..], setting) == Run(old(conversation), inputs, setting)
      {
        assert inputs[i..][1..] == inputs[i + 1..];
        var exit := Handle(inputs[i]);
        if exit {
          return;
        }
        i := i + 1;
      }
    }
  }

  // ---- properties ----

  /** A chat line the client answers adds exactly the user turn and then the answer, whatever the answer says. */
  lemma ChatAddsPair(conv: seq<Message>, input: string, s: Setting)
    requires s.client(input, ChatRequest(conv, input, s)).Returned?
    ensures Step(conv, Chat(input), s) ==
      conv + [Message(User, input), Message(Assistant, s.client(input, ChatRequest(conv, input, s)).text)]
  {
  }

  /**
   * The history of a chat request is the last (at most ten) turns of the
   * conversation with the new user turn, so it ends with that turn.
   */
  lemma ChatHistoryWindow(conv: seq<Message>, input: string, s: Setting)
    ensures var h := ChatRequest(conv, input, s).history;
      |h| == (if |conv| + 1 < ChatWindow then |conv| + 1 else ChatWindow)
      && h == (conv + [Message(User, input)])[|conv| + 1 - |h|..]
      && h[|h| - 1] == Message(User, input)
  {
  }

  /**
   * The new user turn reaches the Local AI backend twice: it closes the
   * history and `buildMessages` appends the message once more.
   */
  lemma UserTurnSentTwice(conv: seq<Message>, input: string, s: Setting)
    ensures var ms := RequestMessages(ChatRequest(conv, input, s));
      |ms| >= 2 && ms[|ms| - 1] == Message(User, input) && ms[|ms| - 2] == Message(User, input)
  {
    var req := ChatRequest(conv, input, s);
    var ms := RequestMessages(req);
    var lead := Lead(req.systemPrompt, req.files);
    assert ms[lead..|ms| - 1] == req.history;
    assert ms[|ms| - 2] == req.history[|req.history| - 1];
  }

  /** A chat call that throws leaves the user turn without an answer. */
  lemma ThrownLeavesUserTurn(conv: seq<Message>, input: string, s: Setting)
    requires s.client(input, ChatRequest(conv, input, s)).Thrown?
    ensures Step(conv, Chat(input), s) == conv + [Message(User, input)]
  {
  }

  /** `clear` empties the conversation. */
  lemma ClearEmpties(conv: seq<Message>, s: Setting)
    ensures Step(conv, Clear, s) == []
  {
  }

  /** Lines that only print, and blank lines, leave the conversation alone. */
  lemma QuietLines(conv: seq<Message>, command: Command, s: Setting)
    requires command.Help? || command.Status? || command.Analyze? || command.Blank?
    ensures Step(conv, command, s) == conv
  {
  }

  /** A `clear` line, in any case, empties the conversation. */
  lemma ClearLineEmpties(conv: seq<Message>, input: string, s: Setting)
    requires ToLower(input) == "clear"
    ensures Step(conv, Classify(input), s) == []
  {
    KeywordCommands(input);
  }

  /** `help`, `status` and `analyze` lines, in any case, and lines of white space leave the conversation alone. */
  lemma QuietInputs(conv: seq<Message>, input: string, s: Setting)
    requires ToLower(input) in {"help", "status", "analyze"} || Trim(input) == ""
    ensures Step(conv, Classify(input), s) == conv
  {
    KeywordCommands(input);
    BlankLineIsBlank(input);
  }

  /**
   * A readable file is sent with the last (at most five) turns as they stood
   * before, and an answer adds the file turn and the answer.
   */
  lemma FileTurnPair(conv: seq<Message>, path: string, s: Setting)
    requires s.readFile(path).Some?
    ensures var req := AttachRequest(conv, path, s.readFile(path).value, s);
      req.files == [s.readFile(path).value]
      && |req.history| == (if |conv| < FileWindow then |conv| else FileWindow)
      && req.history == conv[|conv| - |req.history|..]
    ensures var o := s.client(FilePrompt(path), AttachRequest(conv, path, s.readFile(path).value, s));
      o.Returned? ==> FileStep(conv, path, s) == conv + [Message(User, FileTurn(path)), Message(Assistant, o.text)]
  {
  }

  /** An unreadable file adds nothing. */
  lemma UnreadableFileAddsNothing(conv: seq<Message>, path: string, s: Setting)
    requires s.readFile(path).None?
    ensures FileStep(conv, path, s) == conv
  {
  }

  /** A conversation of user/assistant pairs. */
  predicate Alternating(conv: seq<Message>) {
    |conv| % 2 == 0 && forall i :: 0 <= i < |conv| ==> conv[i].role == (if i % 2 == 0 then User else Assistant)
  }

  /** A client that always settles with a text. */
  ghost predicate NeverThrows(client: Generator) {
    forall m, r :: client(m, r).Returned?
  }

  lemma PairKeepsAlternating(conv: seq<Message>, u: string, a: string)
    requires Alternating(conv)
    ensures Alternating(conv + [Message(User, u), Message(Assistant, a)])
  {
    var r := conv + [Message(User, u), Message(Assistant, a)];
    forall i | 0 <= i < |r|
      ensures r[i].role == (if i % 2 == 0 then User else Assistant)
    {
      if i < |conv| {
        assert r[i] == conv[i];
      }
    }
  }

  /** One line keeps the conversation in pairs when the client never throws. */
  lemma StepKeepsAlternating(conv: seq<Message>, command: Command, s: Setting)
    requires Alternating(conv)
    requires NeverThrows(s.client)
    ensures Alternating(Step(conv, command, s))
  {
    match command
    case Chat(t) =>
      var o := s.client(t, ChatRequest(conv, t, s));
      assert o.Returned?;
      PairKeepsAlternating(conv, t, o.text);
    case LoadFile(p) =>
      if s.readFile(p).Some? {
        var o := s.client(FilePrompt(p), AttachRequest(conv, p, s.readFile(p).value, s));
        assert o.Returned?;
        PairKeepsAlternating(conv, FileTurn(p), o.text);
      }
    case _ =>
  }

  /** The whole loop keeps the conversation in pairs when the client never throws. */
  lemma {:induction false} RunKeepsAlternating(conv: seq<Message>, inputs: seq<string>, s: Setting)
    requires Alternating(conv)
    requires NeverThrows(s.client)
    ensures Alternating(Run(conv, inputs, s))
    decreases |inputs|
  {
    if inputs != [] && Classify(inputs[0]) != Exit {
      StepKeepsAlternating(conv, Classify(inputs[0]), s);
      RunKeepsAlternating(Step(conv, Classify(inputs[0]), s), inputs[1..], s);
    }
  }

  /** A thrown chat call breaks the pairing: the conversation ends with an unanswered user turn. */
  lemma ThrownBreaksAlternating(conv: seq<Message>, input: string, e: string)
    requires Alternating(conv)
    ensures !Alternating(AfterChat(conv, input, Thrown(e)))
  {
    assert |AfterChat(conv, input, Thrown(e))| % 2 == 1;
  }

  /** Each line adds at most two turns. */
  lemma StepGrowth(conv: seq<Message>, command: Command, s: Setting)
    ensures |Step(conv, command, s)| <= |conv| + 2
  {
  }

  /** Nothing after `exit` is read. */
  lemma ExitStops(conv: seq<Message>, x: string, rest: seq<string>, s: Setting)
    requires Classify(x) == Exit
    ensures Run(conv, [x] + rest, s) == conv
  {
  }

  /** The lines before an `exit` run in order, one step each. */
  lemma {:induction false} RunAppend(conv: seq<Message>, a: seq<string>, b: seq<string>, s: Setting)
    requires forall i :: 0 <= i < |a| ==> Classify(a[i]) != Exit
    ensures Run(conv, a + b, s) == Run(Run(conv, a, s), b, s)
    decreases |a|
  {
    if a == [] {
      assert a + b == b;
    } else {
      assert (a + b)[0] == a[0] && (a + b)[1..] == a[1..] + b;
      RunAppend(Step(conv, Classify(a[0]), s), a[1..], b, s);
    }
  }
}
