/**
 * The two backends' `generateContent`: build the request, send it, and turn
 * the answer into the text the caller receives. Failures of the transport,
 * non-2xx statuses and unreadable bodies become returned `"Error: ..."`
 * strings; only a failure while the Local AI stream is read escapes, because
 * that promise is returned without being awaited inside the `try`.
 *
 * The transport and the JSON decoding are parameters: `send` stands for
 * `fetch`, and the readers stand for `response.json()` followed by the
 * optional-chaining property lookups.
 */
module Clients {
  import opened Wrappers
  import opened Strings
  import opened Records
  import opened Requests
  import opened Stream

  /** An HTTP answer: its status, its status text and its body. */
  datatype HttpResponse = HttpResponse(status: nat, statusText: string, body: Body)

  /** How the `fetch` promise settles. */
  datatype Fetched = FetchFailed(message: string) | Fetched(response: HttpResponse)

  /**
   * The value a JSON reader finds in a complete body: `Unreadable` when the
   * parse or a property access throws, otherwise the text at the looked-up
   * path (`None` for `undefined` or `null`).
   */
  datatype Extracted = Unreadable(message: string) | Found(text: Option<string>)

  /** The shape of a Hugging Face answer: an array (the first element's `generated_text`) or an object. */
  datatype HfData = HfUnreadable(message: string) | HfArray(firstText: Option<string>) | HfObject(text: Option<string>)

  /** `fetch` to the chat-completions endpoint, given the messages and the `stream` field of the body. */
  type LocalTransport = (seq<Message>, bool) -> Fetched

  /** `fetch` to the inference endpoint, given the `inputs` prompt. */
  type HfTransport = string -> Fetched

  const NoLocalResponse: string := "No response from Local AI"
  const NoHfResponse: string := "No response"

  /** `response.ok`. */
  predicate IsOk(status: nat) {
    200 <= status <= 299
  }

  /** `options.stream !== false && CONFIG.streaming`: an absent option does not turn streaming off. */
  predicate StreamFlag(option: Option<bool>, configured: bool) {
    option != Some(false) && configured
  }

  /** What the `catch` returns for an error with this message. */
  function ErrorText(message: string): string {
    "Error: " + message
  }

  /** `text || fallback`. */
  function OrElse(text: Option<string>, fallback: string): string {
    if Truthy(text) then text.value else fallback
  }

  const LocalStatusLabel: string := "Local AI API error: "
  const HfStatusLabel: string := "Hugging Face API error: "

  /** The message of the error thrown for a non-2xx status: a heading, the status in decimal, a space and a detail. */
  function StatusLine(heading: string, status: nat, detail: string): string {
    heading + NatToString(status) + " " + detail
  }

  /**
   * `await response.json()` or `await response.text()` over a whole body: a
   * failed read rejects with its message; otherwise `read` sees the text.
   */
  function ReadBody<T>(body: Body, read: string -> T, failed: string -> T): T {
    if body.failure.Some? then failed(body.failure.value) else read(Concat(body.chunks))
  }

  /** `LocalAIClient.generateContent`; `streaming` is `CONFIG.streaming`. */
  function LocalGenerate(req: Request, streaming: bool, send: LocalTransport,
                         readCompletion: string -> Extracted, decode: DeltaDecoder): Outcome
  {
    var stream := StreamFlag(req.stream, streaming);
    match send(RequestMessages(req), stream)
    case FetchFailed(m) => Returned(ErrorText(m))
    case Fetched(r) =>
      if !IsOk(r.status) then Returned(ErrorText(StatusLine(LocalStatusLabel, r.status, r.statusText)))
      else if stream then StreamOutcome(r.body, decode)
      else
        match ReadBody(r.body, readCompletion, (m: string) => Unreadable(m))
        case Unreadable(m) => Returned(ErrorText(m))
        case Found(t) => Returned(OrElse(t, NoLocalResponse))
  }

  /** What `LocalAIClient.generateContent` writes to standard output: the streamed deltas, and nothing otherwise. */
  function LocalWritten(req: Request, streaming: bool, send: LocalTransport, decode: DeltaDecoder): string {
    var stream := StreamFlag(req.stream, streaming);
    match send(RequestMessages(req), stream)
    case FetchFailed(_) => ""
    case Fetched(r) => if IsOk(r.status) && stream then ScanChunks(r.body.chunks, decode).text else ""
  }

  /**
   * The call as the client runs it, with the stream read by the reader loop:
   * the outcome and what reaches standard output.
   */
  method GenerateLocal(req: Request, streaming: bool, send: LocalTransport,
                       readCompletion: string -> Extracted, decode: DeltaDecoder)
    returns (outcome: Outcome, written: seq<string>)
    ensures outcome == LocalGenerate(req, streaming, send, readCompletion, decode)
    ensures Concat(written) == LocalWritten(req, streaming, send, decode)
    ensures outcome.Returned? && written != [] ==> outcome.text == Concat(written)
  {
    var stream := StreamFlag(req.stream, streaming);
    var fetched := send(RequestMessages(req), stream);
    written := [];
    match fetched
    case FetchFailed(m) =>
      outcome := Returned(ErrorText(m));
    case Fetched(r) =>
      if !IsOk(r.status) {
        outcome := Returned(ErrorText(StatusLine(LocalStatusLabel, r.status, r.statusText)));
      } else if stream {
        outcome, written := HandleStreamingResponse(r.body, decode);
      } else {
        var data := ReadBody(r.body, readCompletion, (m: string) => Unreadable(m));
        match data
        case Unreadable(m) => outcome := Returned(ErrorText(m));
        case Found(t) => outcome := Returned(OrElse(t, NoLocalResponse));
      }
  }

  /** `HuggingFaceClient.generateContent`; the simulated word-by-word echo is not part of the result. */
  function HfGenerate(req: Request, send: HfTransport, readGenerated: string -> HfData): Outcome {
    match send(RequestPrompt(req))
    case FetchFailed(m) => Returned(ErrorText(m))
    case Fetched(r) =>
      if !IsOk(r.status) then
        ReadBody(r.body, (t: string) => Returned(ErrorText(StatusLine(HfStatusLabel, r.status, t))), (m: string) => Returned(ErrorText(m)))
      else
        match ReadBody(r.body, readGenerated, (m: string) => HfUnreadable(m))
        case HfUnreadable(m) => Returned(ErrorText(m))
        case HfArray(t) => Returned(OrElse(t, NoHfResponse))
        case HfObject(t) => Returned(OrElse(t, NoHfResponse))
  }

  // ---- properties ----

  /** Every error text begins with `Error: ` and keeps the error's message after it. */
  lemma ErrorTextShape(message: string)
    ensures StartsWith(ErrorText(message), "Error: ")
    ensures ErrorText(message)[7..] == message
  {
    StartsWithAppend("Error: ", message);
  }

  /**
   * A status line can be read back: the heading, then the digits of the status,
   * which denote the status, then one space, then the detail.
   */
  lemma StatusLineReadsBack(heading: string, status: nat, detail: string)
    ensures var line, digits := StatusLine(heading, status, detail), NatToString(status);
      |line| == |heading| + |digits| + 1 + |detail|
      && line[..|heading|] == heading
      && line[|heading|..|heading| + |digits|] == digits
      && DigitsValue(digits) == status
      && line[|heading| + |digits|] == ' '
      && line[|heading| + |digits| + 1..] == detail
  {
    NatToStringValue(status);
  }

  /**
   * A failed `fetch` or a non-2xx status is returned, not thrown, as the
   * error text of the failure's message or of the status line.
   */
  lemma LocalFailuresAreText(req: Request, streaming: bool, send: LocalTransport,
                             readCompletion: string -> Extracted, decode: DeltaDecoder)
    ensures var f := send(RequestMessages(req), StreamFlag(req.stream, streaming));
      var o := LocalGenerate(req, streaming, send, readCompletion, decode);
      (f.FetchFailed? ==> o == Returned(ErrorText(f.message))) &&
      (f.Fetched? && !IsOk(f.response.status) ==>
        o == Returned(ErrorText(StatusLine(LocalStatusLabel, f.response.status, f.response.statusText))))
  {
  }

  /**
   * The Local AI call throws exactly when it streams a 2xx body whose read
   * fails before any `[DONE]`, and then with the read's own error.
   */
  lemma LocalThrowsOnlyMidStream(req: Request, streaming: bool, send: LocalTransport,
                                 readCompletion: string -> Extracted, decode: DeltaDecoder)
    ensures var stream := StreamFlag(req.stream, streaming);
      var f := send(RequestMessages(req), stream);
      var o := LocalGenerate(req, streaming, send, readCompletion, decode);
      o.Thrown? <==>
        (stream && f.Fetched? && IsOk(f.response.status) && f.response.body.failure.Some?
         && DoneSentinel !in Payloads(AllLines(f.response.body.chunks)))
    ensures var f := send(RequestMessages(req), StreamFlag(req.stream, streaming));
      var o := LocalGenerate(req, streaming, send, readCompletion, decode);
      o.Thrown? ==> o.message == f.response.body.failure.value
  {
    var f := send(RequestMessages(req), StreamFlag(req.stream, streaming));
    if f.Fetched? {
      StreamReference(f.response.body, decode);
    }
  }

  /** Without streaming the Local AI call never returns an empty text: a missing answer becomes the fallback. */
  lemma LocalPlainNeverEmpty(req: Request, streaming: bool, send: LocalTransport,
                             readCompletion: string -> Extracted, decode: DeltaDecoder)
    requires !StreamFlag(req.stream, streaming)
    ensures var o := LocalGenerate(req, streaming, send, readCompletion, decode);
      o.Returned? && o.text != ""
  {
  }

  /**
   * A streamed 2xx answer that settles returns the concatenated non-empty
   * deltas of the `data: ` payloads before `[DONE]`, which is also exactly
   * what was written to standard output.
   */
  lemma LocalStreamText(req: Request, streaming: bool, send: LocalTransport,
                        readCompletion: string -> Extracted, decode: DeltaDecoder)
    requires StreamFlag(req.stream, streaming)
    requires send(RequestMessages(req), true).Fetched?
    requires IsOk(send(RequestMessages(req), true).response.status)
    ensures var body := send(RequestMessages(req), true).response.body;
      var o := LocalGenerate(req, streaming, send, readCompletion, decode);
      o.Returned? ==>
        o.text == Concat(Contents(BeforeDone(Payloads(AllLines(body.chunks))), decode))
        && o.text == LocalWritten(req, streaming, send, decode)
  {
    var body := send(RequestMessages(req), true).response.body;
    StreamReference(body, decode);
  }

  /**
   * An explicit `stream: false` option makes the answer independent of the
   * delta decoder and writes nothing.
   */
  lemma NoStreamOptionIgnoresDeltas(req: Request, streaming: bool, send: LocalTransport,
                                    readCompletion: string -> Extracted, d1: DeltaDecoder, d2: DeltaDecoder)
    requires req.stream == Some(false)
    ensures LocalGenerate(req, streaming, send, readCompletion, d1) == LocalGenerate(req, streaming, send, readCompletion, d2)
    ensures LocalWritten(req, streaming, send, d1) == ""
  {
  }

  /** The Hugging Face call never throws, and never returns an empty text. */
  lemma HfNeverThrows(req: Request, send: HfTransport, readGenerated: string -> HfData)
    ensures var o := HfGenerate(req, send, readGenerated);
      o.Returned? && o.text != ""
  {
  }

  /**
   * A non-2xx Hugging Face status is returned as the error text of the status
   * line whose detail is the body text, or of the read's error when the body
   * cannot be read.
   */
  lemma HfStatusReported(req: Request, send: HfTransport, readGenerated: string -> HfData)
    requires send(RequestPrompt(req)).Fetched?
    requires !IsOk(send(RequestPrompt(req)).response.status)
    ensures var r := send(RequestPrompt(req)).response;
      HfGenerate(req, send, readGenerated) ==
        if r.body.failure.Some? then Returned(ErrorText(r.body.failure.value))
        else Returned(ErrorText(StatusLine(HfStatusLabel, r.status, Concat(r.body.chunks))))
  {
  }

  /** The Hugging Face answer's shape does not matter: an array's first text and an object's text are treated alike. */
  lemma HfShapesAgree(req: Request, send: HfTransport, read1: string -> HfData, read2: string -> HfData)
    requires send(RequestPrompt(req)).Fetched?
    requires var body := send(RequestPrompt(req)).response.body;
      body.failure.None? && read1(Concat(body.chunks)).HfArray? && read2(Concat(body.chunks)).HfObject?
      && read1(Concat(body.chunks)).firstText == read2(Concat(body.chunks)).text
    ensures HfGenerate(req, send, read1) == HfGenerate(req, send, read2)
  {
  }
}
