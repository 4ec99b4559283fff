/**
 * `LocalAIClient.handleStreamingResponse`: the reader loop over a streamed
 * chat-completion body. It follows a small part of the server-sent-events
 * framing of the WHATWG HTML Living Standard, section 9.2 "Server-sent
 * events": each chunk read is split into lines on its own, blank lines are
 * dropped, only lines that begin exactly with `data: ` are read, the payload
 * `[DONE]` ends the stream, and a payload that does not parse adds nothing.
 */
module Stream {
  import opened Wrappers
  import opened Strings
  import opened Records

  /**
   * A response body as the reader delivers it: the decoded text of each chunk
   * in order, and then either the end of the stream (`None`) or a read that
   * fails with the given message.
   */
  datatype Body = Body(chunks: seq<string>, failure: Option<string>)

  /**
   * JSON decoding of one payload followed by `choices?.[0]?.delta?.content || ''`:
   * `None` when `JSON.parse` throws, otherwise the content, with `""` for a
   * content that is missing or falsy.
   */
  type DeltaDecoder = string -> Option<string>

  const DataPrefix: string := "data: "
  const DoneSentinel: string := "[DONE]"

  /** `line.trim() === ''`, stated as the characters it is made of (see `BlankIsTrimEmpty`). */
  predicate Blank(line: string) {
    forall i :: 0 <= i < |line| ==> IsWhitespace(line[i])
  }

  lemma BlankIsTrimEmpty(line: string)
    ensures Blank(line) <==> Trim(line) == ""
  {
    TrimEmptyIff(line);
  }

  /** The lines that survive `filter(line => line.trim() !== '')`, in order. */
  function NonBlank(lines: seq<string>): (r: seq<string>)
    ensures |r| <= |lines|
    decreases |lines|
  {
    if lines == [] then []
    else if Blank(lines[0]) then NonBlank(lines[1..])
    else [lines[0]] + NonBlank(lines[1..])
  }

  /** `chunk.split('\n').filter(line => line.trim() !== '')`. */
  function Lines(chunk: string): seq<string> {
    NonBlank(Split(chunk, '\n'))
  }

  /** What one line does to the decoder. */
  datatype LineEffect = Skip | Stop | Emit(content: string)

  function Effect(line: string, decode: DeltaDecoder): (e: LineEffect)
    ensures e.Stop? <==> line == DataPrefix + DoneSentinel
    ensures e.Emit? ==> StartsWith(line, DataPrefix) && decode(line[6..]) == Some(e.content) && e.content != ""
    ensures !StartsWith(line, DataPrefix) ==> e.Skip?
  {
    if !StartsWith(line, DataPrefix) then Skip
    else
      assert line == line[..6] + line[6..];
      if line[6..] == DoneSentinel then Stop
      else match decode(line[6..])
        case None => Skip
        case Some(content) => if content != "" then Emit(content) else Skip
  }

  /** The text decoded from part of a stream, and whether `[DONE]` was seen in it. */
  datatype Decoded = Decoded(text: string, stopped: bool)

  function Prepend(t: string, d: Decoded): Decoded {
    Decoded(t + d.text, d.stopped)
  }

  /** Decoding `first` and then, unless it stopped, whatever follows. */
  function Then(first: Decoded, next: Decoded): Decoded {
    if first.stopped then first else Prepend(first.text, next)
  }

  /** The lines of one chunk, read in order up to the first `[DONE]`. */
  function ScanLines(lines: seq<string>, decode: DeltaDecoder): Decoded
    decreases |lines|
  {
    if lines == [] then Decoded("", false)
    else match Effect(lines[0], decode)
      case Stop => Decoded("", true)
      case Skip => ScanLines(lines[1..], decode)
      case Emit(content) => Prepend(content, ScanLines(lines[1..], decode))
  }

  /** The chunks read in order, each split into lines on its own. */
  function ScanChunks(chunks: seq<string>, decode: DeltaDecoder): Decoded
    decreases |chunks|
  {
    if chunks == [] then Decoded("", false)
    else Then(ScanLines(Lines(chunks[0]), decode), ScanChunks(chunks[1..], decode))
  }

  /**
   * How `handleStreamingResponse` settles: with the text up to `[DONE]`, with
   * the text of the whole body when it ends, or by rethrowing a failed read.
   */
  function StreamOutcome(body: Body, decode: DeltaDecoder): Outcome {
    var d := ScanChunks(body.chunks, decode);
    if d.stopped || body.failure.None? then Returned(d.text) else Thrown(body.failure.value)
  }

  lemma PrependPrepend(a: string, b: string, d: Decoded)
    ensures Prepend(a, Prepend(b, d)) == Prepend(a + b, d)
  {
    AppendAssoc(a, b, d.text);
  }

  lemma ThenPrepend(c: string, first: Decoded, next: Decoded)
    ensures Then(Prepend(c, first), next) == Prepend(c, Then(first, next))
  {
    if !first.stopped {
      PrependPrepend(c, first.text, next);
    }
  }

  /** One line of the loop, stated with the tests the loop makes. */
  lemma LineStep(lines: seq<string>, li: nat, decode: DeltaDecoder)
    requires li < |lines|
    ensures var line := lines[li];
      ScanLines(lines[li..], decode) ==
        if !StartsWith(line, DataPrefix) then ScanLines(lines[li + 1..], decode)
        else if line[6..] == DoneSentinel then Decoded("", true)
        else if decode(line[6..]).Some? && decode(line[6..]).value != "" then
          Prepend(decode(line[6..]).value, ScanLines(lines[li + 1..], decode))
        else ScanLines(lines[li + 1..], decode)
  {
    assert lines[li..][0] == lines[li] && lines[li..][1..] == lines[li + 1..];
  }

  lemma ConcatSnoc(parts: seq<string>, x: string)
    ensures Concat(parts + [x]) == Concat(parts) + x
  {
    ConcatAppend(parts, [x]);
    assert Concat([x]) == x + Concat([]);
  }

  /**
   * The `for (const line of lines)` loop over one chunk: it appends each
   * content to `fullResponse` and to what is written, and reports whether it
   * met `[DONE]`, where the source returns at once.
   */
  method ReadLines(lines: seq<string>, decode: DeltaDecoder, fullBefore: string, writtenBefore: seq<string>)
    returns (fullResponse: string, written: seq<string>, done: bool)
    requires Concat(writtenBefore) == fullBefore
    requires forall i :: 0 <= i < |writtenBefore| ==> writtenBefore[i] != ""
    ensures Decoded(fullResponse, done) == Prepend(fullBefore, ScanLines(lines, decode))
    ensures Concat(written) == fullResponse
    ensures forall i :: 0 <= i < |written| ==> written[i] != ""
  {
    fullResponse, written := fullBefore, writtenBefore;
    assert lines[0..] == lines;
    assert fullResponse + ScanLines(lines, decode).text == fullBefore + ScanLines(lines, decode).text;
    var li := 0;
    while li < |lines|
      invariant 0 <= li <= |lines|
      invariant Prepend(fullBefore, ScanLines(lines, decode)) == Prepend(fullResponse, ScanLines(lines[li..], decode))
      invariant Concat(written) == fullResponse
      invariant forall i :: 0 <= i < |written| ==> written[i] != ""
    {
      var line := lines[li];
      LineStep(lines, li, decode);
      if StartsWith(line, DataPrefix) {
        var data := line[6..];
        if data == DoneSentinel {
          assert fullResponse + "" == fullResponse;
          return fullResponse, written, true;
        }
        var parsed := decode(data);
        if parsed.Some? && parsed.value != "" {
          var content := parsed.value;
          PrependPrepend(fullResponse, content, ScanLines(lines[li + 1..], decode));
          ConcatSnoc(written, content);
          written := written + [content];
          fullResponse := fullResponse + content;
        }
      }
      li := li + 1;
    }
    assert lines[li..] == [];
    assert fullResponse + "" == fullResponse;
    done := false;
  }

  /**
   * The reader loop. `written` is what it passes to `process.stdout.write`,
   * in order; the outcome is how the returned promise settles.
   */
  method HandleStreamingResponse(body: Body, decode: DeltaDecoder) returns (outcome: Outcome, written: seq<string>)
    ensures outcome == StreamOutcome(body, decode)
    ensures Concat(written) == ScanChunks(body.chunks, decode).text
    ensures forall i :: 0 <= i < |written| ==> written[i] != ""
    ensures outcome.Returned? ==> outcome.text == Concat(written)
  {
    var fullResponse := "";
    written := [];
    var ci := 0;
    assert body.chunks[0..] == body.chunks;
    assert "" + ScanChunks(body.chunks, decode).text == ScanChunks(body.chunks, decode).text;
    while ci < |body.chunks|
      invariant 0 <= ci <= |body.chunks|
      invariant ScanChunks(body.chunks, decode) == Prepend(fullResponse, ScanChunks(body.chunks[ci..], decode))
      invariant Concat(written) == fullResponse
      invariant forall i :: 0 <= i < |written| ==> written[i] != ""
    {
      ghost var before := fullResponse;
      ghost var first := ScanLines(Lines(body.chunks[ci]), decode);
      ghost var later := ScanChunks(body.chunks[ci + 1..], decode);
      assert body.chunks[ci..][1..] == body.chunks[ci + 1..];
      assert ScanChunks(body.chunks[ci..], decode) == Then(first, later);
      var done;
      fullResponse, written, done := ReadLines(Lines(body.chunks[ci]), decode, fullResponse, written);
      if done {
        assert ScanChunks(body.chunks, decode) == Prepend(before, first);
        outcome := Returned(fullResponse);
        return;
      }
      PrependPrepend(before, first.text, later);
      ci := ci + 1;
    }
    assert fullResponse + "" == fullResponse;
    match body.failure
    case None => outcome := Returned(fullResponse);
    case Some(e) => outcome := Thrown(e);
  }

  // ---- properties of the decoder ----

  lemma PrependEmpty(d: Decoded)
    ensures Prepend("", d) == d
  {
    assert "" + d.text == d.text;
  }

  /** Reading two runs of lines one after the other is reading the first and then, unless it stopped, the second. */
  lemma {:induction false} ScanLinesAppend(a: seq<string>, b: seq<string>, decode: DeltaDecoder)
    ensures ScanLines(a + b, decode) == Then(ScanLines(a, decode), ScanLines(b, decode))
    decreases |a|
  {
    if a == [] {
      assert a + b == b;
      PrependEmpty(ScanLines(b, decode));
    } else {
      assert (a + b)[0] == a[0] && (a + b)[1..] == a[1..] + b;
      ScanLinesAppend(a[1..], b, decode);
      match Effect(a[0], decode)
      case Stop =>
      case Skip =>
      case Emit(content) =>
        ThenPrepend(content, ScanLines(a[1..], decode), ScanLines(b, decode));
    }
  }

  /** Every line the reader looks at, chunk after chunk. */
  function AllLines(chunks: seq<string>): seq<string>
    decreases |chunks|
  {
    if chunks == [] then [] else Lines(chunks[0]) + AllLines(chunks[1..])
  }

  lemma {:induction false} AllLinesAppend(a: seq<string>, b: seq<string>)
    ensures AllLines(a + b) == AllLines(a) + AllLines(b)
    decreases |a|
  {
    if a == [] {
      assert a + b == b;
    } else {
      assert (a + b)[0] == a[0] && (a + b)[1..] == a[1..] + b;
      AllLinesAppend(a[1..], b);
    }
  }

  /** Reading chunk by chunk is reading the lines of all chunks in one run. */
  lemma {:induction false} ScanChunksFlat(chunks: seq<string>, decode: DeltaDecoder)
    ensures ScanChunks(chunks, decode) == ScanLines(AllLines(chunks), decode)
    decreases |chunks|
  {
    if chunks != [] {
      ScanChunksFlat(chunks[1..], decode);
      ScanLinesAppend(Lines(chunks[0]), AllLines(chunks[1..]), decode);
    }
  }

  /** The payloads of the lines that begin with `data: `, in order. */
  function Payloads(lines: seq<string>): (ps: seq<string>)
    ensures |ps| <= |lines|
    decreases |lines|
  {
    if lines == [] then []
    else if StartsWith(lines[0], DataPrefix) then [lines[0][6..]] + Payloads(lines[1..])
    else Payloads(lines[1..])
  }

  /** The payloads before the first `[DONE]`. */
  function BeforeDone(ps: seq<string>): (r: seq<string>)
    ensures DoneSentinel !in r
    ensures |r| <= |ps| && r == ps[..|r|]
    ensures |r| < |ps| ==> ps[|r|] == DoneSentinel
    decreases |ps|
  {
    if ps == [] then []
    else if ps[0] == DoneSentinel then []
    else
      var rest := BeforeDone(ps[1..]);
      assert ps[..|rest| + 1] == [ps[0]] + ps[1..][..|rest|];
      [ps[0]] + rest
  }

  /** The non-empty contents of the payloads that parse, in order. */
  function Contents(ps: seq<string>, decode: DeltaDecoder): (cs: seq<string>)
    ensures forall i :: 0 <= i < |cs| ==> cs[i] != ""
    decreases |ps|
  {
    if ps == [] then []
    else match decode(ps[0])
      case Some(c) => if c != "" then [c] + Contents(ps[1..], decode) else Contents(ps[1..], decode)
      case None => Contents(ps[1..], decode)
  }

  /**
   * The decoder against its reference: the text is the concatenation of the
   * non-empty contents of the `data: ` payloads before the first `[DONE]`,
   * and the decoder stops exactly when some `data: ` payload is `[DONE]`.
   */
  lemma {:induction false} ScanLinesReference(lines: seq<string>, decode: DeltaDecoder)
    ensures ScanLines(lines, decode).text == Concat(Contents(BeforeDone(Payloads(lines)), decode))
    ensures ScanLines(lines, decode).stopped <==> DoneSentinel in Payloads(lines)
    decreases |lines|
  {
    if lines != [] {
      var line, rest := lines[0], lines[1..];
      ScanLinesReference(rest, decode);
      if StartsWith(line, DataPrefix) {
        var d := line[6..];
        var ps := Payloads(rest);
        assert Payloads(lines) == [d] + ps;
        assert ([d] + ps)[0] == d && ([d] + ps)[1..] == ps;
        if d != DoneSentinel {
          var before := BeforeDone(ps);
          assert BeforeDone([d] + ps) == [d] + before;
          assert ([d] + before)[0] == d && ([d] + before)[1..] == before;
          match decode(d)
          case None =>
          case Some(c) =>
            if c != "" {
              var cs := Contents(before, decode);
              assert ([c] + cs)[0] == c && ([c] + cs)[1..] == cs;
            }
        }
      }
    }
  }

  /**
   * How the stream settles, stated on the reference: it returns the
   * concatenated contents of the payloads before `[DONE]` unless a read fails
   * before any `[DONE]`, in which case the failure is rethrown.
   */
  lemma StreamReference(body: Body, decode: DeltaDecoder)
    ensures var ps := Payloads(AllLines(body.chunks));
      StreamOutcome(body, decode) ==
        if DoneSentinel in ps || body.failure.None? then Returned(Concat(Contents(BeforeDone(ps), decode)))
        else Thrown(body.failure.value)
  {
    ScanChunksFlat(body.chunks, decode);
    ScanLinesReference(AllLines(body.chunks), decode);
  }

  /** Nothing read after `[DONE]` counts: neither later chunks nor a later failed read. */
  lemma NothingAfterDone(chunks: seq<string>, more: seq<string>, failure: Option<string>, decode: DeltaDecoder)
    requires ScanChunks(chunks, decode).stopped
    ensures StreamOutcome(Body(chunks + more, failure), decode) == StreamOutcome(Body(chunks, None), decode)
  {
    ScanChunksFlat(chunks, decode);
    ScanChunksFlat(chunks + more, decode);
    AllLinesAppend(chunks, more);
    ScanLinesAppend(AllLines(chunks), AllLines(more), decode);
  }

  lemma BlankIsNotData(line: string)
    ensures Blank(line) ==> !StartsWith(line, DataPrefix)
  {
    if |line| >= 6 {
      assert line[..6][0] == line[0];
      assert !IsWhitespace('d');
    }
  }

  /** Blank lines could never count, so dropping them changes nothing. */
  lemma {:induction false} BlankLinesIrrelevant(lines: seq<string>, decode: DeltaDecoder)
    ensures ScanLines(NonBlank(lines), decode) == ScanLines(lines, decode)
    decreases |lines|
  {
    if lines != [] {
      BlankLinesIrrelevant(lines[1..], decode);
      var line := lines[0];
      if Blank(line) {
        BlankIsNotData(line);
      } else {
        var nb := NonBlank(lines[1..]);
        assert ([line] + nb)[0] == line && ([line] + nb)[1..] == nb;
      }
    }
  }

  /** A chunk holding one non-blank line and no line break is read as that line. */
  lemma SingleLineChunk(chunk: string, decode: DeltaDecoder)
    requires '\n' !in chunk && !Blank(chunk)
    ensures Lines(chunk) == [chunk]
    ensures ScanChunks([chunk], decode) == Then(ScanLines([chunk], decode), Decoded("", false))
  {
    SplitWithoutSeparator(chunk, '\n');
    assert [chunk][1..] == [];
  }

  lemma WholeFrame(decode: DeltaDecoder)
    requires decode("1") == Some("a")
    ensures ScanChunks(["data: 1"], decode) == Decoded("a", false)
  {
    var whole := "data: 1";
    assert whole[0] == 'd';
    SingleLineChunk(whole, decode);
    assert whole[..6] == DataPrefix && whole[6..] == "1";
    assert Effect(whole, decode) == Emit("a");
    assert [whole][1..] == [];
    assert "a" + "" == "a";
  }

  lemma CutFrame(decode: DeltaDecoder)
    ensures ScanChunks(["data", ": 1"], decode) == Decoded("", false)
  {
    var head, tail := "data", ": 1";
    assert head[0] == 'd' && tail[0] == ':';
    SingleLineChunk(head, decode);
    SingleLineChunk(tail, decode);
    assert Effect(head, decode) == Skip && Effect(tail, decode) == Skip;
    assert [head, tail][1..] == [tail] && [tail][1..] == [] && [head][1..] == [];
    assert "" + "" == "";
  }

  /**
   * Each chunk is split on its own, so a frame cut in two by the transport is
   * lost: the same characters give a content in one read and nothing in two.
   */
  lemma StraddledFrameLost(decode: DeltaDecoder)
    requires decode("1") == Some("a")
    ensures StreamOutcome(Body(["data: 1"], None), decode) == Returned("a")
    ensures StreamOutcome(Body(["data", ": 1"], None), decode) == Returned("")
  {
    WholeFrame(decode);
    CutFrame(decode);
  }
}
