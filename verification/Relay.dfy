/**
 Relaying a field-encrypted response: as a decrypted stream, or reassembled into one message.
 The main theorem says that the two agree.
 */
module Relay {
  import opened Bytes
  import opened Client
  import opened Json
  import opened FieldPolicy
  import opened Sse
  import opened ToolCallMerge

  /** A line of the upstream stream. */
  datatype SseLine = Other(text: string) | Done | Data(payload: Payload)

  // ---------------------------------------------------------------- streaming

  ghost function DecryptPayload(p: Payload, s: Session, endpoint: Endpoint): Result<Json> {
    match p
    case NotJson(_) => Err
    case Tree(j) => DecryptChunk(j, s, endpoint)
  }

  /** What the lines make the client see. Without a session the data passes through. */
  ghost function LinesOutput(lines: seq<SseLine>, failed: bool, session: Option<Session>, endpoint: Endpoint): (seq<Emit>, Outcome) {
    if lines == [] then ([], if failed then RelayFailed else Relayed)
    else
      match lines[0]
      case Other(t) => After(Line(t), LinesOutput(lines[1..], failed, session, endpoint))
      case Done => ([DoneLine], Relayed)
      case Data(p) =>
        if session.None? then After(Chunk(p), LinesOutput(lines[1..], failed, session, endpoint))
        else
          match DecryptPayload(p, session.value, endpoint)
          case Err => ([ErrorEvent("stream decryption failed")], DecryptionFailed)
          case Ok(j) => After(Chunk(Tree(j)), LinesOutput(lines[1..], failed, session, endpoint))
  }

  function After(e: Emit, rest: (seq<Emit>, Outcome)): (seq<Emit>, Outcome) {
    ([e] + rest.0, rest.1)
  }

  const STREAM_HEADER: Emit := Header("text/event-stream")

  /** The whole answer: nothing but an error if the stream has no first line. */
  ghost function StreamOutput(lines: seq<SseLine>, failed: bool, session: Option<Session>, endpoint: Endpoint): (seq<Emit>, Outcome) {
    if lines == [] then ([HttpError(502, if failed then "upstream stream error" else "empty upstream stream")], RelayFailed)
    else After(STREAM_HEADER, LinesOutput(lines, failed, session, endpoint))
  }

  /** What one line makes the client see, and whether the relay goes on. */
  ghost function LineOutput(line: SseLine, session: Option<Session>, endpoint: Endpoint): (Emit, Option<Outcome>) {
    match line
    case Other(t) => (Line(t), None)
    case Done => (DoneLine, Some(Relayed))
    case Data(p) =>
      if session.None? then (Chunk(p), None)
      else
        match DecryptPayload(p, session.value, endpoint)
        case Err => (ErrorEvent("stream decryption failed"), Some(DecryptionFailed))
        case Ok(j) => (Chunk(Tree(j)), None)
  }

  lemma FirstLine(lines: seq<SseLine>, failed: bool, session: Option<Session>, endpoint: Endpoint)
    requires lines != []
    ensures var (e, stop) := LineOutput(lines[0], session, endpoint);
            LinesOutput(lines, failed, session, endpoint)
            == if stop.Some? then ([e], stop.value) else After(e, LinesOutput(lines[1..], failed, session, endpoint))
  {
    hide DecryptPayload;
  }

  method RelaySSELine(w: ResponseWriter, line: SseLine, session: Option<Session>, endpoint: Endpoint) returns (done: bool, ok: bool)
    modifies w
    ensures w.out == old(w.out) + [LineOutput(line, session, endpoint).0]
    ensures LineOutput(line, session, endpoint).1
            == if !done then None else if ok then Some(Relayed) else Some(DecryptionFailed)
  {
    if line.Other? {
      w.Write(Line(line.text));
      return false, true;
    }
    if line.Done? {
      w.Write(DoneLine);
      return true, true;
    }
    if session.None? {
      w.Write(Chunk(line.payload));
      return false, true;
    }
    hide DecryptChunk;
    var r: Result<Json> := Err;
    if line.payload.Tree? {
      r := DecryptSSEChunk(line.payload.json, session.value, endpoint);
    }
    if r.Err? {
      w.Write(ErrorEvent("stream decryption failed"));
      return true, false;
    }
    w.Write(Chunk(Tree(r.value)));
    return false, true;
  }

  method RelayStream(w: ResponseWriter, lines: seq<SseLine>, failed: bool, session: Option<Session>, endpoint: Endpoint)
      returns (outcome: Outcome)
    modifies w
    ensures w.canFlush ==>
              var spec := StreamOutput(lines, failed, session, endpoint);
              w.out == old(w.out) + spec.0 && outcome == spec.1
    ensures !w.canFlush ==> w.out == old(w.out) + [HttpError(500, "streaming not supported")] && outcome == RelayFailed
  {
    if !w.canFlush {
      w.Write(HttpError(500, "streaming not supported"));
      return RelayFailed;
    }
    if lines == [] {
      w.Write(HttpError(502, if failed then "upstream stream error" else "empty upstream stream"));
      return RelayFailed;
    }
    w.Write(STREAM_HEADER);
    outcome := RelayLines(w, lines, failed, session, endpoint);
  }

  /** The lines, one by one, until one of them ends the stream. */
  method RelayLines(w: ResponseWriter, lines: seq<SseLine>, failed: bool, session: Option<Session>, endpoint: Endpoint)
      returns (outcome: Outcome)
    modifies w
    ensures var spec := LinesOutput(lines, failed, session, endpoint);
            w.out == old(w.out) + spec.0 && outcome == spec.1
  {
    hide LineOutput, LinesOutput;
    ghost var rest := LinesOutput(lines, failed, session, endpoint);
    ghost var whole := (w.out + rest.0, rest.1);
    var i := 0;
    assert lines[0..] == lines;
    while i < |lines|
      invariant 0 <= i <= |lines|
      invariant Completing(w.out, LinesOutput(lines[i..], failed, session, endpoint), whole)
    {
      assert lines[i..][1..] == lines[i + 1..];
      FirstLine(lines[i..], failed, session, endpoint);
      ghost var written := w.out;
      var done, ok := RelaySSELine(w, lines[i], session, endpoint);
      if done {
        return if ok then Relayed else DecryptionFailed;
      }
      WroteSome(written, [LineOutput(lines[i], session, endpoint).0], LinesOutput(lines[i + 1..], failed, session, endpoint), whole);
      i := i + 1;
    }
    assert lines[i..] == [];
    EndOfLines(failed, session, endpoint);
    return if failed then RelayFailed else Relayed;
  }

  lemma EndOfLines(failed: bool, session: Option<Session>, endpoint: Endpoint)
    ensures LinesOutput([], failed, session, endpoint) == ([], if failed then RelayFailed else Relayed)
  {
  }

  // ---------------------------------------------------------------- reassembling

  /** The data up to the end marker. */
  function Chunks(lines: seq<SseLine>): seq<Payload> {
    if lines == [] || lines[0].Done? then []
    else (if lines[0].Data? then [lines[0].payload] else []) + Chunks(lines[1..])
  }

  datatype Acc = Acc(fields: map<string, string>, calls: Calls, finish: string, last: Option<Json>)

  const INIT: Acc := Acc(map[], map[], "", None)

  function TextAt(fields: map<string, string>, key: string): string {
    if key in fields then fields[key] else ""
  }

  /** Appends each text to its field. */
  function AddTexts(fields: map<string, string>, texts: map<string, string>): map<string, string> {
    map k | k in fields.Keys + texts.Keys :: TextAt(fields, k) + TextAt(texts, k)
  }

  ghost function Step(acc: Acc, p: Payload, s: Session, endpoint: Endpoint): Result<Acc> {
    if p.NotJson? then Err
    else
      match (ChunkTexts(p.json, s, endpoint), ChunkMeta(p.json, s, endpoint))
      case (Ok(texts), Ok(meta)) =>
        (match MergeRaw(acc.calls, meta.calls)
         case Err => Err
         case Ok(calls) => Ok(Acc(AddTexts(acc.fields, texts), calls, Override(acc.finish, meta.finish), Some(p.json))))
      case _ => Err
  }

  ghost function Fold(acc: Acc, chunks: seq<Payload>, s: Session, endpoint: Endpoint): Result<Acc>
    decreases chunks
  {
    if chunks == [] then Ok(acc)
    else
      match Step(acc, chunks[0], s, endpoint)
      case Err => Err
      case Ok(next) => Fold(next, chunks[1..], s, endpoint)
  }

  datatype Completion = Completion(id: string, model: string, created: int, message: Fields, finish: string)

  datatype Envelope = Envelope(id: string, model: string, created: int)

  /** The identity of the response, from the last chunk. */
  function ParseEnvelope(j: Json): Result<Envelope> {
    if j.Null? then Ok(Envelope("", "", 0))
    else if !j.Obj? then Err
    else
      var created := if Present(j.fields, "created") then j.fields["created"] else Int(0);
      if !created.Int? || !IsInt64(created.n) then Err
      else
        match (StringMember(j.fields, "id"), StringMember(j.fields, "model"))
        case (Ok(id), Ok(model)) => Ok(Envelope(id, model, created.n))
        case _ => Err
  }

  function RenderCall(tc: ToolCall): Json {
    Obj(map["id" := Str(tc.id), "type" := Str(tc.kind),
            "function" := Obj(map["name" := Str(tc.name), "arguments" := Str(tc.arguments)])])
  }

  ghost predicate Renders(items: seq<Json>, calls: Calls, indices: seq<int64>) {
    |items| == |indices| && forall i :: 0 <= i < |indices| ==> items[i] == RenderCall(CallAt(calls, indices[i]))
  }

  /** `j` shows the calls, each once, in ascending order of index. */
  ghost predicate ShowsCalls(j: Json, calls: Calls) {
    j.Arr? && exists indices :: Lists(indices, calls.Keys) && Renders(j.items, calls, indices)
  }

  ghost predicate MessageOf(acc: Acc, message: Fields) {
    && message.Keys == {"role"} + acc.fields.Keys + (if acc.calls != map[] then {"tool_calls"} else {})
    && (acc.calls != map[] ==> ShowsCalls(message["tool_calls"], acc.calls))
    && (forall k <- acc.fields :: (k == "tool_calls" && acc.calls != map[]) || message[k] == Str(acc.fields[k]))
    && ("role" !in acc.fields ==> message["role"] == Str("assistant"))
  }

  ghost predicate Completes(acc: Acc, c: Completion) {
    && acc.last.Some? && ParseEnvelope(acc.last.value) == Ok(Envelope(c.id, c.model, c.created))
    && c.finish == Override("stop", acc.finish)
    && MessageOf(acc, c.message)
  }

  /** Whether the chunks, once folded, make a response. */
  ghost predicate CanComplete(acc: Acc, failed: bool) {
    !failed && acc.last.Some? && ParseEnvelope(acc.last.value).Ok?
  }

  /** A stream that can be reassembled into one message. */
  ghost predicate Reassembles(lines: seq<SseLine>, failed: bool, s: Session, endpoint: Endpoint) {
    var folded := Fold(INIT, Chunks(lines), s, endpoint);
    folded.Ok? && CanComplete(folded.value, failed)
  }

  method AppendTexts(fields: map<string, string>, texts: map<string, string>) returns (r: map<string, string>)
    ensures r == AddTexts(fields, texts)
  {
    r := fields;
    var todo := texts.Keys;
    while todo != {}
      invariant todo <= texts.Keys
      invariant r.Keys == fields.Keys + (texts.Keys - todo)
      invariant forall k <- r :: r[k] == TextAt(fields, k) + if k in todo then "" else TextAt(texts, k)
      decreases todo
    {
      var k :| k in todo;
      todo := todo - {k};
      if k !in r {
        r := r[k := ""];
      }
      r := r[k := r[k] + texts[k]];
    }
  }

  method RenderCalls(calls: Calls) returns (j: Json)
    ensures ShowsCalls(j, calls)
  {
    hide Lists, RenderCall, CallAt;
    var indices, sorted := SortedToolCalls(calls);
    j := Arr(seq(|sorted|, i requires 0 <= i < |sorted| => RenderCall(sorted[i])));
  }

  method BuildMessage(fields: map<string, string>, calls: Calls, ghost acc: Acc) returns (message: Fields)
    requires acc.fields == fields && acc.calls == calls
    ensures MessageOf(acc, message)
  {
    hide ShowsCalls;
    message := map["role" := Str("assistant")] + map k <- fields :: Str(fields[k]);
    if calls != map[] {
      var rendered := RenderCalls(calls);
      message := message["tool_calls" := rendered];
    }
  }

  /**
   `failed` is what the scanner reports once the loop has stopped. At the end marker that is a
   matter of buffering: an error behind the marker counts only if the scanner has already met it.
   Nothing is assumed about it, so both answers are covered.
   */
  method ReassembleNonStream(lines: seq<SseLine>, failed: bool, s: Session, endpoint: Endpoint) returns (r: Result<Completion>)
    ensures var folded := Fold(INIT, Chunks(lines), s, endpoint);
            if folded.Ok? && CanComplete(folded.value, failed) then r.Ok? && Completes(folded.value, r.value) else r.Err?
  {
    var fields: map<string, string> := map[];
    var toolCalls := new ToolCalls();
    var finishReason := "";
    var last: Option<Json> := None;
    hide ChunkTexts, ChunkMeta, ParseEnvelope, MessageOf, AddTexts, MergeRaw;
    var i := 0;
    while i < |lines| && !lines[i].Done?
      invariant 0 <= i <= |lines| && fresh(toolCalls)
      invariant Fold(INIT, Chunks(lines), s, endpoint)
                == Fold(Acc(fields, toolCalls.calls, finishReason, last), Chunks(lines[i..]), s, endpoint)
      modifies toolCalls
    {
      assert lines[i..][1..] == lines[i + 1..];
      assert Chunks(lines[i..]) == (if lines[i].Data? then [lines[i].payload] else []) + Chunks(lines[i + 1..]);
      if lines[i].Data? {
        assert Chunks(lines[i..])[1..] == Chunks(lines[i + 1..]);
        if lines[i].payload.NotJson? {
          return Err;
        }
        var data := lines[i].payload.json;
        ghost var before := Acc(fields, toolCalls.calls, finishReason, last);
        var texts := DecryptSSEChunkContent(data, s, endpoint);
        if texts.Err? {
          return Err;
        }
        fields := AppendTexts(fields, texts.value);
        var meta := ExtractChunkMeta(data, s, endpoint);
        if meta.Err? {
          return Err;
        }
        var ok := toolCalls.MergeAll(meta.value.calls);
        if !ok {
          return Err;
        }
        finishReason := Override(finishReason, meta.value.finish);
        last := Some(data);
        assert Step(before, lines[i].payload, s, endpoint) == Ok(Acc(fields, toolCalls.calls, finishReason, last));
      } else {
        assert Chunks(lines[i..]) == Chunks(lines[i + 1..]);
      }
      i := i + 1;
    }
    ghost var acc := Acc(fields, toolCalls.calls, finishReason, last);
    assert Chunks(lines[i..]) == [];
    if failed || last.None? {
      return Err;
    }
    var envelope := ParseEnvelope(last.value);
    if envelope.Err? {
      return Err;
    }
    var message := BuildMessage(fields, toolCalls.calls, acc);
    r := Ok(Completion(envelope.value.id, envelope.value.model, envelope.value.created, message, Override("stop", finishReason)));
  }

  function RenderCompletion(c: Completion): Json {
    Obj(map["id" := Str(c.id), "object" := Str("chat.completion"), "created" := Int(c.created), "model" := Str(c.model),
            "choices" := Arr([Obj(map["index" := Int(0), "message" := Obj(c.message), "finish_reason" := Str(c.finish)])])])
  }

  /** `out` and `outcome` are an answer to a non-streaming request over a forced stream. */
  ghost predicate ReassembledOutput(lines: seq<SseLine>, failed: bool, s: Session, endpoint: Endpoint, out: seq<Emit>, outcome: Outcome) {
    var folded := Fold(INIT, Chunks(lines), s, endpoint);
    if folded.Ok? && CanComplete(folded.value, failed) then
      outcome == Relayed
      && exists c :: Completes(folded.value, c) && out == [Header("application/json"), JsonBody(RenderCompletion(c))]
    else outcome == DecryptionFailed && out == [HttpError(502, "response decryption failed")]
  }

  method RelayReassembledNonStream(w: ResponseWriter, lines: seq<SseLine>, failed: bool, s: Session, endpoint: Endpoint)
      returns (outcome: Outcome)
    modifies w
    ensures exists out :: w.out == old(w.out) + out && ReassembledOutput(lines, failed, s, endpoint, out, outcome)
  {
    hide Fold, CanComplete, Completes, RenderCompletion;
    var r := ReassembleNonStream(lines, failed, s, endpoint);
    ghost var before := w.out;
    ghost var out: seq<Emit>;
    if r.Err? {
      w.Write(HttpError(502, "response decryption failed"));
      outcome := DecryptionFailed;
      out := [HttpError(502, "response decryption failed")];
    } else {
      w.Write(Header("application/json"));
      w.Write(JsonBody(RenderCompletion(r.value)));
      outcome := Relayed;
      out := [Header("application/json"), JsonBody(RenderCompletion(r.value))];
    }
    assert w.out == before + out && ReassembledOutput(lines, failed, s, endpoint, out, outcome);
  }
}
