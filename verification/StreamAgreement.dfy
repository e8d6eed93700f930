/**
 Streaming and reassembly agree: the reassembled message is what a client would put together from
 the decrypted stream.
 */
module StreamAgreement {
  import opened Bytes
  import opened Client
  import opened Json
  import opened FieldPolicy
  import opened Decryption
  import opened DecryptedValues
  import opened Sse
  import opened ToolCallMerge
  import opened Relay

  // ---------------------------------------------------------------- what a client sees

  /** The delta of the first choice of a chunk the client received. */
  function ShownDelta(j: Json): Fields {
    var p := Locate(j);
    if p.At? then AsObject(p.delta).value else map[]
  }

  /** The deltas of a decrypted stream. */
  function ShownDeltas(out: seq<Emit>): seq<Fields> {
    if out == [] then []
    else
      (if out[0].Chunk? && out[0].payload.Tree? then [ShownDelta(out[0].payload.json)] else []) + ShownDeltas(out[1..])
  }

  function ShownText(delta: Fields, key: string): string {
    if key in delta && delta[key].Str? then delta[key].s else ""
  }

  function ShownTexts(deltas: seq<Fields>, key: string): string {
    if deltas == [] then "" else ShownText(deltas[0], key) + ShownTexts(deltas[1..], key)
  }

  function ShownCalls(delta: Fields): seq<Json> {
    if "tool_calls" in delta && delta["tool_calls"].Arr? then delta["tool_calls"].items else []
  }

  function AllShownCalls(deltas: seq<Fields>): seq<Json> {
    if deltas == [] then [] else ShownCalls(deltas[0]) + AllShownCalls(deltas[1..])
  }

  // ---------------------------------------------------------------- line by line

  /** What the client sees of one line: its chunk decrypted, if there is a session, and any other line as it is. */
  ghost predicate LineShown(line: SseLine, e: Emit, session: Option<Session>, endpoint: Endpoint) {
    match line
    case Other(t) => e == Line(t)
    case Done => e == DoneLine
    case Data(p) =>
      && e.Chunk?
      && if session.None? then e.payload == p
         else p.Tree? && e.payload.Tree? && ChunkShown(p.json, e.payload.json, session.value, endpoint)
  }

  /** Lines up to the end marker, each of which can be shown. */
  ghost predicate AllShown(lines: seq<SseLine>, out: seq<Emit>, session: Option<Session>, endpoint: Endpoint) {
    && |out| <= |lines|
    && forall i :: 0 <= i < |out| ==> LineShown(lines[i], out[i], session, endpoint) && (lines[i].Done? ==> i == |out| - 1)
  }

  /** The lines are shown one for one, up to the end marker, the end, or a chunk that cannot be decrypted. */
  ghost predicate StreamShown(lines: seq<SseLine>, failed: bool, session: Option<Session>, endpoint: Endpoint, out: seq<Emit>, outcome: Outcome) {
    match outcome
    case Relayed =>
      && AllShown(lines, out, session, endpoint)
      && if out != [] && lines[|out| - 1].Done? then true else |out| == |lines| && !failed
    case RelayFailed =>
      && AllShown(lines, out, session, endpoint)
      && |out| == |lines| && failed && (out != [] ==> !lines[|out| - 1].Done?)
    case DecryptionFailed =>
      && out != [] && |out| <= |lines| && out[|out| - 1] == ErrorEvent("stream decryption failed")
      && AllShown(lines, out[..|out| - 1], session, endpoint)
      && (|out| > 1 ==> !lines[|out| - 2].Done?)
      && session.Some? && Undecryptable(lines[|out| - 1], session.value, endpoint)
  }

  /** A data line that is not JSON, or whose chunk is refused. */
  ghost predicate Undecryptable(line: SseLine, s: Session, endpoint: Endpoint) {
    line.Data? && (line.payload.NotJson? || DecryptChunk(line.payload.json, s, endpoint).Err?)
  }

  lemma OneLineShown(line: SseLine, session: Option<Session>, endpoint: Endpoint)
    ensures var (e, stop) := LineOutput(line, session, endpoint);
            && (stop != Some(DecryptionFailed) ==> LineShown(line, e, session, endpoint))
            && stop == (if line.Done? then Some(Relayed)
                        else if session.Some? && Undecryptable(line, session.value, endpoint) then Some(DecryptionFailed) else None)
            && (stop == Some(DecryptionFailed) ==> e == ErrorEvent("stream decryption failed"))
  {
    hide DecryptChunk, ChunkShown;
    if line.Data? && session.Some? && line.payload.Tree? && DecryptChunk(line.payload.json, session.value, endpoint).Ok? {
      DecryptedChunk(line.payload.json, session.value, endpoint);
    }
  }

  lemma {:induction false} LinesShown(lines: seq<SseLine>, failed: bool, session: Option<Session>, endpoint: Endpoint)
    ensures var (out, outcome) := LinesOutput(lines, failed, session, endpoint);
            StreamShown(lines, failed, session, endpoint, out, outcome)
    decreases lines
  {
    hide LineOutput, LineShown, Undecryptable, LinesOutput;
    if lines == [] {
      EndOfLines(failed, session, endpoint);
    } else {
      var (e, stop) := LineOutput(lines[0], session, endpoint);
      FirstLine(lines, failed, session, endpoint);
      OneLineShown(lines[0], session, endpoint);
      if stop.None? {
        LinesShown(lines[1..], failed, session, endpoint);
        OneMoreLine(lines, failed, session, endpoint, e, LinesOutput(lines[1..], failed, session, endpoint));
      }
    }
  }

  lemma OneMoreLine(lines: seq<SseLine>, failed: bool, session: Option<Session>, endpoint: Endpoint, e: Emit, rest: (seq<Emit>, Outcome))
    requires lines != [] && !lines[0].Done? && LineShown(lines[0], e, session, endpoint)
    requires StreamShown(lines[1..], failed, session, endpoint, rest.0, rest.1)
    ensures StreamShown(lines, failed, session, endpoint, [e] + rest.0, rest.1)
  {
    hide LineShown, Undecryptable;
    if rest.1 == DecryptionFailed {
      assert ([e] + rest.0)[..|rest.0|] == [e] + rest.0[..|rest.0| - 1];
    }
  }

  /** The whole stream: a header and the lines, or one error where there is no line. */
  lemma StreamLineByLine(lines: seq<SseLine>, failed: bool, session: Option<Session>, endpoint: Endpoint)
    ensures var (out, outcome) := StreamOutput(lines, failed, session, endpoint);
            if lines == [] then
              outcome == RelayFailed && out == [HttpError(502, if failed then "upstream stream error" else "empty upstream stream")]
            else
              out != [] && out[0] == Header("text/event-stream") && StreamShown(lines, failed, session, endpoint, out[1..], outcome)
  {
    hide LinesOutput, StreamShown;
    LinesShown(lines, failed, session, endpoint);
    if lines != [] {
      assert StreamOutput(lines, failed, session, endpoint).0[1..] == LinesOutput(lines, failed, session, endpoint).0;
    }
  }

  // ---------------------------------------------------------------- one chunk

  lemma LocateRebuilt(data: Json, choice: Fields, d: Json)
    requires Locate(data).At? && AsObject(d).Some?
    ensures var p := Locate(data);
            Locate(Rebuild(p.full, p.choices, choice, d)).At? && Locate(Rebuild(p.full, p.choices, choice, d)).delta == d
  {
    var p := Locate(data);
    var choices := p.choices[0 := Obj(choice["delta" := d])];
    assert choices[0].fields["delta"] == d;
    forall c | c in choices
      ensures AsObject(c).Some?
    {
      var i :| 0 <= i < |choices| && choices[i] == c;
      if i > 0 {
        assert p.choices[i] in p.choices;
      }
    }
  }

  /** What streaming shows of a chunk whose delta is found. */
  lemma StreamedDelta(data: Json, out: Json, s: Session, endpoint: Endpoint)
    requires DecryptChunk(data, s, endpoint) == Ok(out)
    ensures Locate(data).At? ==> DecryptFields(AsObject(Locate(data).delta).value, s, endpoint) == Ok(ShownDelta(out))
    ensures !Locate(data).At? ==> ShownDelta(out) == map[]
  {
    hide DecryptFields, ChoiceLogprobs, Locate, Rebuild;
    var p := Locate(data);
    if p.At? {
      var d := DecryptFields(AsObject(p.delta).value, s, endpoint).value;
      var choice := ChoiceLogprobs(p.choices[0].fields, s, endpoint).value;
      if p.delta.Null? {
        NothingDecrypts(s, endpoint);
      }
      LocateRebuilt(data, choice, Rewrapped(p.delta, d));
    }
  }

  lemma NothingDecrypts(s: Session, endpoint: Endpoint)
    ensures DecryptFields(map[], s, endpoint) == Ok(map[])
  {
  }

  /** Decryption makes a nonempty string only of a nonempty string. */
  lemma TextFromText(key: string, j: Json, s: Session, endpoint: Endpoint)
    requires DecryptEntry(key, j, s, endpoint).Ok? && IsText(DecryptEntry(key, j, s, endpoint).value)
    ensures IsText(j)
  {
    if key == "tool_calls" && j.Arr? {
      hide DecryptToolCalls;
    }
  }

  lemma TextsAgree(data: Json, out: Json, texts: map<string, string>, s: Session, endpoint: Endpoint, key: string)
    requires DecryptChunk(data, s, endpoint) == Ok(out) && ChunkTexts(data, s, endpoint) == Ok(texts)
    requires !IsNonEncryptedField(key)
    ensures TextAt(texts, key) == ShownText(ShownDelta(out), key)
    ensures key in texts ==> texts[key] != ""
  {
    hide DecryptChunk, Locate, ShownDelta, DecryptEntry, IsNonEncryptedField;
    StreamedDelta(data, out, s, endpoint);
    if Locate(data).At? {
      var before := AsObject(Locate(data).delta).value;
      var d := ShownDelta(out);
      assert d.Keys == before.Keys;
      if key in d && IsText(d[key]) {
        assert DecryptEntry(key, before[key], s, endpoint) == Ok(d[key]);
        TextFromText(key, before[key], s, endpoint);
      }
    }
  }

  lemma CallsAgree(data: Json, out: Json, meta: Meta, s: Session, endpoint: Endpoint)
    requires DecryptChunk(data, s, endpoint) == Ok(out) && ChunkMeta(data, s, endpoint) == Ok(meta)
    ensures meta.calls == ShownCalls(ShownDelta(out))
  {
    hide DecryptChunk, ShownDelta, DecryptEntry;
    StreamedDelta(data, out, s, endpoint);
    if Locate(data).At? {
      var before := AsObject(Locate(data).delta).value;
      var d := ShownDelta(out);
      assert d.Keys == before.Keys;
      if "tool_calls" in before {
        assert DecryptEntry("tool_calls", before["tool_calls"], s, endpoint) == Ok(d["tool_calls"]);
        NoCalls(before["tool_calls"], s, endpoint);
      }
    }
  }

  lemma NoCalls(j: Json, s: Session, endpoint: Endpoint)
    ensures j.Null? ==> DecryptEntry("tool_calls", j, s, endpoint) == Ok(Null)
    ensures j == Arr([]) ==> DecryptEntry("tool_calls", j, s, endpoint) == Ok(j)
  {
  }

  // ---------------------------------------------------------------- the whole stream

  /** Folding one chunk adds exactly what the client is shown of it. */
  lemma StepAgrees(acc: Acc, data: Json, out: Json, next: Acc, s: Session, endpoint: Endpoint, key: string)
    requires DecryptChunk(data, s, endpoint) == Ok(out) && Step(acc, Tree(data), s, endpoint) == Ok(next)
    requires !IsNonEncryptedField(key) && (key in acc.fields ==> acc.fields[key] != "")
    ensures TextAt(next.fields, key) == TextAt(acc.fields, key) + ShownText(ShownDelta(out), key)
    ensures key in next.fields ==> next.fields[key] != ""
    ensures MergeRaw(acc.calls, ShownCalls(ShownDelta(out))) == Ok(next.calls)
  {
    hide DecryptChunk, ChunkTexts, ChunkMeta, ShownDelta, ShownText, ShownCalls, MergeRaw;
    var texts := ChunkTexts(data, s, endpoint).value;
    TextsAgree(data, out, texts, s, endpoint, key);
    CallsAgree(data, out, ChunkMeta(data, s, endpoint).value, s, endpoint);
    assert next.fields == AddTexts(acc.fields, texts);
  }

  /** Output and reassembly of the same lines, from any point of the reassembly on. */
  lemma {:induction false} FoldAgrees(lines: seq<SseLine>, failed: bool, acc: Acc, last: Acc, s: Session, endpoint: Endpoint, key: string)
    requires LinesOutput(lines, failed, Some(s), endpoint).1 == Relayed
    requires Fold(acc, Chunks(lines), s, endpoint) == Ok(last)
    requires !IsNonEncryptedField(key) && (key in acc.fields ==> acc.fields[key] != "")
    ensures var deltas := ShownDeltas(LinesOutput(lines, failed, Some(s), endpoint).0);
            && TextAt(last.fields, key) == TextAt(acc.fields, key) + ShownTexts(deltas, key)
            && (key in last.fields ==> last.fields[key] != "")
            && MergeRaw(acc.calls, AllShownCalls(deltas)) == Ok(last.calls)
    decreases lines
  {
    hide DecryptChunk, Step, ShownDelta, IsNonEncryptedField, MergeRaw, LinesOutput, ShownDeltas, ShownTexts, AllShownCalls;
    if lines == [] || lines[0].Done? {
      EndShowsNothing(lines, failed, s, endpoint);
      NothingShown(acc.calls, key);
    } else {
      var rest := LinesOutput(lines[1..], failed, Some(s), endpoint).0;
      if lines[0].Other? {
        OtherShowsNothing(lines, failed, s, endpoint);
        assert Chunks(lines) == Chunks(lines[1..]);
        FoldAgrees(lines[1..], failed, acc, last, s, endpoint, key);
      } else {
        var data := lines[0].payload;
        assert Chunks(lines)[0] == data && Chunks(lines)[1..] == Chunks(lines[1..]);
        var next := Step(acc, data, s, endpoint).value;
        var j := DataShown(lines, failed, s, endpoint);
        StepAgrees(acc, data.json, j, next, s, endpoint, key);
        FoldAgrees(lines[1..], failed, next, last, s, endpoint, key);
        OneMoreDelta(ShownDelta(j), ShownDeltas(rest), key);
        MergeAppend(acc.calls, ShownCalls(ShownDelta(j)), AllShownCalls(ShownDeltas(rest)));
      }
    }
  }

  lemma NothingShown(calls: Calls, key: string)
    ensures ShownTexts([], key) == "" && AllShownCalls([]) == [] && MergeRaw(calls, []) == Ok(calls)
  {
  }

  lemma OtherShowsNothing(lines: seq<SseLine>, failed: bool, s: Session, endpoint: Endpoint)
    requires lines != [] && lines[0].Other? && LinesOutput(lines, failed, Some(s), endpoint).1 == Relayed
    ensures LinesOutput(lines[1..], failed, Some(s), endpoint).1 == Relayed
    ensures ShownDeltas(LinesOutput(lines, failed, Some(s), endpoint).0)
            == ShownDeltas(LinesOutput(lines[1..], failed, Some(s), endpoint).0)
  {
    hide DecryptPayload, ShownDelta;
    assert LinesOutput(lines, failed, Some(s), endpoint).0[1..] == LinesOutput(lines[1..], failed, Some(s), endpoint).0;
  }

  lemma DataShown(lines: seq<SseLine>, failed: bool, s: Session, endpoint: Endpoint) returns (j: Json)
    requires lines != [] && lines[0].Data? && LinesOutput(lines, failed, Some(s), endpoint).1 == Relayed
    ensures lines[0].payload.Tree? && DecryptChunk(lines[0].payload.json, s, endpoint) == Ok(j)
    ensures LinesOutput(lines[1..], failed, Some(s), endpoint).1 == Relayed
    ensures ShownDeltas(LinesOutput(lines, failed, Some(s), endpoint).0)
            == [ShownDelta(j)] + ShownDeltas(LinesOutput(lines[1..], failed, Some(s), endpoint).0)
  {
    hide DecryptChunk, ShownDelta;
    j := DecryptPayload(lines[0].payload, s, endpoint).value;
    var out := LinesOutput(lines, failed, Some(s), endpoint).0;
    assert out[1..] == LinesOutput(lines[1..], failed, Some(s), endpoint).0;
    assert out[0] == Chunk(Tree(j));
  }

  lemma EndShowsNothing(lines: seq<SseLine>, failed: bool, s: Session, endpoint: Endpoint)
    requires lines == [] || lines[0].Done?
    ensures ShownDeltas(LinesOutput(lines, failed, Some(s), endpoint).0) == []
  {
  }

  lemma OneMoreDelta(d: Fields, rest: seq<Fields>, key: string)
    ensures ShownTexts([d] + rest, key) == ShownText(d, key) + ShownTexts(rest, key)
    ensures AllShownCalls([d] + rest) == ShownCalls(d) + AllShownCalls(rest)
  {
    assert ([d] + rest)[1..] == rest;
  }

  /** No metadata key is ever reassembled. */
  lemma {:induction false} NoMetadataFolded(acc: Acc, chunks: seq<Payload>, s: Session, endpoint: Endpoint, key: string)
    requires Fold(acc, chunks, s, endpoint).Ok? && IsNonEncryptedField(key) && key !in acc.fields
    ensures key !in Fold(acc, chunks, s, endpoint).value.fields
    decreases chunks
  {
    hide IsNonEncryptedField, Locate, DecryptFields, ChunkMeta;
    if chunks != [] {
      NoMetadataFolded(Step(acc, chunks[0], s, endpoint).value, chunks[1..], s, endpoint, key);
    }
  }

  /** The items are the finished calls of the given indices. */
  ghost predicate Finished(items: seq<Json>, ds: seq<CallDelta>, indices: seq<int64>, calls: seq<ToolCall>) {
    && |calls| == |indices| == |items|
    && (forall n :: 0 <= n < |indices| ==> Assembled(EMPTY_CALL, ForIndex(ds, indices[n]), calls[n]))
    && (forall n :: 0 <= n < |indices| ==> IsCall(items[n], calls[n]))
  }

  /** The JSON form of a call: these keys and no others. */
  ghost predicate IsCall(j: Json, tc: ToolCall) {
    && j.Obj? && j.fields.Keys == {"id", "type", "function"}
    && j.fields["id"] == Str(tc.id) && j.fields["type"] == Str(tc.kind)
    && j.fields["function"].Obj?
    && var fn := j.fields["function"].fields;
    && fn.Keys == {"name", "arguments"} && fn["name"] == Str(tc.name) && fn["arguments"] == Str(tc.arguments)
  }

  lemma RenderedCall(tc: ToolCall)
    ensures IsCall(RenderCall(tc), tc)
  {
  }

  /** `j` shows one finished call for every index streamed, in ascending order of index. */
  ghost predicate ShowsAssembled(j: Json, ds: seq<CallDelta>) {
    && j.Arr?
    && exists indices: seq<int64>, calls: seq<ToolCall> ::
         Ascending(indices) && Finished(j.items, ds, indices, calls) && forall i :: i in indices <==> ForIndex(ds, i) != []
  }

  /** Every merged call is assembled from its fragments. */
  ghost predicate AllAssembled(calls: Calls, ds: seq<CallDelta>) {
    && (forall i :: i in calls.Keys <==> ForIndex(ds, i) != [])
    && (forall i <- calls :: Assembled(EMPTY_CALL, ForIndex(ds, i), calls[i]))
  }

  lemma MergedAssembled(calls: Calls, raws: seq<Json>, ds: seq<CallDelta>)
    requires MergeRaw(map[], raws) == Ok(calls) && ParseAll(raws) == Ok(ds)
    ensures AllAssembled(calls, ds)
  {
    hide MergeRaw, ParseAll, ForIndex, Assembled;
    forall index: int64
      ensures index in calls.Keys <==> ForIndex(ds, index) != []
      ensures index in calls ==> Assembled(EMPTY_CALL, ForIndex(ds, index), calls[index])
    {
      MergeAssembles(map[], raws, ds, index);
    }
  }

  lemma RenderedFinished(items: seq<Json>, calls: Calls, ds: seq<CallDelta>, indices: seq<int64>) returns (listed: seq<ToolCall>)
    requires AllAssembled(calls, ds) && Renders(items, calls, indices) && forall i <- indices :: i in calls.Keys
    ensures Finished(items, ds, indices, listed)
  {
    hide RenderCall, IsCall, ForIndex, Assembled;
    listed := seq(|indices|, n requires 0 <= n < |indices| => CallAt(calls, indices[n]));
    forall n | 0 <= n < |indices|
      ensures Assembled(EMPTY_CALL, ForIndex(ds, indices[n]), listed[n]) && IsCall(items[n], listed[n])
    {
      assert indices[n] in indices;
      RenderedCall(listed[n]);
    }
  }

  lemma CallsShown(j: Json, calls: Calls, raws: seq<Json>, ds: seq<CallDelta>)
    requires MergeRaw(map[], raws) == Ok(calls) && ParseAll(raws) == Ok(ds) && ShowsCalls(j, calls)
    ensures ShowsAssembled(j, ds)
  {
    hide MergeRaw, ParseAll, ForIndex, Renders, Finished;
    MergedAssembled(calls, raws, ds);
    var indices :| Lists(indices, calls.Keys) && Renders(j.items, calls, indices);
    assert forall i <- indices :: i in calls.Keys;
    var listed := RenderedFinished(j.items, calls, ds, indices);
    assert forall i :: i in indices <==> ForIndex(ds, i) != [];
  }

  /** The message a client puts together from the deltas it is shown. */
  ghost predicate PutTogether(message: Fields, deltas: seq<Fields>) {
    var raws := AllShownCalls(deltas);
    && "role" in message && message["role"] == Str("assistant")
    && (forall key <- message :: key == "role" || !IsNonEncryptedField(key))
    && (forall key :: !IsNonEncryptedField(key) && (key != "tool_calls" || raws == []) ==>
          (key in message <==> ShownTexts(deltas, key) != "")
          && (key in message ==> message[key] == Str(ShownTexts(deltas, key))))
    && exists ds :: SayAll(raws, ds) && (raws != [] ==> "tool_calls" in message && ShowsAssembled(message["tool_calls"], ds))
  }

  lemma MessagePutTogether(acc: Acc, message: Fields, deltas: seq<Fields>)
    requires MessageOf(acc, message) && forall key <- acc.fields :: !IsNonEncryptedField(key)
    requires forall key :: !IsNonEncryptedField(key) ==>
               TextAt(acc.fields, key) == ShownTexts(deltas, key) && (key in acc.fields ==> acc.fields[key] != "")
    requires MergeRaw(map[], AllShownCalls(deltas)) == Ok(acc.calls)
    ensures PutTogether(message, deltas)
  {
    hide ShowsCalls, AllShownCalls, ParseAll, SayAll, MergeRaw, ShowsAssembled, ShownTexts;
    var raws := AllShownCalls(deltas);
    MergeEmptyIff(raws);
    MergeIff(map[], raws);
    ParseAllIff(raws, ParseAll(raws).value);
    if raws != [] {
      CallsShown(message["tool_calls"], acc.calls, raws, ParseAll(raws).value);
    }
    RoleIsMetadata();
    hide IsNonEncryptedField;
    forall key | !IsNonEncryptedField(key) && (key != "tool_calls" || raws == [])
      ensures key in message <==> ShownTexts(deltas, key) != ""
      ensures key in message ==> message[key] == Str(ShownTexts(deltas, key))
    {
      assert key in message <==> key in acc.fields;
    }
  }

  lemma RoleIsMetadata()
    ensures IsNonEncryptedField("role") && !IsNonEncryptedField("tool_calls")
  {
  }

  // ---------------------------------------------------------------- the answer around the message

  /** The finish reason of the first choice, if it is one. */
  function FinishAt(data: Json): string {
    if data.Obj? && "choices" in data.fields && data.fields["choices"].Arr? then
      var choices := data.fields["choices"].items;
      if choices != [] && choices[0].Obj? && "finish_reason" in choices[0].fields && choices[0].fields["finish_reason"].Str?
      then choices[0].fields["finish_reason"].s else ""
    else ""
  }

  function Finishes(chunks: seq<Payload>): seq<string> {
    seq(|chunks|, i requires 0 <= i < |chunks| => if chunks[i].Tree? then FinishAt(chunks[i].json) else "")
  }

  lemma MetaFinish(data: Json, s: Session, endpoint: Endpoint)
    requires ChunkMeta(data, s, endpoint).Ok?
    ensures ChunkMeta(data, s, endpoint).value.finish == FinishAt(data)
  {
    hide DecryptEntry, RawCalls;
    var choices := TypedChoices(data).value;
    if choices != [] {
      assert TypedChoice(choices[0]);
    }
  }

  /** Folding keeps the last nonempty finish reason, and the last chunk. */
  lemma {:induction false} FinishFolded(acc: Acc, chunks: seq<Payload>, s: Session, endpoint: Endpoint)
    requires Fold(acc, chunks, s, endpoint).Ok?
    ensures var folded := Fold(acc, chunks, s, endpoint).value;
            && IsLastNonempty(acc.finish, Finishes(chunks), folded.finish)
            && (if chunks == [] then folded.last == acc.last
                else chunks[|chunks| - 1].Tree? && folded.last == Some(chunks[|chunks| - 1].json))
    decreases chunks
  {
    hide ChunkTexts, ChunkMeta, FinishAt, MergeRaw, IsLastNonempty;
    if chunks == [] {
      NoFinish(acc.finish);
    } else {
      var next := Step(acc, chunks[0], s, endpoint).value;
      MetaFinish(chunks[0].json, s, endpoint);
      FinishFolded(next, chunks[1..], s, endpoint);
      assert Finishes(chunks)[1..] == Finishes(chunks[1..]);
      LastNonemptyStep(acc.finish, Finishes(chunks), Fold(acc, chunks, s, endpoint).value.finish);
    }
  }

  lemma NoFinish(start: string)
    ensures IsLastNonempty(start, Finishes([]), start)
  {
  }

  /** Without a finish reason the answer says "stop". */
  lemma FinishDefaults(finishes: seq<string>, finish: string)
    requires IsLastNonempty("", finishes, finish)
    ensures IsLastNonempty("stop", finishes, Override("stop", finish))
  {
  }

  /** These fields of the answer name the response that the chunk belongs to. */
  ghost predicate Identifies(data: Json, m: Fields) {
    && "id" in m && m["id"].Str? && "model" in m && m["model"].Str? && "created" in m && (data.Obj? || data.Null?)
    && var fields := if data.Obj? then data.fields else map[];
    && TextIs(fields, "id", m["id"].s) && TextIs(fields, "model", m["model"].s)
    && m["created"] == if Present(fields, "created") then fields["created"] else Int(0)
  }

  /** The chunk has an identity: no field of it has the wrong type. */
  predicate Identifiable(data: Json) {
    || data.Null?
    || (&& data.Obj?
        && (Present(data.fields, "id") ==> data.fields["id"].Str?) && (Present(data.fields, "model") ==> data.fields["model"].Str?)
        && (Present(data.fields, "created") ==> data.fields["created"].Int? && IsInt64(data.fields["created"].n)))
  }

  lemma EnvelopeIff(data: Json)
    ensures ParseEnvelope(data).Ok? <==> Identifiable(data)
  {
  }

  lemma EnvelopeIdentifies(c: Completion, data: Json)
    requires ParseEnvelope(data) == Ok(Envelope(c.id, c.model, c.created))
    ensures Identifies(data, map["id" := Str(c.id), "model" := Str(c.model), "created" := Int(c.created)])
  {
    if data.Obj? {
      StringMemberIff(data.fields, "id", c.id);
      StringMemberIff(data.fields, "model", c.model);
    }
  }

  /** The answer to a request whose upstream sent these chunks and whose client would have been shown these deltas. */
  ghost predicate IsAnswer(j: Json, chunks: seq<Payload>, deltas: seq<Fields>) {
    && j.Obj? && j.fields.Keys == {"id", "object", "created", "model", "choices"} && j.fields["object"] == Str("chat.completion")
    && chunks != [] && chunks[|chunks| - 1].Tree? && Identifies(chunks[|chunks| - 1].json, j.fields)
    && j.fields["choices"].Arr? && |j.fields["choices"].items| == 1
    && IsOnlyChoice(j.fields["choices"].items[0], Finishes(chunks), deltas)
  }

  ghost predicate IsOnlyChoice(j: Json, finishes: seq<string>, deltas: seq<Fields>) {
    && j.Obj? && j.fields.Keys == {"index", "message", "finish_reason"} && j.fields["index"] == Int(0)
    && j.fields["message"].Obj? && PutTogether(j.fields["message"].fields, deltas)
    && j.fields["finish_reason"].Str? && IsLastNonempty("stop", finishes, j.fields["finish_reason"].s)
  }

  lemma RenderedAnswer(c: Completion, chunks: seq<Payload>, deltas: seq<Fields>)
    requires chunks != [] && chunks[|chunks| - 1].Tree?
    requires ParseEnvelope(chunks[|chunks| - 1].json) == Ok(Envelope(c.id, c.model, c.created))
    requires PutTogether(c.message, deltas) && IsLastNonempty("stop", Finishes(chunks), c.finish)
    ensures IsAnswer(RenderCompletion(c), chunks, deltas)
  {
    hide PutTogether, IsLastNonempty, ParseEnvelope, Finishes;
    EnvelopeIdentifies(c, chunks[|chunks| - 1].json);
  }

  /**
   When one upstream stream can both be relayed and be reassembled, every text of the reassembled
   message is the concatenation of that field over the deltas the client would have been shown,
   and every tool call is assembled from its own fragments, whatever their interleaving.
   */
  lemma ReassemblyMatchesStream(lines: seq<SseLine>, failed: bool, acc: Acc, c: Completion, s: Session, endpoint: Endpoint)
    requires StreamOutput(lines, failed, Some(s), endpoint).1 == Relayed
    requires Fold(INIT, Chunks(lines), s, endpoint) == Ok(acc) && Completes(acc, c)
    ensures PutTogether(c.message, ShownDeltas(StreamOutput(lines, failed, Some(s), endpoint).0))
  {
    var rest := LinesOutput(lines, failed, Some(s), endpoint).0;
    var deltas := ShownDeltas(StreamOutput(lines, failed, Some(s), endpoint).0);
    assert StreamOutput(lines, failed, Some(s), endpoint).0[1..] == rest;
    assert deltas == ShownDeltas(rest);
    RoleIsMetadata();
    FoldAgrees(lines, failed, INIT, acc, s, endpoint, CONTENT);
    hide LinesOutput, Fold, StreamOutput, ShownDeltas, MessageOf, PutTogether, ParseEnvelope;
    forall key | IsNonEncryptedField(key)
      ensures key !in acc.fields
    {
      NoMetadataFolded(INIT, Chunks(lines), s, endpoint, key);
    }
    forall key | !IsNonEncryptedField(key)
      ensures TextAt(acc.fields, key) == ShownTexts(deltas, key) && (key in acc.fields ==> acc.fields[key] != "")
    {
      FoldAgrees(lines, failed, INIT, acc, s, endpoint, key);
      assert TextAt(INIT.fields, key) == "";
    }
    MessagePutTogether(acc, c.message, deltas);
  }

  /** The whole answer: identity of the last chunk, last finish reason, and the message a client would put together. */
  lemma AnswerMatchesStream(lines: seq<SseLine>, failed: bool, s: Session, endpoint: Endpoint, out: seq<Emit>, outcome: Outcome)
    requires StreamOutput(lines, failed, Some(s), endpoint).1 == Relayed
    requires ReassembledOutput(lines, failed, s, endpoint, out, outcome)
    ensures if Reassembles(lines, failed, s, endpoint) then
              && outcome == Relayed && |out| == 2 && out[0] == Header("application/json") && out[1].JsonBody?
              && IsAnswer(out[1].json, Chunks(lines), ShownDeltas(StreamOutput(lines, failed, Some(s), endpoint).0))
            else outcome == DecryptionFailed && out == [HttpError(502, "response decryption failed")]
  {
    hide StreamOutput, Chunks, Fold, ParseEnvelope, MessageOf, RenderCompletion, ShownDeltas, PutTogether, IsAnswer, IsLastNonempty;
    if Reassembles(lines, failed, s, endpoint) {
      var chunks := Chunks(lines);
      var acc := Fold(INIT, chunks, s, endpoint).value;
      var c :| Completes(acc, c) && out == [Header("application/json"), JsonBody(RenderCompletion(c))];
      ReassemblyMatchesStream(lines, failed, acc, c, s, endpoint);
      FinishFolded(INIT, chunks, s, endpoint);
      FinishDefaults(Finishes(chunks), acc.finish);
      RenderedAnswer(c, chunks, ShownDeltas(StreamOutput(lines, failed, Some(s), endpoint).0));
    }
  }

  /** Merging leaves no calls exactly when there are no fragments. */
  lemma MergeEmptyIff(raws: seq<Json>)
    requires MergeRaw(map[], raws).Ok?
    ensures MergeRaw(map[], raws).value == map[] <==> raws == []
  {
    MergeIff(map[], raws);
    if raws != [] {
      var ds := ParseAll(raws).value;
      MergeAssembles(map[], raws, ds, ds[0].index);
      assert ForIndex(ds, ds[0].index) != [];
    }
  }

  // ---------------------------------------------------------------- when only streaming succeeds

  /**
   Of a plain field the stream shows, reassembly refuses exactly a ciphertext of the empty text (or
   of itself), which the stream passes on as it is.
   */
  lemma RefusedIff(key: string, j: Json, s: Session, endpoint: Endpoint)
    requires DecryptEntry(key, j, s, endpoint).Ok?
    requires !IsStructured(key) && !IsNonEncryptedField(key)
    ensures TextRefused(key, j, DecryptEntry(key, j, s, endpoint).value, s, endpoint) <==>
            IsText(j) && s.isEncrypted(j.s) && (s.decrypt(j.s) == Some("") || s.decrypt(j.s) == Some(j.s))
    ensures IsText(j) && s.isEncrypted(j.s) && s.decrypt(j.s) == Some("") ==> DecryptEntry(key, j, s, endpoint) == Ok(j)
  {
  }

  /** A text that the stream shows and reassembly refuses; the last case is a string where a structure belongs. */
  predicate Unreadable(key: string, j: Json, s: Session, endpoint: Endpoint) {
    && IsText(j) && !IsNonEncryptedField(key)
    && if IsStructured(key) then s.isEncrypted(j.s) || s.policy(key, endpoint)
       else s.isEncrypted(j.s) && (s.decrypt(j.s) == Some("") || s.decrypt(j.s) == Some(j.s))
  }

  lemma UnreadableIff(key: string, j: Json, s: Session, endpoint: Endpoint)
    requires DecryptEntry(key, j, s, endpoint).Ok?
    ensures TextRefused(key, j, DecryptEntry(key, j, s, endpoint).value, s, endpoint) <==> Unreadable(key, j, s, endpoint)
  {
    if IsStructured(key) {
      StructuredText(key, j, s, endpoint);
    } else if !IsNonEncryptedField(key) {
      RefusedIff(key, j, s, endpoint);
    }
  }

  lemma StructuredText(key: string, j: Json, s: Session, endpoint: Endpoint)
    requires IsStructured(key) && DecryptEntry(key, j, s, endpoint).Ok?
    ensures IsText(j) ==> DecryptEntry(key, j, s, endpoint) == Ok(j)
    ensures !IsText(j) ==> !IsText(DecryptEntry(key, j, s, endpoint).value)
  {
    hide DecryptFunction, MapAll;
  }

  /** A chunk that the stream shows as `out` can be folded: readable texts, typed choices, and fragments that parse. */
  ghost predicate Foldable(data: Json, out: Json, s: Session, endpoint: Endpoint) {
    var delta := ShownDelta(data);
    && (forall k <- delta :: !Unreadable(k, delta[k], s, endpoint))
    && TypedChoices(data).Ok? && ParseAll(ShownCalls(ShownDelta(out))).Ok?
  }

  lemma TextsOkIff(data: Json, out: Json, s: Session, endpoint: Endpoint)
    requires DecryptChunk(data, s, endpoint) == Ok(out)
    ensures ChunkTexts(data, s, endpoint).Ok? <==> forall k <- ShownDelta(data) :: !Unreadable(k, ShownDelta(data)[k], s, endpoint)
  {
    hide Locate, DecryptEntry, DecryptFields, Unreadable, Texts, ChoiceLogprobs;
    if Locate(data).At? {
      var before := AsObject(Locate(data).delta).value;
      StreamedDelta(data, out, s, endpoint);
      DeltaTextsOkIff(before, ShownDelta(out), s, endpoint);
      assert ShownDelta(data) == before;
      assert ChunkTexts(data, s, endpoint) == Texts(before, ShownDelta(out), s, endpoint);
    }
  }

  lemma DeltaTextsOkIff(before: Fields, d: Fields, s: Session, endpoint: Endpoint)
    requires DecryptFields(before, s, endpoint) == Ok(d)
    ensures Texts(before, d, s, endpoint).Ok? <==> forall k <- before :: !Unreadable(k, before[k], s, endpoint)
  {
    hide DecryptEntry, Unreadable, TextRefused;
    assert d.Keys == before.Keys;
    forall k | k in before
      ensures TextRefused(k, before[k], d[k], s, endpoint) <==> Unreadable(k, before[k], s, endpoint)
    {
      assert DecryptEntry(k, before[k], s, endpoint) == Ok(d[k]);
      UnreadableIff(k, before[k], s, endpoint);
    }
  }

  lemma MetaOkIff(data: Json, out: Json, s: Session, endpoint: Endpoint)
    requires DecryptChunk(data, s, endpoint) == Ok(out)
    ensures ChunkMeta(data, s, endpoint).Ok? <==> TypedChoices(data).Ok?
  {
    hide DecryptEntry, DecryptFields, ChoiceLogprobs, TypedChoice;
    var typed := TypedChoices(data);
    if typed.Ok? && typed.value != [] && RawCalls(typed.value[0]) != [] {
      var calls := Arr(RawCalls(typed.value[0]));
      CallsLocated(data);
      var before := AsObject(Locate(data).delta).value;
      EntryDecrypts(before, "tool_calls", s, endpoint);
      CallsStayArray(calls, s, endpoint);
    }
  }

  lemma EntryDecrypts(m: Fields, k: string, s: Session, endpoint: Endpoint)
    requires DecryptFields(m, s, endpoint).Ok? && k in m
    ensures DecryptEntry(k, m[k], s, endpoint).Ok?
  {
    hide DecryptEntry;
  }

  /** Typed choices with tool-call fragments have a first delta that holds them. */
  lemma CallsLocated(data: Json)
    requires TypedChoices(data).Ok? && TypedChoices(data).value != [] && RawCalls(TypedChoices(data).value[0]) != []
    ensures Locate(data).At?
    ensures var before := AsObject(Locate(data).delta).value;
            "tool_calls" in before && before["tool_calls"] == Arr(RawCalls(TypedChoices(data).value[0]))
  {
    var choices := TypedChoices(data).value;
    forall c | c in choices
      ensures AsObject(c).Some?
    {
      assert TypedChoice(c);
    }
  }

  lemma CallsStayArray(j: Json, s: Session, endpoint: Endpoint)
    requires j.Arr? && DecryptEntry("tool_calls", j, s, endpoint).Ok?
    ensures DecryptEntry("tool_calls", j, s, endpoint).value.Arr?
  {
    hide MapAll;
  }

  /** Whether a shown chunk can be folded does not depend on what was folded before. */
  lemma StepOkIff(acc: Acc, data: Json, out: Json, s: Session, endpoint: Endpoint)
    requires DecryptChunk(data, s, endpoint) == Ok(out)
    ensures Step(acc, Tree(data), s, endpoint).Ok? <==> Foldable(data, out, s, endpoint)
    ensures Step(acc, Tree(data), s, endpoint).Ok? ==> Step(acc, Tree(data), s, endpoint).value.last == Some(data)
  {
    hide DecryptChunk, ChunkTexts, ChunkMeta, TypedChoices, ShownDelta, ShownCalls, Unreadable, MergeRaw, ParseAll;
    TextsOkIff(data, out, s, endpoint);
    MetaOkIff(data, out, s, endpoint);
    var meta := ChunkMeta(data, s, endpoint);
    if meta.Ok? {
      CallsAgree(data, out, meta.value, s, endpoint);
      MergeIff(acc.calls, meta.value.calls);
    }
  }

  /** A chunk of a stream that was relayed, and that reassembly accepts. */
  ghost predicate Folds(p: Payload, s: Session, endpoint: Endpoint) {
    p.Tree? && DecryptChunk(p.json, s, endpoint).Ok? && Foldable(p.json, DecryptChunk(p.json, s, endpoint).value, s, endpoint)
  }

  lemma {:induction false} FoldOkIff(lines: seq<SseLine>, failed: bool, acc: Acc, s: Session, endpoint: Endpoint)
    requires LinesOutput(lines, failed, Some(s), endpoint).1 == Relayed
    ensures var chunks, folded := Chunks(lines), Fold(acc, Chunks(lines), s, endpoint);
            && (folded.Ok? <==> forall i :: 0 <= i < |chunks| ==> Folds(chunks[i], s, endpoint))
            && (forall i :: 0 <= i < |chunks| ==> chunks[i].Tree?)
            && (folded.Ok? ==> folded.value.last == if chunks == [] then acc.last else Some(chunks[|chunks| - 1].json))
    decreases lines
  {
    hide LinesOutput, Step, DecryptChunk, Foldable;
    if lines != [] && !lines[0].Done? {
      if lines[0].Other? {
        OtherShowsNothing(lines, failed, s, endpoint);
        assert Chunks(lines) == Chunks(lines[1..]);
        FoldOkIff(lines[1..], failed, acc, s, endpoint);
      } else {
        var p := lines[0].payload;
        var j := DataShown(lines, failed, s, endpoint);
        StepOkIff(acc, p.json, j, s, endpoint);
        FoldOkIff(lines[1..], failed, if Step(acc, p, s, endpoint).Ok? then Step(acc, p, s, endpoint).value else acc, s, endpoint);
        FoldOne(acc, p, Chunks(lines[1..]), s, endpoint);
        assert Chunks(lines) == [p] + Chunks(lines[1..]);
      }
    }
  }

  lemma FoldOne(acc: Acc, p: Payload, rest: seq<Payload>, s: Session, endpoint: Endpoint)
    ensures Fold(acc, [p] + rest, s, endpoint) ==
            match Step(acc, p, s, endpoint) case Err => Err case Ok(next) => Fold(next, rest, s, endpoint)
  {
    hide Step;
    assert ([p] + rest)[1..] == rest;
  }

  /**
   A stream that can be relayed can be reassembled if and only if every chunk shown can be folded,
   there is one, the last one says who answered, and the scanner reports no error.
   */
  lemma ReassemblesIff(lines: seq<SseLine>, failed: bool, s: Session, endpoint: Endpoint)
    requires StreamOutput(lines, failed, Some(s), endpoint).1 == Relayed
    ensures var chunks := Chunks(lines);
            Reassembles(lines, failed, s, endpoint) <==>
            && !failed && chunks != [] && (forall i :: 0 <= i < |chunks| ==> Folds(chunks[i], s, endpoint))
            && Identifiable(chunks[|chunks| - 1].json)
  {
    hide Fold, Folds, ParseEnvelope;
    FoldOkIff(lines, failed, INIT, s, endpoint);
    if Chunks(lines) != [] {
      EnvelopeIff(Chunks(lines)[|Chunks(lines)| - 1].json);
    }
  }
}
