/** Relaying a Chutes response: an encrypted event stream, or one encrypted blob. */
module ChutesRelay {
  import opened Bytes
  import opened Client
  import opened Json
  import opened ToolCallMerge

  type StreamKey = nat

  /** The client's half of a Chutes exchange; each field is None when the ciphertext does not open. */
  datatype ChutesSession = ChutesSession(openInit: string -> Option<StreamKey>,
                                         openChunk: (StreamKey, string) -> Option<string>,
                                         openBlob: string -> Option<string>)

  datatype ChutesLine = Comment | End | Event(data: Option<Json>)

  /** What an event asks for. The keys are tried in this order; other events are ignored. */
  datatype Kind = InitEvent(text: Json) | ChunkEvent(text: Json) | UsageEvent(usage: Json) | FailureEvent | Ignored | Unparseable

  function KindOf(data: Option<Json>): Kind {
    match data
    case Some(Obj(m)) =>
      if "e2e_init" in m then InitEvent(m["e2e_init"])
      else if "e2e" in m then ChunkEvent(m["e2e"])
      else if "usage" in m then UsageEvent(m["usage"])
      else if "e2e_error" in m then FailureEvent
      else Ignored
    case Some(Null) => Ignored
    case _ => Unparseable
  }

  /** A value read as a string; null reads as empty. */
  function StringOf(j: Json): Option<string> {
    match j
    case Str(t) => Some(t)
    case Null => Some("")
    case _ => None
  }

  function InitKey(j: Json, s: ChutesSession): Option<StreamKey> {
    match StringOf(j)
    case Some(t) => s.openInit(t)
    case None => None
  }

  function ChunkText(j: Json, key: StreamKey, s: ChutesSession): Option<string> {
    match StringOf(j)
    case Some(t) => s.openChunk(key, t)
    case None => None
  }

  /** The relay between two lines. */
  datatype State = State(key: Option<StreamKey>, started: bool)

  /** One line: what is written, and either the next state or the end. */
  datatype Reaction = Continue(out: seq<Emit>, next: State) | Stop(out: seq<Emit>, outcome: Outcome)

  const CHUTES_HEADER: Emit := Header("text/event-stream")

  /** Errors are shown to the client only once the response has started. */
  function Fail(st: State, message: string): Reaction {
    Stop(if st.started then [ErrorEvent(message)] else [], DecryptionFailed)
  }

  function React(line: ChutesLine, st: State, s: ChutesSession): Reaction {
    match line
    case Comment => Continue([], st)
    case End => Stop(if st.started then [DoneLine] else [], Relayed)
    case Event(data) =>
      match KindOf(data)
      case Unparseable => Fail(st, "chutes stream: unparseable event")
      case InitEvent(j) =>
        (match InitKey(j, s)
         case None => Stop([], DecryptionFailed)
         case Some(k) => Continue([], st.(key := Some(k))))
      case ChunkEvent(j) =>
        if st.key.None? then Stop([], DecryptionFailed)
        else
          (match ChunkText(j, st.key.value, s)
           case None => Fail(st, "chutes stream decryption failed")
           case Some(p) => Continue((if st.started then [] else [CHUTES_HEADER]) + [Text(p)], st.(started := true)))
      case FailureEvent => Fail(st, "chutes server-side E2E error")
      case UsageEvent(_) => Continue([], st)
      case Ignored => Continue([], st)
  }

  /** The output and outcome of the lines from a state on. */
  function Run(lines: seq<ChutesLine>, failed: bool, st: State, s: ChutesSession): (seq<Emit>, Outcome) {
    if lines == [] then ([], if failed then RelayFailed else Relayed)
    else
      match React(lines[0], st, s)
      case Stop(out, outcome) => (out, outcome)
      case Continue(out, next) =>
        var rest := Run(lines[1..], failed, next, s);
        (out + rest.0, rest.1)
  }

  datatype Stats = Stats(chunks: nat, tokens: int)

  /** completion_tokens of a usage object, when it is one and positive. */
  function UsageTokens(j: Json): Option<int> {
    if j.Obj? && Present(j.fields, "completion_tokens") && j.fields["completion_tokens"].Int?
       && IsInt64(j.fields["completion_tokens"].n) && j.fields["completion_tokens"].n > 0
    then Some(j.fields["completion_tokens"].n) else None
  }

  /** The token count after a line: the latest positive report. */
  function ReportedTokens(line: ChutesLine, tokens: int): int {
    if line.Event? && KindOf(line.data).UsageEvent? && UsageTokens(KindOf(line.data).usage).Some?
    then UsageTokens(KindOf(line.data).usage).value else tokens
  }

  method RelayStreamChutes(w: ResponseWriter, lines: seq<ChutesLine>, failed: bool, s: ChutesSession)
      returns (outcome: Outcome, stats: Stats)
    modifies w
    ensures !w.canFlush ==> w.out == old(w.out) + [HttpError(500, "streaming not supported")] && outcome == RelayFailed
    ensures w.canFlush ==>
              var run := Run(lines, failed, START, s);
              w.out == old(w.out) + run.0 && outcome == run.1 && stats.chunks == |Texts(run.0)|
  {
    stats := Stats(0, 0);
    if !w.canFlush {
      w.Write(HttpError(500, "streaming not supported"));
      return RelayFailed, stats;
    }
    var st := START;
    ghost var run := Run(lines, failed, START, s);
    ghost var whole := (old(w.out) + run.0, run.1);
    assert lines[0..] == lines;
    hide Run, React, Texts;
    for i := 0 to |lines|
      invariant Completing(w.out, Run(lines[i..], failed, st, s), whole)
      invariant stats.chunks + |Texts(Run(lines[i..], failed, st, s).0)| == |Texts(run.0)|
    {
      assert lines[i..][1..] == lines[i + 1..];
      FirstReaction(lines[i..], failed, st, s);
      ghost var r := React(lines[i], st, s);
      ghost var written := w.out;
      var stop;
      stop, st, stats := RelayChutesLine(w, lines[i], st, stats, s);
      if stop.Some? {
        return stop.value, stats;
      }
      TextsAppend(r.out, Run(lines[i + 1..], failed, st, s).0);
      WroteSome(written, r.out, Run(lines[i + 1..], failed, st, s), whole);
    }
    EndOfEvents(failed, st, s);
    NoTexts();
    assert lines[|lines|..] == [];
    return if failed then RelayFailed else Relayed, stats;
  }

  /** One turn of the loop: what to stop with, if anything, and the state after the line. */
  method RelayChutesLine(w: ResponseWriter, line: ChutesLine, st: State, stats: Stats, s: ChutesSession)
      returns (stop: Option<Outcome>, st': State, stats': Stats)
    modifies w
    ensures var r := React(line, st, s);
            && w.out == old(w.out) + r.out
            && stats'.chunks == stats.chunks + |Texts(r.out)|
            && (r.Continue? ==> stats'.tokens == ReportedTokens(line, stats.tokens))
            && match r
               case Stop(_, outcome) => stop == Some(outcome)
               case Continue(_, next) => stop == None && st' == next
  {
    hide KindOf, InitKey, ChunkText;
    stop, st', stats' := None, st, stats;
    if line.Comment? {
      return;
    }
    if line.End? {
      if st.started {
        w.Write(DoneLine);
      }
      return Some(Relayed), st, stats;
    }
    var kind := KindOf(line.data);
    if kind.Unparseable? {
      if st.started {
        w.Write(ErrorEvent("chutes stream: unparseable event"));
      }
      return Some(DecryptionFailed), st, stats;
    }
    if kind.InitEvent? {
      var key := InitKey(kind.text, s);
      if key.None? {
        return Some(DecryptionFailed), st, stats;
      }
      st' := st.(key := key);
    } else if kind.ChunkEvent? {
      if st.key.None? {
        return Some(DecryptionFailed), st, stats;
      }
      var plaintext := ChunkText(kind.text, st.key.value, s);
      if plaintext.None? {
        if st.started {
          w.Write(ErrorEvent("chutes stream decryption failed"));
        }
        return Some(DecryptionFailed), st, stats;
      }
      if !st.started {
        w.Write(CHUTES_HEADER);
        st' := st.(started := true);
      }
      stats' := stats.(chunks := stats.chunks + 1);
      w.Write(Text(plaintext.value));
      TextsOfChunk(React(line, st, s).out, plaintext.value);
    } else if kind.UsageEvent? {
      var tokens := UsageTokens(kind.usage);
      if tokens.Some? {
        stats' := stats.(tokens := tokens.value);
      }
    } else if kind.FailureEvent? {
      if st.started {
        w.Write(ErrorEvent("chutes server-side E2E error"));
      }
      return Some(DecryptionFailed), st, stats;
    }
  }

  const START: State := State(None, false)

  lemma FirstReaction(lines: seq<ChutesLine>, failed: bool, st: State, s: ChutesSession)
    requires lines != []
    ensures var r := React(lines[0], st, s);
            Run(lines, failed, st, s)
            == if r.Stop? then (r.out, r.outcome)
               else (r.out + Run(lines[1..], failed, r.next, s).0, Run(lines[1..], failed, r.next, s).1)
  {
  }

  lemma EndOfEvents(failed: bool, st: State, s: ChutesSession)
    ensures Run([], failed, st, s) == ([], if failed then RelayFailed else Relayed)
  {
  }

  method RelayNonStreamChutes(w: ResponseWriter, blob: Option<string>, s: ChutesSession) returns (outcome: Outcome)
    modifies w
    ensures match blob
            case None => outcome == RelayFailed && w.out == old(w.out) + [HttpError(502, "response read failed")]
            case Some(b) =>
              match s.openBlob(b)
              case None => outcome == DecryptionFailed && w.out == old(w.out)
              case Some(p) => outcome == Relayed && w.out == old(w.out) + [Header("application/json"), Text(p)]
  {
    if blob.None? {
      w.Write(HttpError(502, "response read failed"));
      return RelayFailed;
    }
    var result := s.openBlob(blob.value);
    if result.None? {
      return DecryptionFailed;
    }
    w.Write(Header("application/json"));
    w.Write(Text(result.value));
    outcome := Relayed;
  }

  /** The plaintexts in an output. */
  function Texts(out: seq<Emit>): seq<string> {
    if out == [] then []
    else (if out[0].Text? then [out[0].text] else []) + Texts(out[1..])
  }

  lemma {:induction false} TextsAppend(a: seq<Emit>, b: seq<Emit>)
    ensures Texts(a + b) == Texts(a) + Texts(b)
    decreases a
  {
    if a == [] {
      assert a + b == b;
    } else {
      assert (a + b)[1..] == a[1..] + b;
      TextsAppend(a[1..], b);
    }
  }

  lemma TextsOfChunk(out: seq<Emit>, p: string)
    requires out == [Text(p)] || out == [CHUTES_HEADER] + [Text(p)]
    ensures Texts(out) == [p]
  {
    var one := [Text(p)];
    assert one[1..] == [];
    assert Texts(one) == [p] + Texts(one[1..]);
    if out != one {
      var header := [CHUTES_HEADER];
      assert header[1..] == [];
      assert Texts(header) == [] + Texts(header[1..]);
      TextsAppend(header, one);
    }
  }

  // ---------------------------------------------------------------- what reaches the client

  /** An answer starts with its header, if it has anything at all. */
  ghost predicate WellFormed(out: seq<Emit>, started: bool) {
    if started then CHUTES_HEADER !in out
    else out != [] ==> out[0] == CHUTES_HEADER && |out| > 1 && out[1].Text? && CHUTES_HEADER !in out[1..]
  }

  /**
   A relay that fails to decrypt before its first authenticated chunk has written nothing: the
   output is empty exactly when no chunk was opened, and otherwise starts with one header.
   */
  lemma {:induction false} NothingBeforeFirstChunk(lines: seq<ChutesLine>, failed: bool, st: State, s: ChutesSession)
    ensures var out := Run(lines, failed, st, s).0;
            && (!st.started && Texts(out) == [] ==> out == [])
            && WellFormed(out, st.started)
    decreases lines
  {
    hide React, Texts, WellFormed;
    if lines == [] {
      NothingWritten(st.started);
    } else {
      var r := React(lines[0], st, s);
      ReactionShape(lines[0], st, s);
      if r.Continue? {
        var rest := Run(lines[1..], failed, r.next, s).0;
        NothingBeforeFirstChunk(lines[1..], failed, r.next, s);
        ShapeExtends(r.out, rest, st.started, r.next.started);
      }
    }
  }

  lemma NothingWritten(started: bool)
    ensures WellFormed([], started)
  {
  }

  lemma ReactionShape(line: ChutesLine, st: State, s: ChutesSession)
    ensures var r := React(line, st, s);
            && WellFormed(r.out, st.started)
            && (!st.started && Texts(r.out) == [] ==> r.out == [])
            && (r.Continue? ==> (r.next.started <==> st.started || r.out != []))
  {
    hide KindOf, InitKey, ChunkText;
    TextsOfReaction(line, st, s);
  }

  lemma ShapeExtends(out: seq<Emit>, rest: seq<Emit>, started: bool, next: bool)
    requires WellFormed(out, started) && WellFormed(rest, next) && (next <==> started || out != [])
    requires !started && Texts(out) == [] ==> out == []
    requires !next && Texts(rest) == [] ==> rest == []
    ensures WellFormed(out + rest, started)
    ensures !started && Texts(out + rest) == [] ==> out + rest == []
  {
    TextsAppend(out, rest);
  }

  /** The key in force at a line: that of the latest init event before it. */
  function KeyAt(lines: seq<ChutesLine>, i: nat, s: ChutesSession): Option<StreamKey>
    requires i <= |lines|
  {
    if i == 0 then None
    else if lines[i - 1].Event? && KindOf(lines[i - 1].data).InitEvent? then InitKey(KindOf(lines[i - 1].data).text, s)
    else KeyAt(lines, i - 1, s)
  }

  predicate IsChunk(line: ChutesLine) {
    line.Event? && KindOf(line.data).ChunkEvent?
  }

  function ChunkCount(lines: seq<ChutesLine>): nat {
    if lines == [] then 0 else (if IsChunk(lines[|lines| - 1]) then 1 else 0) + ChunkCount(lines[..|lines| - 1])
  }

  /** `p` is what the chunk event at line `i` opens to under the key in force there. */
  ghost predicate OpenedAt(lines: seq<ChutesLine>, i: nat, p: string, s: ChutesSession) {
    && i < |lines| && IsChunk(lines[i]) && KeyAt(lines, i, s).Some?
    && ChunkText(KindOf(lines[i].data).text, KeyAt(lines, i, s).value, s) == Some(p)
  }

  /** `p` is the opening of the n-th chunk event. */
  ghost predicate NthOpened(lines: seq<ChutesLine>, n: nat, p: string, s: ChutesSession) {
    exists i: nat :: OpenedAt(lines, i, p, s) && ChunkCount(lines[..i]) == n
  }

  /** The n-th text is the opening of the n-th chunk event. */
  ghost predicate InOrder(lines: seq<ChutesLine>, texts: seq<string>, s: ChutesSession) {
    forall n :: 0 <= n < |texts| ==> NthOpened(lines, n, texts[n], s)
  }

  /** The part of the run after `i` lines, whose state and texts so far are given. */
  lemma {:induction false} RunInOrder(lines: seq<ChutesLine>, i: nat, failed: bool, st: State, s: ChutesSession, texts: seq<string>)
    requires i <= |lines| && st.key == KeyAt(lines, i, s)
    requires InOrder(lines, texts, s) && |texts| == ChunkCount(lines[..i])
    ensures InOrder(lines, texts + Texts(Run(lines[i..], failed, st, s).0), s)
    ensures Run(lines[i..], failed, st, s).1 == Relayed && End !in lines[i..] ==>
              |texts + Texts(Run(lines[i..], failed, st, s).0)| == ChunkCount(lines)
    decreases |lines| - i
  {
    hide KindOf, InitKey, ChunkText, InOrder, OpenedAt, Texts, React;
    assert texts + [] == texts && Texts([]) == [] by { NoTexts(); }
    if i == |lines| {
      assert lines[..i] == lines;
    } else {
      var r := React(lines[i], st, s);
      assert lines[i..][0] == lines[i] && lines[i..][1..] == lines[i + 1..];
      assert lines[..i + 1][..i] == lines[..i];
      TextsOfReaction(lines[i], st, s);
      KeyAfter(lines, i, st, s);
      if r.Continue? {
        var texts' := texts + Texts(r.out);
        OneMoreOpened(lines, i, st, s, texts);
        RunInOrder(lines, i + 1, failed, r.next, s, texts');
        var rest := Run(lines[i + 1..], failed, r.next, s).0;
        TextsAppend(r.out, rest);
        assert texts + (Texts(r.out) + Texts(rest)) == texts' + Texts(rest);
      }
    }
  }

  lemma NoTexts()
    ensures Texts([]) == []
  {
  }

  lemma KeyAfter(lines: seq<ChutesLine>, i: nat, st: State, s: ChutesSession)
    requires i < |lines| && st.key == KeyAt(lines, i, s)
    ensures React(lines[i], st, s).Continue? ==> lines[i] != End && React(lines[i], st, s).next.key == KeyAt(lines, i + 1, s)
    ensures React(lines[i], st, s).Stop? && React(lines[i], st, s).outcome == Relayed ==> lines[i] == End
  {
    hide KindOf, InitKey, ChunkText;
  }

  lemma TextsOfReaction(line: ChutesLine, st: State, s: ChutesSession)
    ensures var r := React(line, st, s);
            Texts(r.out) == if r.Continue? && IsChunk(line) then [ChunkText(KindOf(line.data).text, st.key.value, s).value] else []
  {
    hide KindOf, InitKey, ChunkText;
    var r := React(line, st, s);
    if r.Continue? && IsChunk(line) {
      TextsOfChunk(r.out, ChunkText(KindOf(line.data).text, st.key.value, s).value);
    }
  }

  lemma OneMoreOpened(lines: seq<ChutesLine>, i: nat, st: State, s: ChutesSession, texts: seq<string>)
    requires i < |lines| && st.key == KeyAt(lines, i, s) && React(lines[i], st, s).Continue?
    requires InOrder(lines, texts, s) && |texts| == ChunkCount(lines[..i])
    ensures InOrder(lines, texts + Texts(React(lines[i], st, s).out), s)
  {
    hide KindOf, InitKey, ChunkText;
    TextsOfReaction(lines[i], st, s);
    var more := Texts(React(lines[i], st, s).out);
    if IsChunk(lines[i]) {
      assert OpenedAt(lines, i, more[0], s);
      assert NthOpened(lines, |texts|, more[0], s);
    } else {
      assert texts + more == texts;
    }
  }

  /**
   Everything the client reads is authenticated: the n-th text is the opening of the n-th chunk
   event under the latest key before it, and a relay that succeeds without an end marker has
   delivered every chunk event.
   */
  lemma TextsAuthentic(lines: seq<ChutesLine>, failed: bool, s: ChutesSession)
    ensures var run := Run(lines, failed, START, s);
            && InOrder(lines, Texts(run.0), s)
            && (run.1 == Relayed && End !in lines ==> |Texts(run.0)| == ChunkCount(lines))
  {
    assert lines[0..] == lines;
    assert [] + Texts(Run(lines, failed, START, s).0) == Texts(Run(lines, failed, START, s).0);
    RunInOrder(lines, 0, failed, START, s, []);
  }

  // ---------------------------------------------------------------- the whole answer

  /** Event `i` ends the stream with a decryption failure. */
  ghost predicate Breaks(lines: seq<ChutesLine>, i: nat, s: ChutesSession)
    requires i < |lines|
  {
    lines[i].Event? &&
    match lines[i].data
    case Some(Obj(m)) =>
      if "e2e_init" in m then InitKey(m["e2e_init"], s).None?
      else if "e2e" in m then KeyAt(lines, i, s).None? || ChunkText(m["e2e"], KeyAt(lines, i, s).value, s).None?
      else "usage" !in m && "e2e_error" in m
    case Some(Null) => false
    case _ => true
  }

  /** None of the first `n` lines ends the stream. */
  ghost predicate Clean(lines: seq<ChutesLine>, n: nat, s: ChutesSession)
    requires n <= |lines|
  {
    forall i :: 0 <= i < n ==> !lines[i].End? && !Breaks(lines, i, s)
  }

  /** What a line that ends a started stream adds: a failure without a key to blame it on adds nothing. */
  function Closing(lines: seq<ChutesLine>, n: nat, s: ChutesSession): seq<Emit>
    requires n < |lines|
  {
    match lines[n]
    case End => [DoneLine]
    case Comment => []
    case Event(data) =>
      if data.None? || !data.value.Obj? then [ErrorEvent("chutes stream: unparseable event")]
      else if "e2e_init" in data.value.fields then []
      else if "e2e" in data.value.fields then if KeyAt(lines, n, s).None? then [] else [ErrorEvent("chutes stream decryption failed")]
      else [ErrorEvent("chutes server-side E2E error")]
  }

  /** The texts behind one header, if there are any. */
  function Opening(texts: seq<string>): seq<Emit> {
    if texts == [] then [] else [CHUTES_HEADER] + seq(|texts|, i requires 0 <= i < |texts| => Text(texts[i]))
  }

  /** A stream that ends with line `n`, or with the input if there is no such line. */
  ghost predicate EndsWith(lines: seq<ChutesLine>, n: nat, failed: bool, s: ChutesSession, texts: seq<string>, out: seq<Emit>, outcome: Outcome) {
    && n <= |lines| && Clean(lines, n, s) && |texts| == ChunkCount(lines[..n]) && InOrder(lines, texts, s)
    && if n == |lines| then out == Opening(texts) && outcome == if failed then RelayFailed else Relayed
       else
         && (lines[n].End? || Breaks(lines, n, s))
         && out == Opening(texts) + (if texts == [] then [] else Closing(lines, n, s))
         && outcome == if lines[n].End? then Relayed else DecryptionFailed
  }

  lemma NextReaction(lines: seq<ChutesLine>, i: nat, st: State, s: ChutesSession)
    requires i < |lines| && st.key == KeyAt(lines, i, s)
    ensures var r := React(lines[i], st, s);
            && (r.Stop? <==> lines[i].End? || Breaks(lines, i, s))
            && (r.Stop? ==>
                  && r.out == (if st.started then Closing(lines, i, s) else [])
                  && r.outcome == if lines[i].End? then Relayed else DecryptionFailed)
            && (r.Continue? ==> r.next.key == KeyAt(lines, i + 1, s))
  {
    hide InitKey, ChunkText;
    KeyAfter(lines, i, st, s);
  }

  lemma NextOpening(line: ChutesLine, st: State, s: ChutesSession, texts: seq<string>)
    requires React(line, st, s).Continue? && (st.started <==> texts != [])
    ensures var r := React(line, st, s);
            var more := if IsChunk(line) then [ChunkText(KindOf(line.data).text, st.key.value, s).value] else [];
            && Opening(texts) + r.out == Opening(texts + more) && (r.next.started <==> texts + more != [])
  {
    hide KindOf, InitKey, ChunkText;
    if !IsChunk(line) {
      assert texts + [] == texts && Opening(texts) + [] == Opening(texts);
    }
  }

  lemma CountNext(lines: seq<ChutesLine>, i: nat)
    requires i < |lines|
    ensures ChunkCount(lines[..i + 1]) == ChunkCount(lines[..i]) + if IsChunk(lines[i]) then 1 else 0
  {
    assert lines[..i + 1][..i] == lines[..i];
  }

  /** The rest of a stream of which these texts have been shown. */
  lemma {:induction false} RestEnds(lines: seq<ChutesLine>, i: nat, failed: bool, st: State, s: ChutesSession, texts: seq<string>)
      returns (n: nat, all: seq<string>)
    requires i <= |lines| && st.key == KeyAt(lines, i, s) && (st.started <==> texts != [])
    requires Clean(lines, i, s) && |texts| == ChunkCount(lines[..i]) && InOrder(lines, texts, s)
    ensures var run := Run(lines[i..], failed, st, s);
            EndsWith(lines, n, failed, s, all, Opening(texts) + run.0, run.1)
    decreases |lines| - i
  {
    hide React, KindOf, InitKey, ChunkText, InOrder, Breaks, Opening, Closing, ChunkCount, Texts;
    n, all := i, texts;
    if i == |lines| {
      assert Opening(texts) + [] == Opening(texts);
    } else {
      var r := React(lines[i], st, s);
      assert lines[i..][0] == lines[i] && lines[i..][1..] == lines[i + 1..];
      NextReaction(lines, i, st, s);
      if r.Continue? {
        NextOpening(lines[i], st, s, texts);
        TextsOfReaction(lines[i], st, s);
        OneMoreOpened(lines, i, st, s, texts);
        CountNext(lines, i);
        var texts' := texts + Texts(r.out);
        n, all := RestEnds(lines, i + 1, failed, r.next, s, texts');
        var rest := Run(lines[i + 1..], failed, r.next, s).0;
        assert Opening(texts) + (r.out + rest) == Opening(texts') + rest;
      }
    }
  }

  /**
   The whole answer. Up to the line that ends the stream, every chunk event has been opened under the
   latest key before it and shown in order, behind one header; then comes what that line adds.
   */
  lemma StreamEnds(lines: seq<ChutesLine>, failed: bool, s: ChutesSession)
    ensures exists n, texts :: EndsWith(lines, n, failed, s, texts, Run(lines, failed, START, s).0, Run(lines, failed, START, s).1)
  {
    hide Run, ChunkCount, ChunkText, KindOf, EndsWith;
    assert lines[0..] == lines && [] + Run(lines, failed, START, s).0 == Run(lines, failed, START, s).0;
    NoChunks(lines);
    var n, texts := RestEnds(lines, 0, failed, START, s, []);
  }

  lemma NoChunks(lines: seq<ChutesLine>)
    ensures ChunkCount(lines[..0]) == 0
  {
  }
}
