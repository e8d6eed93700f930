/**
 Decrypting a chat delta or message: which leaves are visited, under which policy path, and what
 the object becomes. The functions say it without an order of visits; the methods do it in place.
 */
module Decryption {
  import opened Json
  import opened FieldPolicy

  // ---------------------------------------------------------------- content

  function DecryptPart(part: Json, s: Session, endpoint: Endpoint): Result<Json> {
    match part
    case Null => Ok(Null)
    case Obj(m) =>
      var r := StringField(m, "text", s, CONTENT_TEXT, endpoint);
      if r.Ok? then Ok(Obj(r.value)) else Err
    case _ => Err
  }

  function PartDecryptor(s: Session, endpoint: Endpoint): Json -> Result<Json> {
    part => DecryptPart(part, s, endpoint)
  }

  /** A content value that is not null. */
  function DecryptContent(j: Json, s: Session, endpoint: Endpoint): Result<Json> {
    var required := s.policy(CONTENT, endpoint);
    if j.Str? then DecryptString(j, s, required)
    else if !j.Arr? || !s.policy(CONTENT_TEXT, endpoint) then if required then Err else Ok(j)
    else
      var r := MapAll(j.items, PartDecryptor(s, endpoint));
      if r.Ok? then Ok(Arr(r.value)) else Err
  }

  method DecryptContentField(obj: JsonObject, s: Session, endpoint: Endpoint) returns (ok: bool, changed: bool)
    modifies obj
    ensures Rewrites(old(obj.fields), AtKey(old(obj.fields), CONTENT, j => DecryptContent(j, s, endpoint)), obj.fields, ok, changed)
  {
    if CONTENT !in obj.fields || obj.fields[CONTENT].Null? {
      return true, false;
    }
    var raw := obj.fields[CONTENT];
    var requiresEncrypted := s.policy(CONTENT, endpoint);
    if raw.Str? {
      match DecryptFieldOrSkip(raw, s, requiresEncrypted) {
        case Rejected =>
          return false, false;
        case Skipped =>
          assert obj.fields[CONTENT := raw] == obj.fields;
          return true, false;
        case Plain(p) =>
          obj.fields := obj.fields[CONTENT := Str(p)];
          return true, true;
      }
    }
    assert obj.fields[CONTENT := raw] == obj.fields;
    if !raw.Arr? || !s.policy(CONTENT_TEXT, endpoint) {
      return !requiresEncrypted, false;
    }
    var parts;
    ok, changed, parts := DecryptParts(raw.items, s, endpoint);
    if ok && changed {
      obj.fields := obj.fields[CONTENT := Arr(parts)];
    }
  }

  /** The elements of a content array, one after another, up to the first that fails. */
  method DecryptParts(items: seq<Json>, s: Session, endpoint: Endpoint) returns (ok: bool, changed: bool, parts: seq<Json>)
    ensures match MapAll(items, PartDecryptor(s, endpoint))
            case Ok(v) => ok && parts == v && (!changed ==> v == items)
            case Err => !ok
  {
    var f := PartDecryptor(s, endpoint);
    parts, changed := items, false;
    for i := 0 to |items|
      invariant |parts| == |items|
      invariant forall k :: 0 <= k < i ==> f(items[k]) == Ok(parts[k])
      invariant forall k :: i <= k < |parts| ==> parts[k] == items[k]
      invariant !changed ==> parts == items
    {
      if items[i].Null? {
        continue;
      }
      if !items[i].Obj? {
        MapAllErr(items, f);
        assert f(items[i]).Err?;
        return false, false, items;
      }
      var part := new JsonObject(items[i].fields);
      var partOk, c := DecryptMaybeEncryptedStringField(part, "text", s, CONTENT_TEXT, endpoint);
      if !partOk {
        MapAllErr(items, f);
        assert f(items[i]).Err?;
        return false, false, items;
      }
      if c {
        parts := parts[i := Obj(part.fields)];
        changed := true;
      }
    }
    MapAllIff(items, f, parts);
    ok := true;
  }

  /** Rewrites the value at a key, if present and not null. */
  function AtKey(m: Fields, key: string, f: Json -> Result<Json>): Result<Fields> {
    if !Present(m, key) then Ok(m)
    else
      match f(m[key])
      case Ok(v) => Ok(m[key := v])
      case Err => Err
  }

  // ---------------------------------------------------------------- audio

  function DecryptAudio(j: Json, s: Session, endpoint: Endpoint): Result<Json> {
    if !j.Obj? then Err
    else
      var r := StringField(j.fields, "data", s, AUDIO_DATA, endpoint);
      if r.Ok? then Ok(Obj(r.value)) else Err
  }

  method DecryptAudioDataField(obj: JsonObject, s: Session, endpoint: Endpoint) returns (ok: bool, changed: bool)
    modifies obj
    ensures Rewrites(old(obj.fields), AtKey(old(obj.fields), "audio", j => DecryptAudio(j, s, endpoint)), obj.fields, ok, changed)
  {
    if "audio" !in obj.fields || obj.fields["audio"].Null? {
      return true, false;
    }
    var raw := obj.fields["audio"];
    if !raw.Obj? {
      return false, false;
    }
    var audio := new JsonObject(raw.fields);
    ok, changed := DecryptMaybeEncryptedStringField(audio, "data", s, AUDIO_DATA, endpoint);
    if !ok {
      return;
    }
    assert obj.fields[("audio") := raw] == obj.fields;
    if changed {
      obj.fields := obj.fields["audio" := Obj(audio.fields)];
    }
  }

  // ---------------------------------------------------------------- functions and tool calls

  /** The name and arguments of a function object. */
  function DecryptFunction(m: Fields, s: Session, base: string, endpoint: Endpoint): Result<Fields> {
    match StringField(m, "name", s, base + ".name", endpoint)
    case Err => Err
    case Ok(m') => StringField(m', "arguments", s, base + ".arguments", endpoint)
  }

  method DecryptFunctionObject(obj: JsonObject, s: Session, base: string, endpoint: Endpoint) returns (ok: bool, changed: bool)
    modifies obj
    ensures Rewrites(old(obj.fields), DecryptFunction(old(obj.fields), s, base, endpoint), obj.fields, ok, changed)
  {
    ok, changed := DecryptMaybeEncryptedStringField(obj, "name", s, base + ".name", endpoint);
    if !ok {
      return;
    }
    var c;
    ok, c := DecryptMaybeEncryptedStringField(obj, "arguments", s, base + ".arguments", endpoint);
    changed := changed || c;
  }

  function DecryptFunctionValue(j: Json, s: Session, base: string, endpoint: Endpoint): Result<Json> {
    if !j.Obj? then Err
    else
      var r := DecryptFunction(j.fields, s, base, endpoint);
      if r.Ok? then Ok(Obj(r.value)) else Err
  }

  function DecryptCall(call: Json, s: Session, endpoint: Endpoint): Result<Json> {
    match call
    case Null => Ok(Null)
    case Obj(m) =>
      var r := AtKey(m, "function", j => DecryptFunctionValue(j, s, TOOL_FUNCTION, endpoint));
      if r.Ok? then Ok(Obj(r.value)) else Err
    case _ => Err
  }

  function CallDecryptor(s: Session, endpoint: Endpoint): Json -> Result<Json> {
    call => DecryptCall(call, s, endpoint)
  }

  function DecryptToolCalls(j: Json, s: Session, endpoint: Endpoint): Result<Json> {
    if !j.Arr? then Err
    else
      var r := MapAll(j.items, CallDecryptor(s, endpoint));
      if r.Ok? then Ok(Arr(r.value)) else Err
  }

  method DecryptToolCallsField(obj: JsonObject, s: Session, endpoint: Endpoint) returns (ok: bool, changed: bool)
    modifies obj
    ensures Rewrites(old(obj.fields), AtKey(old(obj.fields), "tool_calls", j => DecryptToolCalls(j, s, endpoint)), obj.fields, ok, changed)
  {
    if "tool_calls" !in obj.fields || obj.fields["tool_calls"].Null? {
      return true, false;
    }
    var raw := obj.fields["tool_calls"];
    assert obj.fields["tool_calls" := raw] == obj.fields;
    if !raw.Arr? {
      return false, false;
    }
    var calls;
    ok, changed, calls := DecryptCalls(raw.items, s, endpoint);
    if ok && changed {
      obj.fields := obj.fields["tool_calls" := Arr(calls)];
    }
  }

  /** The elements of a tool_calls array; one that is neither an object nor null does not unmarshal. */
  method DecryptCalls(items: seq<Json>, s: Session, endpoint: Endpoint) returns (ok: bool, changed: bool, calls: seq<Json>)
    ensures match MapAll(items, CallDecryptor(s, endpoint))
            case Ok(v) => ok && calls == v && (!changed ==> v == items)
            case Err => !ok
  {
    var f := CallDecryptor(s, endpoint);
    calls, changed := items, false;
    if exists i :: 0 <= i < |items| && !items[i].Obj? && !items[i].Null? {
      MapAllErr(items, f);
      var i :| 0 <= i < |items| && !items[i].Obj? && !items[i].Null?;
      assert f(items[i]).Err?;
      return false, false, items;
    }
    for i := 0 to |items|
      invariant |calls| == |items|
      invariant forall k :: 0 <= k < i ==> f(items[k]) == Ok(calls[k])
      invariant forall k :: i <= k < |calls| ==> calls[k] == items[k]
      invariant !changed ==> calls == items
    {
      hide MapAll, DecryptFunction;
      var callOk, c, call := DecryptOneCall(items[i], s, endpoint);
      if !callOk {
        MapAllErr(items, f);
        assert f(items[i]).Err?;
        return false, false, items;
      }
      if c {
        calls := calls[i := call];
        changed := true;
      }
    }
    MapAllIff(items, f, calls);
    ok := true;
  }

  /** One element of the array: its function object is rewritten, everything else stays. */
  method DecryptOneCall(call: Json, s: Session, endpoint: Endpoint) returns (ok: bool, changed: bool, call': Json)
    requires call.Obj? || call.Null?
    ensures match DecryptCall(call, s, endpoint)
            case Ok(v) => ok && call' == v && (!changed ==> call' == call)
            case Err => !ok
  {
    call' := call;
    if call.Null? || "function" !in call.fields || call.fields["function"].Null? {
      return true, false, call;
    }
    var fnRaw := call.fields["function"];
    if !fnRaw.Obj? {
      return false, false, call;
    }
    var fn := new JsonObject(fnRaw.fields);
    ok, changed := DecryptFunctionObject(fn, s, TOOL_FUNCTION, endpoint);
    assert call.fields["function" := fnRaw] == call.fields;
    if ok && changed {
      call' := Obj(call.fields["function" := Obj(fn.fields)]);
    }
  }

  /** The deprecated function_call may also be a string, which stays. */
  function DecryptFunctionCall(j: Json, s: Session, endpoint: Endpoint): Result<Json> {
    if !j.Obj? then Ok(j) else DecryptFunctionValue(j, s, FUNCTION_CALL, endpoint)
  }

  method DecryptFunctionCallField(obj: JsonObject, s: Session, endpoint: Endpoint) returns (ok: bool, changed: bool)
    modifies obj
    ensures Rewrites(old(obj.fields), AtKey(old(obj.fields), "function_call", j => DecryptFunctionCall(j, s, endpoint)), obj.fields, ok, changed)
  {
    if "function_call" !in obj.fields || obj.fields["function_call"].Null? {
      return true, false;
    }
    var raw := obj.fields["function_call"];
    assert obj.fields["function_call" := raw] == obj.fields;
    if !raw.Obj? {
      return true, false;
    }
    var fc := new JsonObject(raw.fields);
    ok, changed := DecryptFunctionObject(fc, s, FUNCTION_CALL, endpoint);
    if ok && changed {
      obj.fields := obj.fields["function_call" := Obj(fc.fields)];
    }
  }

  // ---------------------------------------------------------------- the whole object

  /** What one entry of a delta or message becomes. */
  function DecryptEntry(key: string, j: Json, s: Session, endpoint: Endpoint): Result<Json> {
    if j.Null? || IsNonEncryptedField(key) then Ok(j)
    else if key == CONTENT then DecryptContent(j, s, endpoint)
    else if key == "audio" then if s.policy(AUDIO_DATA, endpoint) then DecryptAudio(j, s, endpoint) else Ok(j)
    else if key == "tool_calls" then
      if s.policy("tool_calls[].function.name", endpoint) then DecryptToolCalls(j, s, endpoint) else Ok(j)
    else if key == "function_call" then
      if s.policy("function_call.name", endpoint) then DecryptFunctionCall(j, s, endpoint) else Ok(j)
    else DecryptString(j, s, s.policy(key, endpoint))
  }

  /** The whole object, entry by entry: no order of visits is involved. */
  ghost function DecryptFields(m: Fields, s: Session, endpoint: Endpoint): Result<Fields> {
    if forall k <- m :: DecryptEntry(k, m[k], s, endpoint).Ok?
    then Ok(map k <- m :: DecryptEntry(k, m[k], s, endpoint).value)
    else Err
  }

  lemma BadEntryFails(m: Fields, k: string, s: Session, endpoint: Endpoint)
    requires k in m && DecryptEntry(k, m[k], s, endpoint).Err?
    ensures DecryptFields(m, s, endpoint).Err?
  {
  }

  /** Which keys are settled once the plain keys in `done` and the given groups have been handled. */
  ghost predicate Settled(key: string, done: set<string>, groups: set<string>) {
    if IsStructured(key) then key in groups else key in done
  }

  ghost predicate Progress(m: Fields, now: Fields, done: set<string>, groups: set<string>, s: Session, endpoint: Endpoint) {
    && now.Keys == m.Keys
    && (forall k <- m :: Settled(k, done, groups) ==> DecryptEntry(k, m[k], s, endpoint) == Ok(now[k]))
    && (forall k <- m :: !Settled(k, done, groups) ==> now[k] == m[k])
  }

  lemma Unsettled(m: Fields, now: Fields, done: set<string>, groups: set<string>, s: Session, endpoint: Endpoint, key: string)
    requires Progress(m, now, done, groups, s, endpoint) && key in m && !Settled(key, done, groups)
    ensures key in now && now[key] == m[key]
  {
  }

  /** Handling one more key in the loop. */
  lemma KeyDone(m: Fields, now: Fields, next: Fields, done: set<string>, s: Session, endpoint: Endpoint, key: string)
    requires Progress(m, now, done, {}, s, endpoint) && key in m && key in next && next == now[key := next[key]]
    requires if IsStructured(key) then key in now && next[key] == now[key]
             else DecryptEntry(key, m[key], s, endpoint) == Ok(next[key])
    ensures Progress(m, next, done + {key}, {}, s, endpoint)
  {
    hide DecryptEntry;
  }

  /** Handling one more group. */
  lemma GroupDone(m: Fields, now: Fields, next: Fields, groups: set<string>, s: Session, endpoint: Endpoint, key: string)
    requires Progress(m, now, m.Keys, groups, s, endpoint) && IsStructured(key)
    requires key !in m ==> next == now
    requires key in m ==>
               key in next && next == now[key := next[key]] && DecryptEntry(key, m[key], s, endpoint) == Ok(next[key])
    ensures Progress(m, next, m.Keys, groups + {key}, s, endpoint)
  {
    hide DecryptEntry;
  }

  /**
   Decrypts in place, visiting keys in an arbitrary order; the result is the order-free one.
   */
  method DecryptChatObject(obj: JsonObject, s: Session, endpoint: Endpoint) returns (ok: bool, changed: bool)
    modifies obj
    ensures Rewrites(old(obj.fields), DecryptFields(old(obj.fields), s, endpoint), obj.fields, ok, changed)
  {
    ghost var before := obj.fields;
    changed := false;
    var todo := obj.fields.Keys;
    ghost var done: set<string> := {};
    assert Progress(before, obj.fields, {}, {}, s, endpoint);
    while todo != {}
      invariant todo !! done && todo + done == before.Keys && obj.fields.Keys == before.Keys
      invariant Progress(before, obj.fields, done, {}, s, endpoint)
      invariant !changed ==> obj.fields == before
      decreases todo
    {
      hide Progress, DecryptEntry;
      var key :| key in todo;
      Unsettled(before, obj.fields, done, {}, s, endpoint, key);
      ghost var now := obj.fields;
      var c;
      ok, c := DecryptPlainKey(obj, key, s, endpoint);
      if !ok {
        BadEntryFails(before, key, s, endpoint);
        return false, false;
      }
      KeyDone(before, now, obj.fields, done, s, endpoint, key);
      changed := changed || c;
      todo, done := todo - {key}, done + {key};
    }
    assert done == before.Keys;
    var c;
    ok, c := AudioGroup(obj, before, s, endpoint);
    changed := changed || c;
    if ok {
      ok, c := ToolCallsGroup(obj, before, s, endpoint);
      changed := changed || c;
    }
    if ok {
      ok, c := FunctionCallGroup(obj, before, s, endpoint);
      changed := changed || c;
    }
    if ok {
      assert {} + {"audio"} + {"tool_calls"} + {"function_call"} == {"audio", "tool_calls", "function_call"};
      AllSettled(before, obj.fields, s, endpoint);
    }
  }

  lemma AllSettled(m: Fields, now: Fields, s: Session, endpoint: Endpoint)
    requires Progress(m, now, m.Keys, {"audio", "tool_calls", "function_call"}, s, endpoint)
    ensures DecryptFields(m, s, endpoint) == Ok(now)
  {
    hide DecryptEntry;
    assert now == map k <- m :: DecryptEntry(k, m[k], s, endpoint).value;
  }

  /** One round of the loop over keys. */
  method DecryptPlainKey(obj: JsonObject, key: string, s: Session, endpoint: Endpoint) returns (ok: bool, changed: bool)
    requires key in obj.fields
    modifies obj
    ensures var r := if IsStructured(key) then Ok(old(obj.fields[key])) else DecryptEntry(key, old(obj.fields[key]), s, endpoint);
            if r.Ok? then ok && obj.fields == old(obj.fields)[key := r.value] && (!changed ==> obj.fields == old(obj.fields))
            else !ok
  {
    assert obj.fields[key := obj.fields[key]] == obj.fields;
    if IsNonEncryptedField(key) {
      return true, false;
    }
    if key == CONTENT {
      ok, changed := DecryptContentField(obj, s, endpoint);
      return;
    }
    if IsStructured(key) {
      return true, false;
    }
    ok, changed := DecryptMaybeEncryptedStringField(obj, key, s, key, endpoint);
  }

  /** The audio group, behind its own policy leaf. */
  method AudioGroup(obj: JsonObject, ghost before: Fields, s: Session, endpoint: Endpoint) returns (ok: bool, changed: bool)
    requires obj.fields.Keys == before.Keys
    requires Progress(before, obj.fields, before.Keys, {}, s, endpoint)
    modifies obj
    ensures ok ==> Progress(before, obj.fields, before.Keys, {} + {"audio"}, s, endpoint)
    ensures ok ==> obj.fields.Keys == before.Keys && (!changed ==> obj.fields == old(obj.fields))
    ensures !ok ==> DecryptFields(before, s, endpoint).Err?
  {
    hide Progress;
    ghost var now := obj.fields;
    ok, changed := true, false;
    if "audio" in before {
      Unsettled(before, now, before.Keys, {}, s, endpoint, "audio");
      assert now["audio" := now["audio"]] == now;
    }
    if s.policy(AUDIO_DATA, endpoint) {
      ok, changed := DecryptAudioDataField(obj, s, endpoint);
      if !ok {
        BadEntryFails(before, "audio", s, endpoint);
        return;
      }
    }
    GroupDone(before, now, obj.fields, {}, s, endpoint, "audio");
  }

  /** The tool_calls group. */
  method ToolCallsGroup(obj: JsonObject, ghost before: Fields, s: Session, endpoint: Endpoint) returns (ok: bool, changed: bool)
    requires obj.fields.Keys == before.Keys
    requires Progress(before, obj.fields, before.Keys, ({} + {"audio"}), s, endpoint)
    modifies obj
    ensures ok ==> Progress(before, obj.fields, before.Keys, ({} + {"audio"}) + {"tool_calls"}, s, endpoint)
    ensures ok ==> obj.fields.Keys == before.Keys && (!changed ==> obj.fields == old(obj.fields))
    ensures !ok ==> DecryptFields(before, s, endpoint).Err?
  {
    hide Progress;
    ghost var now := obj.fields;
    ok, changed := true, false;
    if "tool_calls" in before {
      Unsettled(before, now, before.Keys, ({} + {"audio"}), s, endpoint, "tool_calls");
      assert now["tool_calls" := now["tool_calls"]] == now;
    }
    if s.policy("tool_calls[].function.name", endpoint) {
      ok, changed := DecryptToolCallsField(obj, s, endpoint);
      if !ok {
        BadEntryFails(before, "tool_calls", s, endpoint);
        return;
      }
    }
    GroupDone(before, now, obj.fields, ({} + {"audio"}), s, endpoint, "tool_calls");
  }

  /** The function_call group. */
  method FunctionCallGroup(obj: JsonObject, ghost before: Fields, s: Session, endpoint: Endpoint) returns (ok: bool, changed: bool)
    requires obj.fields.Keys == before.Keys
    requires Progress(before, obj.fields, before.Keys, ({} + {"audio"} + {"tool_calls"}), s, endpoint)
    modifies obj
    ensures ok ==> Progress(before, obj.fields, before.Keys, ({} + {"audio"} + {"tool_calls"}) + {"function_call"}, s, endpoint)
    ensures ok ==> obj.fields.Keys == before.Keys && (!changed ==> obj.fields == old(obj.fields))
    ensures !ok ==> DecryptFields(before, s, endpoint).Err?
  {
    hide Progress;
    ghost var now := obj.fields;
    ok, changed := true, false;
    if "function_call" in before {
      Unsettled(before, now, before.Keys, ({} + {"audio"} + {"tool_calls"}), s, endpoint, "function_call");
      assert now["function_call" := now["function_call"]] == now;
    }
    if s.policy("function_call.name", endpoint) {
      ok, changed := DecryptFunctionCallField(obj, s, endpoint);
      if !ok {
        BadEntryFails(before, "function_call", s, endpoint);
        return;
      }
    }
    GroupDone(before, now, obj.fields, ({} + {"audio"} + {"tool_calls"}), s, endpoint, "function_call");
  }
}
