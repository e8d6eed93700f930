/**
 Encrypting the fields of a chat message for NearCloud, in place. Sealing is randomised, so the
 outcome is a relation between the message before and after.
 */
module Encryption {
  import opened Bytes
  import opened Json
  import opened FieldPolicy

  /**
   The model's public key: `seal` takes fresh randomness and a plaintext and may fail; `text` is
   the JSON text of a value.
   */
  datatype Recipient = Recipient(seal: (nat, string) -> Option<string>, text: Json -> string)

  /** A source of randomness: every draw may be anything, here a fresh number. */
  class Randomness {
    var next: nat

    method Draw() returns (r: nat)
      modifies this
      ensures r == old(next) && next == r + 1
    {
      r, next := next, next + 1;
    }
  }

  const OPTIONAL_STRINGS: seq<string> := ["reasoning_content", "reasoning", "refusal", "name"]

  predicate IsOptionalString(key: string) {
    key in {"reasoning_content", "reasoning", "refusal", "name"}
  }

  predicate IsHandled(key: string) {
    key == CONTENT || IsOptionalString(key) || IsStructured(key)
  }

  /** `c` is a ciphertext of `p`. */
  ghost predicate SealOf(rcpt: Recipient, p: string, c: string) {
    exists r: nat :: rcpt.seal(r, p) == Some(c)
  }

  ghost predicate Sealed(j: Json, j': Json, rcpt: Recipient) {
    j.Str? && j'.Str? && SealOf(rcpt, j.s, j'.s)
  }

  /** A present, non-null string at `key` became a ciphertext of itself; nothing else changed. */
  ghost predicate StringSealed(m: Fields, m': Fields, key: string, rcpt: Recipient) {
    if !Present(m, key) then m' == m
    else key in m' && m' == m[key := m'[key]] && Sealed(m[key], m'[key], rcpt)
  }

  predicate StringOrNone(m: Fields, key: string) {
    Present(m, key) ==> m[key].Str?
  }

  ghost predicate FunctionSealed(m: Fields, m': Fields, rcpt: Recipient) {
    exists mid :: StringSealed(m, mid, "name", rcpt) && StringSealed(mid, m', "arguments", rcpt)
  }

  ghost predicate FunctionValueSealed(j: Json, j': Json, rcpt: Recipient) {
    j.Obj? && j'.Obj? && FunctionSealed(j.fields, j'.fields, rcpt)
  }

  ghost predicate CallSealed(call: Json, call': Json, rcpt: Recipient) {
    if call.Null? then call' == call
    else
      && call.Obj? && call'.Obj?
      && var m, m' := call.fields, call'.fields;
         if !Present(m, "function") then m' == m
         else "function" in m' && m' == m["function" := m'["function"]] && FunctionValueSealed(m["function"], m'["function"], rcpt)
  }

  /** What encryption may make of one entry of the message. */
  ghost predicate EntrySealed(key: string, j: Json, j': Json, rcpt: Recipient) {
    if j.Null? then j' == j
    else if key == CONTENT then
      Sealed(j, j', rcpt) || (j.Arr? && j'.Str? && SealOf(rcpt, rcpt.text(j), j'.s))
    else if IsOptionalString(key) then Sealed(j, j', rcpt)
    else if key == "audio" then j.Obj? && j'.Obj? && StringSealed(j.fields, j'.fields, "data", rcpt)
    else if key == "tool_calls" then
      && j.Arr? && j'.Arr? && |j.items| == |j'.items|
      && forall i :: 0 <= i < |j.items| ==> CallSealed(j.items[i], j'.items[i], rcpt)
    else if key == "function_call" then if j.Obj? then FunctionValueSealed(j, j', rcpt) else j' == j
    else j' == j
  }

  /** Which entries have a type the encryptor accepts. */
  ghost predicate EntryEncryptable(key: string, j: Json) {
    if j.Null? then true
    else if key == CONTENT then j.Str? || j.Arr?
    else if IsOptionalString(key) then j.Str?
    else if key == "audio" then j.Obj? && StringOrNone(j.fields, "data")
    else if key == "tool_calls" then j.Arr? && forall c <- j.items :: CallEncryptable(c)
    else if key == "function_call" then j.Obj? ==> FunctionEncryptable(j.fields)
    else true
  }

  predicate FunctionEncryptable(m: Fields) {
    StringOrNone(m, "name") && StringOrNone(m, "arguments")
  }

  predicate CallEncryptable(call: Json) {
    || call.Null?
    || (call.Obj? && (Present(call.fields, "function") ==>
          call.fields["function"].Obj? && FunctionEncryptable(call.fields["function"].fields)))
  }

  ghost predicate MessageSealed(m: Fields, m': Fields, rcpt: Recipient) {
    m'.Keys == m.Keys && forall k <- m :: EntrySealed(k, m[k], m'[k], rcpt)
  }

  ghost predicate MessageEncryptable(m: Fields) {
    forall k <- m :: EntryEncryptable(k, m[k])
  }

  // ---------------------------------------------------------------- when sealing fails

  /** The string at `key` cannot be sealed with this draw. */
  predicate StringFails(m: Fields, key: string, rcpt: Recipient, draw: nat) {
    Present(m, key) && m[key].Str? && rcpt.seal(draw, m[key].s).None?
  }

  predicate FunctionFails(m: Fields, rcpt: Recipient, draw: nat) {
    StringFails(m, "name", rcpt, draw) || StringFails(m, "arguments", rcpt, draw)
  }

  predicate CallFails(call: Json, rcpt: Recipient, draw: nat) {
    call.Obj? && Present(call.fields, "function") && call.fields["function"].Obj? && FunctionFails(call.fields["function"].fields, rcpt, draw)
  }

  /** Some text that encryption takes from this entry cannot be sealed with this draw. */
  ghost predicate EntryFails(key: string, j: Json, rcpt: Recipient, draw: nat) {
    if key == CONTENT then (j.Str? && rcpt.seal(draw, j.s).None?) || (j.Arr? && rcpt.seal(draw, rcpt.text(j)).None?)
    else if IsOptionalString(key) then j.Str? && rcpt.seal(draw, j.s).None?
    else if key == "audio" then j.Obj? && StringFails(j.fields, "data", rcpt, draw)
    else if key == "tool_calls" then j.Arr? && exists c <- j.items :: CallFails(c, rcpt, draw)
    else key == "function_call" && j.Obj? && FunctionFails(j.fields, rcpt, draw)
  }

  ghost predicate MessageFails(m: Fields, rcpt: Recipient, draw: nat) {
    exists k <- m :: EntryFails(k, m[k], rcpt, draw)
  }

  // ---------------------------------------------------------------- the encryptor

  method Seal(p: string, rng: Randomness, rcpt: Recipient) returns (c: Option<string>)
    modifies rng
    ensures c == rcpt.seal(old(rng.next), p) && rng.next == old(rng.next) + 1
    ensures c.Some? ==> SealOf(rcpt, p, c.value)
  {
    var r := rng.Draw();
    c := rcpt.seal(r, p);
  }

  method EncryptOptionalStringField(obj: JsonObject, key: string, rng: Randomness, rcpt: Recipient) returns (ok: bool)
    modifies obj, rng
    ensures old(rng.next) <= rng.next
    ensures ok ==> StringSealed(old(obj.fields), obj.fields, key, rcpt)
    ensures !ok ==> !StringOrNone(old(obj.fields), key) || (old(rng.next) < rng.next && StringFails(old(obj.fields), key, rcpt, rng.next - 1))
  {
    if key !in obj.fields || obj.fields[key].Null? {
      return true;
    }
    if !obj.fields[key].Str? {
      return false;
    }
    var ct := Seal(obj.fields[key].s, rng, rcpt);
    if ct.None? {
      return false;
    }
    obj.fields := obj.fields[key := Str(ct.value)];
    ok := true;
  }

  method EncryptMessageContent(obj: JsonObject, rng: Randomness, rcpt: Recipient) returns (ok: bool)
    modifies obj, rng
    ensures old(rng.next) <= rng.next
    ensures EntryStep(old(obj.fields), obj.fields, CONTENT, ok, rcpt, old(rng.next), rng.next)
  {
    if CONTENT !in obj.fields {
      return true;
    }
    var raw := obj.fields[CONTENT];
    assert obj.fields[CONTENT := raw] == obj.fields;
    if raw.Null? {
      return true;
    }
    var plaintext;
    if raw.Str? {
      plaintext := raw.s;
    } else if raw.Arr? {
      plaintext := rcpt.text(raw);
    } else {
      return false;
    }
    var ct := Seal(plaintext, rng, rcpt);
    if ct.None? {
      return false;
    }
    obj.fields := obj.fields[CONTENT := Str(ct.value)];
    ok := true;
  }

  method EncryptFunction(obj: JsonObject, rng: Randomness, rcpt: Recipient) returns (ok: bool)
    modifies obj, rng
    ensures old(rng.next) <= rng.next
    ensures ok ==> FunctionSealed(old(obj.fields), obj.fields, rcpt)
    ensures !ok ==> !FunctionEncryptable(old(obj.fields)) || (old(rng.next) < rng.next && FunctionFails(old(obj.fields), rcpt, rng.next - 1))
  {
    ok := EncryptOptionalStringField(obj, "name", rng, rcpt);
    if ok {
      ok := EncryptOptionalStringField(obj, "arguments", rng, rcpt);
    }
  }

  method EncryptAudioDataField(obj: JsonObject, rng: Randomness, rcpt: Recipient) returns (ok: bool)
    modifies obj, rng
    ensures old(rng.next) <= rng.next
    ensures EntryStep(old(obj.fields), obj.fields, "audio", ok, rcpt, old(rng.next), rng.next)
  {
    if "audio" !in obj.fields {
      return true;
    }
    var raw := obj.fields["audio"];
    assert obj.fields["audio" := raw] == obj.fields;
    if raw.Null? {
      return true;
    }
    if !raw.Obj? {
      return false;
    }
    var audio := new JsonObject(raw.fields);
    ok := EncryptOptionalStringField(audio, "data", rng, rcpt);
    if ok {
      obj.fields := obj.fields["audio" := Obj(audio.fields)];
    }
  }

  /** One entry was encrypted, or the step failed for a stated reason. */
  ghost predicate EntryStep(m: Fields, m': Fields, key: string, ok: bool, rcpt: Recipient, from: nat, upto: nat) {
    if ok then
      if key in m then key in m' && m' == m[key := m'[key]] && EntrySealed(key, m[key], m'[key], rcpt) else m' == m
    else key in m && (!EntryEncryptable(key, m[key]) || (from < upto && EntryFails(key, m[key], rcpt, upto - 1)))
  }

  method EncryptOneCall(call: Json, rng: Randomness, rcpt: Recipient) returns (ok: bool, call': Json)
    requires call.Obj? || call.Null?
    modifies rng
    ensures old(rng.next) <= rng.next
    ensures ok ==> CallSealed(call, call', rcpt)
    ensures !ok ==> !CallEncryptable(call) || (old(rng.next) < rng.next && CallFails(call, rcpt, rng.next - 1))
  {
    call' := call;
    if call.Null? || "function" !in call.fields || call.fields["function"].Null? {
      return true, call;
    }
    if !call.fields["function"].Obj? {
      return false, call;
    }
    var fn := new JsonObject(call.fields["function"].fields);
    ok := EncryptFunction(fn, rng, rcpt);
    if ok {
      call' := Obj(call.fields["function" := Obj(fn.fields)]);
    }
  }

  method EncryptToolCallsField(obj: JsonObject, rng: Randomness, rcpt: Recipient) returns (ok: bool)
    modifies obj, rng
    ensures old(rng.next) <= rng.next
    ensures EntryStep(old(obj.fields), obj.fields, "tool_calls", ok, rcpt, old(rng.next), rng.next)
  {
    if "tool_calls" !in obj.fields {
      return true;
    }
    var raw := obj.fields["tool_calls"];
    assert obj.fields["tool_calls" := raw] == obj.fields;
    if raw.Null? {
      return true;
    }
    if !raw.Arr? {
      return false;
    }
    var calls := raw.items;
    if exists i :: 0 <= i < |calls| && !calls[i].Obj? && !calls[i].Null? {
      var i :| 0 <= i < |calls| && !calls[i].Obj? && !calls[i].Null?;
      assert calls[i] in raw.items && !CallEncryptable(calls[i]);
      return false;
    }
    for i := 0 to |calls|
      invariant |calls| == |raw.items| && obj.fields == old(obj.fields) && old(rng.next) <= rng.next
      invariant forall k :: 0 <= k < i ==> CallSealed(raw.items[k], calls[k], rcpt)
      invariant forall k :: i <= k < |calls| ==> calls[k] == raw.items[k]
    {
      var call;
      ok, call := EncryptOneCall(calls[i], rng, rcpt);
      if !ok {
        assert raw.items[i] in raw.items;
        return;
      }
      calls := calls[i := call];
    }
    obj.fields := obj.fields["tool_calls" := Arr(calls)];
    ok := true;
  }

  method EncryptFunctionCallField(obj: JsonObject, rng: Randomness, rcpt: Recipient) returns (ok: bool)
    modifies obj, rng
    ensures old(rng.next) <= rng.next
    ensures EntryStep(old(obj.fields), obj.fields, "function_call", ok, rcpt, old(rng.next), rng.next)
  {
    if "function_call" !in obj.fields {
      return true;
    }
    var raw := obj.fields["function_call"];
    assert obj.fields["function_call" := raw] == obj.fields;
    if !raw.Obj? {
      return true;
    }
    var fc := new JsonObject(raw.fields);
    ok := EncryptFunction(fc, rng, rcpt);
    if ok {
      obj.fields := obj.fields["function_call" := Obj(fc.fields)];
    }
  }

  ghost predicate Encrypting(m: Fields, now: Fields, done: set<string>, rcpt: Recipient) {
    && now.Keys == m.Keys
    && (forall k <- m :: k in done ==> EntrySealed(k, m[k], now[k], rcpt))
    && (forall k <- m :: k !in done ==> now[k] == m[k])
  }

  lemma NothingEncrypted(m: Fields, rcpt: Recipient)
    ensures Encrypting(m, m, {}, rcpt)
  {
    hide EntrySealed;
  }

  lemma EncryptedOne(m: Fields, now: Fields, next: Fields, done: set<string>, key: string, rcpt: Recipient, from: nat, upto: nat)
    requires Encrypting(m, now, done, rcpt) && key !in done && EntryStep(now, next, key, true, rcpt, from, upto)
    ensures Encrypting(m, next, done + {key}, rcpt)
  {
    hide EntrySealed;
  }

  lemma FailedOne(m: Fields, now: Fields, next: Fields, done: set<string>, key: string, rcpt: Recipient, from: nat, upto: nat)
    requires Encrypting(m, now, done, rcpt) && key !in done && EntryStep(now, next, key, false, rcpt, from, upto)
    ensures !MessageEncryptable(m) || (from < upto && MessageFails(m, rcpt, upto - 1))
  {
    hide EntrySealed, EntryEncryptable, EntryFails;
  }

  /** Encrypts every supported field of a message. */
  method EncryptMessageFields(obj: JsonObject, rng: Randomness, rcpt: Recipient) returns (ok: bool)
    modifies obj, rng
    ensures old(rng.next) <= rng.next
    ensures ok ==> MessageSealed(old(obj.fields), obj.fields, rcpt)
    ensures !ok ==> !MessageEncryptable(old(obj.fields)) || (old(rng.next) < rng.next && MessageFails(old(obj.fields), rcpt, rng.next - 1))
  {
    hide Encrypting, MessageEncryptable, MessageFails, MessageSealed, Done;
    ghost var before := obj.fields;
    ok := EncryptContent(obj, rng, rcpt);
    if ok {
      ok := EncryptOptionals(obj, before, rng, rcpt);
    }
    if ok {
      ok := EncryptStructured(obj, before, rng, rcpt);
    }
  }

  method EncryptContent(obj: JsonObject, rng: Randomness, rcpt: Recipient) returns (ok: bool)
    modifies obj, rng
    ensures old(rng.next) <= rng.next
    ensures ok ==> Encrypting(old(obj.fields), obj.fields, Done(0), rcpt)
    ensures !ok ==> !MessageEncryptable(old(obj.fields)) || (old(rng.next) < rng.next && MessageFails(old(obj.fields), rcpt, rng.next - 1))
  {
    hide EntrySealed, EntryEncryptable, EntryFails, Encrypting, MessageEncryptable, MessageFails, EntryStep, Done;
    ghost var before, from := obj.fields, rng.next;
    NothingEncrypted(before, rcpt);
    DoneFirst();
    ok := EncryptMessageContent(obj, rng, rcpt);
    if ok {
      EncryptedOne(before, before, obj.fields, {}, CONTENT, rcpt, from, rng.next);
    } else {
      FailedOne(before, before, obj.fields, {}, CONTENT, rcpt, from, rng.next);
    }
  }

  method EncryptOptionals(obj: JsonObject, ghost before: Fields, rng: Randomness, rcpt: Recipient) returns (ok: bool)
    requires Encrypting(before, obj.fields, Done(0), rcpt)
    modifies obj, rng
    ensures old(rng.next) <= rng.next
    ensures ok ==> Encrypting(before, obj.fields, Done(|OPTIONAL_STRINGS|), rcpt)
    ensures !ok ==> !MessageEncryptable(before) || (old(rng.next) < rng.next && MessageFails(before, rcpt, rng.next - 1))
  {
    hide Encrypting, MessageEncryptable, MessageFails, Done;
    for i := 0 to |OPTIONAL_STRINGS|
      invariant Encrypting(before, obj.fields, Done(i), rcpt) && old(rng.next) <= rng.next
    {
      ok := EncryptNthOptional(obj, before, i, rng, rcpt);
      if !ok {
        return;
      }
    }
    ok := true;
  }

  method EncryptNthOptional(obj: JsonObject, ghost before: Fields, i: nat, rng: Randomness, rcpt: Recipient) returns (ok: bool)
    requires i < |OPTIONAL_STRINGS| && Encrypting(before, obj.fields, Done(i), rcpt)
    modifies obj, rng
    ensures old(rng.next) <= rng.next
    ensures ok ==> Encrypting(before, obj.fields, Done(i + 1), rcpt)
    ensures !ok ==> !MessageEncryptable(before) || (old(rng.next) < rng.next && MessageFails(before, rcpt, rng.next - 1))
  {
    hide EntrySealed, EntryEncryptable, EntryFails, Encrypting, MessageEncryptable, MessageFails, MessageSealed, EntryStep, Done;
    DoneStep(i);
    var key := OPTIONAL_STRINGS[i];
    ghost var now, from := obj.fields, rng.next;
    ok := EncryptOptionalStringField(obj, key, rng, rcpt);
    OptionalStep(now, obj.fields, key, ok, rcpt, from, rng.next);
    if ok {
      EncryptedOne(before, now, obj.fields, Done(i), key, rcpt, from, rng.next);
    } else {
      FailedOne(before, now, obj.fields, Done(i), key, rcpt, from, rng.next);
    }
  }

  /** The keys handled once the content and this many optional strings have been. */
  ghost function Done(i: nat): set<string>
    requires i <= |OPTIONAL_STRINGS|
  {
    {CONTENT} + set k | 0 <= k < i :: OPTIONAL_STRINGS[k]
  }

  lemma DoneFirst()
    ensures Done(0) == {} + {CONTENT}
  {
  }

  lemma DoneStep(i: nat)
    requires i < |OPTIONAL_STRINGS|
    ensures Done(i + 1) == Done(i) + {OPTIONAL_STRINGS[i]} && OPTIONAL_STRINGS[i] !in Done(i) && IsOptionalString(OPTIONAL_STRINGS[i])
  {
  }

  lemma OptionalStep(m: Fields, m': Fields, key: string, ok: bool, rcpt: Recipient, from: nat, upto: nat)
    requires IsOptionalString(key)
    requires ok ==> StringSealed(m, m', key, rcpt)
    requires !ok ==> !StringOrNone(m, key) || (from < upto && StringFails(m, key, rcpt, upto - 1))
    ensures EntryStep(m, m', key, ok, rcpt, from, upto)
  {
  }

  method EncryptStructured(obj: JsonObject, ghost before: Fields, rng: Randomness, rcpt: Recipient) returns (ok: bool)
    requires Encrypting(before, obj.fields, Done(|OPTIONAL_STRINGS|), rcpt)
    modifies obj, rng
    ensures old(rng.next) <= rng.next
    ensures ok ==> MessageSealed(before, obj.fields, rcpt)
    ensures !ok ==> !MessageEncryptable(before) || (old(rng.next) < rng.next && MessageFails(before, rcpt, rng.next - 1))
  {
    hide EntrySealed, EntryEncryptable, EntryFails, Encrypting, MessageEncryptable, MessageFails, MessageSealed, EntryStep;
    ghost var done := Done(|OPTIONAL_STRINGS|);
    DoneKeys(done);
    hide Done;
    ghost var now := obj.fields;
    ghost var from := rng.next;
    ok := EncryptAudioDataField(obj, rng, rcpt);
    if !ok {
      FailedOne(before, now, obj.fields, done, "audio", rcpt, from, rng.next);
      return;
    }
    EncryptedOne(before, now, obj.fields, done, "audio", rcpt, from, rng.next);
    ghost var done1 := done + {"audio"};
    now, from := obj.fields, rng.next;
    ok := EncryptToolCallsField(obj, rng, rcpt);
    if !ok {
      FailedOne(before, now, obj.fields, done1, "tool_calls", rcpt, from, rng.next);
      return;
    }
    EncryptedOne(before, now, obj.fields, done1, "tool_calls", rcpt, from, rng.next);
    ghost var done2 := done1 + {"tool_calls"};
    now, from := obj.fields, rng.next;
    ok := EncryptFunctionCallField(obj, rng, rcpt);
    if !ok {
      FailedOne(before, now, obj.fields, done2, "function_call", rcpt, from, rng.next);
      return;
    }
    EncryptedOne(before, now, obj.fields, done2, "function_call", rcpt, from, rng.next);
    AllEncrypted(before, obj.fields, done2 + {"function_call"}, rcpt);
  }

  lemma DoneKeys(done: set<string>)
    requires done == Done(|OPTIONAL_STRINGS|)
    ensures "audio" !in done && "tool_calls" !in done && "function_call" !in done
    ensures forall k :: k in done <==> k == CONTENT || IsOptionalString(k)
  {
    assert OPTIONAL_STRINGS[0] in done && OPTIONAL_STRINGS[1] in done && OPTIONAL_STRINGS[2] in done && OPTIONAL_STRINGS[3] in done;
  }

  lemma AllEncrypted(m: Fields, now: Fields, done: set<string>, rcpt: Recipient)
    requires Encrypting(m, now, done, rcpt) && forall k :: IsHandled(k) ==> k in done
    ensures MessageSealed(m, now, rcpt)
  {
  }
}
