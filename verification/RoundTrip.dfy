/**
 Decryption undoes encryption: exactly which messages come back from a NearCloud session whose
 keys match the ones they were sealed to.
 */
module RoundTrip {
  import opened Bytes
  import opened Json
  import opened FieldPolicy
  import opened Decryption
  import opened Encryption
  import FailClosed

  /**
   The session opens what the recipient seals. A ciphertext is recognised, longer than its
   plaintext, and never empty; no value has an empty JSON text.
   */
  ghost predicate Matches(rcpt: Recipient, s: Session) {
    && (forall r: nat, p: string, c: string {:trigger rcpt.seal(r, p), s.decrypt(c)} ::
          rcpt.seal(r, p) == Some(c) ==> s.isEncrypted(c) && s.decrypt(c) == Some(p))
    && (forall c: string {:trigger s.decrypt(c)} :: s.decrypt(c).Some? ==> |s.decrypt(c).value| < |c|)
    && (forall j: Json :: rcpt.text(j) != "")
  }

  /** What an entry should come back as: itself, except that array content comes back as its JSON text. */
  function Restored(key: string, j: Json, rcpt: Recipient): Json {
    if key == CONTENT && j.Arr? then Str(rcpt.text(j)) else j
  }

  predicate NonemptyAt(m: Fields, key: string) {
    Present(m, key) ==> m[key] != Str("")
  }

  predicate FunctionRestorable(fn: Json) {
    fn.Obj? ==> NonemptyAt(fn.fields, "name") && NonemptyAt(fn.fields, "arguments")
  }

  predicate CallRestorable(call: Json) {
    call.Obj? && Present(call.fields, "function") ==> FunctionRestorable(call.fields["function"])
  }

  /**
   What a sender can check beforehand: no encrypted string is empty, and a key the encryptor does
   not know holds nothing that the decryptor would refuse or alter.
   */
  predicate Restorable(key: string, j: Json, s: Session, endpoint: Endpoint) {
    if j.Null? || IsNonEncryptedField(key) then true
    else if key == CONTENT || IsOptionalString(key) then j != Str("")
    else if key == "audio" then j.Obj? ==> NonemptyAt(j.fields, "data")
    else if key == "tool_calls" then j.Arr? ==> forall c <- j.items :: CallRestorable(c)
    else if key == "function_call" then FunctionRestorable(j)
    else if j == Str("") then true
    else if j.Str? && s.isEncrypted(j.s) then s.decrypt(j.s) == Some("")
    else !s.policy(key, endpoint)
  }

  lemma SealedOpens(p: string, c: string, rcpt: Recipient, s: Session)
    requires Matches(rcpt, s) && SealOf(rcpt, p, c)
    ensures s.isEncrypted(c) && s.decrypt(c) == Some(p) && |p| < |c|
  {
    var r: nat :| rcpt.seal(r, p) == Some(c);
    assert s.decrypt(c) == Some(p);
  }

  /** A sealed string decrypts to itself unless it was empty, whatever the policy says. */
  lemma SealedDecrypts(p: string, c: string, rcpt: Recipient, s: Session, required: bool)
    requires Matches(rcpt, s) && SealOf(rcpt, p, c)
    ensures DecryptString(Str(c), s, required) == Ok(Str(if p == "" then c else p))
    ensures c != ""
  {
    SealedOpens(p, c, rcpt, s);
  }

  lemma FieldRestored(m: Fields, m': Fields, key: string, rcpt: Recipient, s: Session, path: string, endpoint: Endpoint)
    requires Matches(rcpt, s) && StringSealed(m, m', key, rcpt)
    ensures StringField(m', key, s, path, endpoint).Ok?
    ensures StringField(m', key, s, path, endpoint) == Ok(m) <==> NonemptyAt(m, key)
  {
    hide Matches, SealOf;
    if Present(m, key) {
      SealedDecrypts(m[key].s, m'[key].s, rcpt, s, s.policy(path, endpoint));
      assert m == m'[key := m[key]];
    }
  }

  /** `m` with the nonempty plaintext at `key` put back. */
  function PutBack(plain: Fields, m: Fields, key: string): Fields {
    if Present(plain, key) && plain[key] != Str("") then m[key := plain[key]] else m
  }

  ghost predicate SealedAt(plain: Fields, m: Fields, key: string, rcpt: Recipient) {
    if Present(plain, key) then key in m && m[key] != plain[key] && Sealed(plain[key], m[key], rcpt)
    else !Present(m, key)
  }

  lemma FieldOpens(plain: Fields, m: Fields, key: string, rcpt: Recipient, s: Session, path: string, endpoint: Endpoint)
    requires Matches(rcpt, s) && SealedAt(plain, m, key, rcpt)
    ensures StringField(m, key, s, path, endpoint) == Ok(PutBack(plain, m, key))
  {
    hide Matches, SealOf;
    if Present(plain, key) {
      SealedDecrypts(plain[key].s, m[key].s, rcpt, s, s.policy(path, endpoint));
      assert m == m[key := m[key]];
    }
  }

  /** The relation the encryptor leaves between a function object and its sealed form. */
  lemma FunctionSealedAt(m: Fields, m': Fields, rcpt: Recipient, s: Session)
    requires Matches(rcpt, s) && FunctionSealed(m, m', rcpt)
    ensures SealedAt(m, m', "name", rcpt) && SealedAt(m, m', "arguments", rcpt)
    ensures m'.Keys == m.Keys && forall k <- m :: k != "name" && k != "arguments" ==> m'[k] == m[k]
    ensures !Present(m, "name") && "name" in m ==> m'["name"] == m["name"]
    ensures !Present(m, "arguments") && "arguments" in m ==> m'["arguments"] == m["arguments"]
  {
    hide Matches, SealOf;
    var mid :| StringSealed(m, mid, "name", rcpt) && StringSealed(mid, m', "arguments", rcpt);
    if Present(m, "name") {
      SealedOpens(m["name"].s, m'["name"].s, rcpt, s);
    }
    if Present(m, "arguments") {
      SealedOpens(m["arguments"].s, m'["arguments"].s, rcpt, s);
    }
  }

  lemma FunctionRestored(m: Fields, m': Fields, base: string, rcpt: Recipient, s: Session, endpoint: Endpoint)
    requires Matches(rcpt, s) && FunctionSealed(m, m', rcpt)
    ensures DecryptFunction(m', s, base, endpoint) == Ok(m) <==> FunctionRestorable(Obj(m))
  {
    hide Matches, Sealed, StringField, FunctionSealed;
    FunctionSealedAt(m, m', rcpt, s);
    FieldOpens(m, m', "name", rcpt, s, base + ".name", endpoint);
    var one := PutBack(m, m', "name");
    FieldOpens(m, one, "arguments", rcpt, s, base + ".arguments", endpoint);
    var two := PutBack(m, one, "arguments");
    assert DecryptFunction(m', s, base, endpoint) == Ok(two);
    if NonemptyAt(m, "name") && NonemptyAt(m, "arguments") {
      assert two == m;
    }
  }

  lemma FunctionValueRestored(j: Json, j': Json, base: string, rcpt: Recipient, s: Session, endpoint: Endpoint)
    requires Matches(rcpt, s) && FunctionValueSealed(j, j', rcpt)
    ensures DecryptFunctionValue(j', s, base, endpoint) == Ok(j) <==> FunctionRestorable(j)
  {
    FunctionRestored(j.fields, j'.fields, base, rcpt, s, endpoint);
  }

  lemma CallRestored(call: Json, call': Json, rcpt: Recipient, s: Session, endpoint: Endpoint)
    requires Matches(rcpt, s) && CallSealed(call, call', rcpt)
    ensures DecryptCall(call', s, endpoint) == Ok(call) <==> CallRestorable(call)
  {
    hide Matches, FunctionRestorable, DecryptFunctionValue, FunctionValueSealed;
    if call.Obj? && Present(call.fields, "function") {
      var m, m' := call.fields, call'.fields;
      assert call'.Obj? && Present(m', "function") by { SealedFunctionIsObject(m["function"], m'["function"], rcpt); }
      FunctionValueRestored(m["function"], m'["function"], TOOL_FUNCTION, rcpt, s, endpoint);
      assert m == m'["function" := m["function"]];
    }
  }

  lemma SealedFunctionIsObject(j: Json, j': Json, rcpt: Recipient)
    requires FunctionValueSealed(j, j', rcpt)
    ensures j.Obj? && j'.Obj?
  {
  }

  lemma ToolCallsRestored(j: Json, j': Json, rcpt: Recipient, s: Session, endpoint: Endpoint)
    requires Matches(rcpt, s) && j.Arr? && j'.Arr? && |j.items| == |j'.items|
    requires forall i :: 0 <= i < |j.items| ==> CallSealed(j.items[i], j'.items[i], rcpt)
    ensures DecryptToolCalls(j', s, endpoint) == Ok(j) <==> forall c <- j.items :: CallRestorable(c)
  {
    var f := CallDecryptor(s, endpoint);
    MapAllIff(j'.items, f, j.items);
    forall i | 0 <= i < |j.items|
      ensures f(j'.items[i]) == Ok(j.items[i]) <==> CallRestorable(j.items[i])
    {
      CallRestored(j.items[i], j'.items[i], rcpt, s, endpoint);
    }
    hide CallSealed, CallRestorable, DecryptCall, Matches;
    assert DecryptToolCalls(j', s, endpoint) == Ok(j) <==> MapAll(j'.items, f) == Ok(j.items);
    assert (forall c <- j.items :: CallRestorable(c)) <==> forall i :: 0 <= i < |j.items| ==> CallRestorable(j.items[i]);
  }

  lemma ContentRestored(j: Json, j': Json, rcpt: Recipient, s: Session, endpoint: Endpoint)
    requires Matches(rcpt, s) && EntrySealed(CONTENT, j, j', rcpt)
    ensures DecryptEntry(CONTENT, j', s, endpoint) == Ok(Restored(CONTENT, j, rcpt)) <==> Restorable(CONTENT, j, s, endpoint)
  {
    if !j.Null? {
      var p := if j.Str? then j.s else rcpt.text(j);
      SealedDecrypts(p, j'.s, rcpt, s, s.policy(CONTENT, endpoint));
    }
  }

  lemma AudioRestored(j: Json, j': Json, rcpt: Recipient, s: Session, endpoint: Endpoint)
    requires Matches(rcpt, s) && j.Obj? && j'.Obj? && StringSealed(j.fields, j'.fields, "data", rcpt)
    ensures DecryptAudio(j', s, endpoint) == Ok(j) <==> NonemptyAt(j.fields, "data")
  {
    FieldRestored(j.fields, j'.fields, "data", rcpt, s, AUDIO_DATA, endpoint);
  }

  /** A key the encryptor leaves alone. */
  lemma UnknownKept(key: string, j: Json, rcpt: Recipient, s: Session, endpoint: Endpoint)
    requires Matches(rcpt, s) && !IsHandled(key)
    ensures DecryptEntry(key, j, s, endpoint) == Ok(j) <==> Restorable(key, j, s, endpoint)
  {
    if j.Str? && s.decrypt(j.s).Some? {
      assert |s.decrypt(j.s).value| < |j.s|;
    }
  }

  lemma EntryRestored(key: string, j: Json, j': Json, rcpt: Recipient, s: Session, endpoint: Endpoint)
    requires Matches(rcpt, s) && EntrySealed(key, j, j', rcpt) && s.policy == NearCloudPolicy
    ensures DecryptEntry(key, j', s, endpoint) == Ok(Restored(key, j, rcpt)) <==> Restorable(key, j, s, endpoint)
  {
    hide Matches, SealOf, NearCloudPolicy, DecryptAudio, DecryptToolCalls, DecryptFunctionValue, CallSealed, FunctionValueSealed,
      StringSealed, CallRestorable, FunctionRestorable, DecryptContent, DecryptString;
    FailClosed.NearCloudGroups(endpoint);
    if j.Null? {
    } else if key == CONTENT {
      ContentRestored(j, j', rcpt, s, endpoint);
    } else if IsOptionalString(key) {
      SealedDecrypts(j.s, j'.s, rcpt, s, s.policy(key, endpoint));
    } else if key == "audio" {
      AudioRestored(j, j', rcpt, s, endpoint);
    } else if key == "tool_calls" {
      ToolCallsRestored(j, j', rcpt, s, endpoint);
    } else if key == "function_call" {
      FunctionCallRestored(j, j', rcpt, s, endpoint);
    } else {
      UnknownKept(key, j, rcpt, s, endpoint);
    }
  }

  lemma FunctionCallRestored(j: Json, j': Json, rcpt: Recipient, s: Session, endpoint: Endpoint)
    requires Matches(rcpt, s) && EntrySealed("function_call", j, j', rcpt)
    ensures DecryptFunctionCall(j', s, endpoint) == Ok(j) <==> FunctionRestorable(j)
  {
    hide Matches;
    if j.Obj? {
      FunctionValueRestored(j, j', FUNCTION_CALL, rcpt, s, endpoint);
    }
  }

  /** Some recipient and session match, so the hypothesis can be met. */
  lemma MatchesSatisfiable()
    ensures exists rcpt: Recipient, s: Session :: Matches(rcpt, s) && s.policy == NearCloudPolicy
  {
    var rcpt := Recipient((r: nat, p: string) => Some("#" + p), j => "text");
    var s := Session(c => |c| > 0 && c[0] == '#', c => if |c| > 0 && c[0] == '#' then Some(c[1..]) else None,
                     NearCloudPolicy, p => None);
    assert forall p: string :: ("#" + p)[1..] == p;
    assert Matches(rcpt, s);
  }

  /** What the whole message should come back as. */
  ghost function RestoredMessage(m: Fields, rcpt: Recipient): Fields {
    map k <- m :: Restored(k, m[k], rcpt)
  }

  /**
   A sealed message decrypts back to itself exactly when every entry is restorable.
   */
  lemma EncryptDecryptIff(m: Fields, m': Fields, rcpt: Recipient, s: Session, endpoint: Endpoint)
    requires MessageSealed(m, m', rcpt) && Matches(rcpt, s) && s.policy == NearCloudPolicy
    ensures DecryptFields(m', s, endpoint) == Ok(RestoredMessage(m, rcpt)) <==> forall k <- m :: Restorable(k, m[k], s, endpoint)
  {
    forall k | k in m
      ensures DecryptEntry(k, m'[k], s, endpoint) == Ok(Restored(k, m[k], rcpt)) <==> Restorable(k, m[k], s, endpoint)
    {
      EntryRestored(k, m[k], m'[k], rcpt, s, endpoint);
    }
    hide Matches, EntrySealed, DecryptEntry, Restorable, Restored, NearCloudPolicy;
    var out := DecryptFields(m', s, endpoint);
    if forall k <- m :: Restorable(k, m[k], s, endpoint) {
      assert out.Ok?;
      assert out.value == RestoredMessage(m, rcpt);
    }
    if out == Ok(RestoredMessage(m, rcpt)) {
      forall k | k in m
        ensures Restorable(k, m[k], s, endpoint)
      {
        assert RestoredMessage(m, rcpt)[k] == Restored(k, m[k], rcpt);
        assert DecryptEntry(k, m'[k], s, endpoint) == Ok(out.value[k]);
      }
    }
  }
}
