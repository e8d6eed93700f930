/** What a successful decryption guarantees about the object, or the chunk, it was given. */
module FailClosed {
  import opened Json
  import opened FieldPolicy
  import opened Decryption
  import opened Logprobs
  import opened Sse

  /** `leaf` is the value found at key `field` of the object found at key `key`. */
  ghost predicate LeafOf(m: Fields, key: string, field: string, leaf: Json) {
    key in m && m[key].Obj? && field in m[key].fields && leaf == m[key].fields[field]
  }

  ghost predicate PlainLeaf(m: Fields, path: string, leaf: Json) {
    && path in m && leaf == m[path]
    && !IsNonEncryptedField(path) && !IsStructured(path) && path != CONTENT
  }

  ghost predicate ContentLeaf(m: Fields, path: string, leaf: Json, s: Session, endpoint: Endpoint) {
    CONTENT in m &&
    if m[CONTENT].Arr? && s.policy(CONTENT_TEXT, endpoint) then
      path == CONTENT_TEXT && exists i :: 0 <= i < |m[CONTENT].items| && PartText(m[CONTENT].items[i], leaf)
    else path == CONTENT && leaf == m[CONTENT]
  }

  ghost predicate PartText(part: Json, leaf: Json) {
    part.Obj? && "text" in part.fields && leaf == part.fields["text"]
  }

  ghost predicate AudioLeaf(m: Fields, path: string, leaf: Json, s: Session, endpoint: Endpoint) {
    s.policy(AUDIO_DATA, endpoint) && path == AUDIO_DATA && LeafOf(m, "audio", "data", leaf)
  }

  ghost predicate FunctionLeaf(m: Fields, base: string, path: string, leaf: Json, key: string) {
    || (path == base + ".name" && LeafOf(m, key, "name", leaf))
    || (path == base + ".arguments" && LeafOf(m, key, "arguments", leaf))
  }

  ghost predicate CallLeaf(m: Fields, path: string, leaf: Json, s: Session, endpoint: Endpoint) {
    && s.policy("tool_calls[].function.name", endpoint) && "tool_calls" in m && m["tool_calls"].Arr?
    && exists i :: 0 <= i < |m["tool_calls"].items| && ElementLeaf(m["tool_calls"].items[i], path, leaf)
  }

  ghost predicate ElementLeaf(call: Json, path: string, leaf: Json) {
    call.Obj? && FunctionLeaf(call.fields, TOOL_FUNCTION, path, leaf, "function")
  }

  ghost predicate FunctionCallLeaf(m: Fields, path: string, leaf: Json, s: Session, endpoint: Endpoint) {
    s.policy("function_call.name", endpoint) && FunctionLeaf(m, FUNCTION_CALL, path, leaf, "function_call")
  }

  /** The traversal visits `leaf` under the policy path `path`. */
  ghost predicate Visits(m: Fields, path: string, leaf: Json, s: Session, endpoint: Endpoint) {
    || PlainLeaf(m, path, leaf)
    || ContentLeaf(m, path, leaf, s, endpoint)
    || AudioLeaf(m, path, leaf, s, endpoint)
    || CallLeaf(m, path, leaf, s, endpoint)
    || FunctionCallLeaf(m, path, leaf, s, endpoint)
  }

  lemma EntryOk(m: Fields, k: string, s: Session, endpoint: Endpoint)
    requires DecryptFields(m, s, endpoint).Ok? && k in m
    ensures DecryptEntry(k, m[k], s, endpoint).Ok?
  {
  }

  /**
   If decryption succeeds, every leaf it visits that the policy marks encrypted was an
   authenticated ciphertext, or null or empty.
   */
  lemma VisitedLeavesAuthentic(m: Fields, path: string, leaf: Json, s: Session, endpoint: Endpoint)
    requires DecryptFields(m, s, endpoint).Ok?
    requires Visits(m, path, leaf, s, endpoint) && s.policy(path, endpoint)
    ensures Authentic(leaf, s)
  {
    hide DecryptFields, DecryptEntry, Authentic;
    if PlainLeaf(m, path, leaf) {
      PlainLeafAuthentic(m, path, leaf, s, endpoint);
    } else if ContentLeaf(m, path, leaf, s, endpoint) {
      ContentLeafAuthentic(m, path, leaf, s, endpoint);
    } else if AudioLeaf(m, path, leaf, s, endpoint) {
      AudioLeafAuthentic(m, path, leaf, s, endpoint);
    } else if CallLeaf(m, path, leaf, s, endpoint) {
      CallLeafAuthentic(m, path, leaf, s, endpoint);
    } else {
      FunctionCallLeafAuthentic(m, path, leaf, s, endpoint);
    }
  }

  lemma PlainLeafAuthentic(m: Fields, path: string, leaf: Json, s: Session, endpoint: Endpoint)
    requires DecryptFields(m, s, endpoint).Ok? && PlainLeaf(m, path, leaf) && s.policy(path, endpoint)
    ensures Authentic(leaf, s)
  {
    EntryOk(m, path, s, endpoint);
  }

  lemma ContentLeafAuthentic(m: Fields, path: string, leaf: Json, s: Session, endpoint: Endpoint)
    requires DecryptFields(m, s, endpoint).Ok? && ContentLeaf(m, path, leaf, s, endpoint) && s.policy(path, endpoint)
    ensures Authentic(leaf, s)
  {
    EntryOk(m, CONTENT, s, endpoint);
    hide DecryptFields, DecryptPart, Authentic, PartText, MapAll;
    assert DecryptContent(m[CONTENT], s, endpoint).Ok? || m[CONTENT].Null?;
    if m[CONTENT].Arr? && s.policy(CONTENT_TEXT, endpoint) {
      var items := m[CONTENT].items;
      var i :| 0 <= i < |items| && PartText(items[i], leaf);
      MapAllErr(items, PartDecryptor(s, endpoint));
      assert PartDecryptor(s, endpoint)(items[i]).Ok?;
      PartAuthentic(items[i], leaf, s, endpoint);
    } else {
      WholeContentAuthentic(leaf, s, endpoint);
    }
  }

  lemma PartAuthentic(part: Json, leaf: Json, s: Session, endpoint: Endpoint)
    requires DecryptPart(part, s, endpoint).Ok? && PartText(part, leaf) && s.policy(CONTENT_TEXT, endpoint)
    ensures Authentic(leaf, s)
  {
  }

  lemma WholeContentAuthentic(leaf: Json, s: Session, endpoint: Endpoint)
    requires leaf.Null? || DecryptContent(leaf, s, endpoint).Ok?
    requires s.policy(CONTENT, endpoint) && !(leaf.Arr? && s.policy(CONTENT_TEXT, endpoint))
    ensures Authentic(leaf, s)
  {
  }

  lemma AudioLeafAuthentic(m: Fields, path: string, leaf: Json, s: Session, endpoint: Endpoint)
    requires DecryptFields(m, s, endpoint).Ok? && AudioLeaf(m, path, leaf, s, endpoint) && s.policy(path, endpoint)
    ensures Authentic(leaf, s)
  {
    EntryOk(m, "audio", s, endpoint);
  }

  lemma CallLeafAuthentic(m: Fields, path: string, leaf: Json, s: Session, endpoint: Endpoint)
    requires DecryptFields(m, s, endpoint).Ok? && CallLeaf(m, path, leaf, s, endpoint) && s.policy(path, endpoint)
    ensures Authentic(leaf, s)
  {
    EntryOk(m, "tool_calls", s, endpoint);
    hide DecryptFields, DecryptCall, Authentic, ElementLeaf, MapAll;
    var items := m["tool_calls"].items;
    var i :| 0 <= i < |items| && ElementLeaf(items[i], path, leaf);
    MapAllErr(items, CallDecryptor(s, endpoint));
    assert CallDecryptor(s, endpoint)(items[i]).Ok?;
    ElementAuthentic(items[i], path, leaf, s, endpoint);
  }

  lemma ElementAuthentic(call: Json, path: string, leaf: Json, s: Session, endpoint: Endpoint)
    requires DecryptCall(call, s, endpoint).Ok? && ElementLeaf(call, path, leaf) && s.policy(path, endpoint)
    ensures Authentic(leaf, s)
  {
    hide DecryptFunction, Authentic;
    FunctionAuthentic(call.fields["function"].fields, TOOL_FUNCTION, path, leaf, s, endpoint);
  }

  lemma FunctionCallLeafAuthentic(m: Fields, path: string, leaf: Json, s: Session, endpoint: Endpoint)
    requires DecryptFields(m, s, endpoint).Ok? && FunctionCallLeaf(m, path, leaf, s, endpoint) && s.policy(path, endpoint)
    ensures Authentic(leaf, s)
  {
    EntryOk(m, "function_call", s, endpoint);
    FunctionAuthentic(m["function_call"].fields, FUNCTION_CALL, path, leaf, s, endpoint);
  }

  lemma FunctionAuthentic(fn: Fields, base: string, path: string, leaf: Json, s: Session, endpoint: Endpoint)
    requires DecryptFunction(fn, s, base, endpoint).Ok? && s.policy(path, endpoint)
    requires || (path == base + ".name" && "name" in fn && leaf == fn["name"])
             || (path == base + ".arguments" && "arguments" in fn && leaf == fn["arguments"])
    ensures Authentic(leaf, s)
  {
  }

  /** Success keeps the keys, the five metadata values, and every null. */
  lemma MetadataKept(m: Fields, s: Session, endpoint: Endpoint)
    requires DecryptFields(m, s, endpoint).Ok?
    ensures var r := DecryptFields(m, s, endpoint).value;
            r.Keys == m.Keys && forall k <- m :: IsNonEncryptedField(k) || m[k].Null? ==> r[k] == m[k]
  {
    forall k | k in m && (IsNonEncryptedField(k) || m[k].Null?)
      ensures DecryptEntry(k, m[k], s, endpoint) == Ok(m[k])
    {
    }
  }

  // ---------------------------------------------------------------- the NearCloud policy, exactly

  ghost predicate LeafAccepted(m: Fields, key: string, s: Session) {
    key in m ==> Authentic(m[key], s)
  }

  ghost predicate FunctionAccepted(fn: Fields, s: Session) {
    LeafAccepted(fn, "name", s) && LeafAccepted(fn, "arguments", s)
  }

  ghost predicate PartAccepted(part: Json, s: Session) {
    part.Null? || (part.Obj? && LeafAccepted(part.fields, "text", s))
  }

  ghost predicate CallAccepted(call: Json, s: Session) {
    || call.Null?
    || (call.Obj? && (!Present(call.fields, "function")
                      || (call.fields["function"].Obj? && FunctionAccepted(call.fields["function"].fields, s))))
  }

  /** A string, unless it looks encrypted and does not authenticate, may pass where plaintext may. */
  ghost predicate PlainAccepted(j: Json, s: Session) {
    j.Str? && j.s != "" && s.isEncrypted(j.s) ==> s.decrypt(j.s).Some?
  }

  /**
   What the NearCloud policy accepts at a key of a delta. Content, audio and tool_calls of the wrong
   shape are refused; a function_call that is not an object is passed on unopened.
   */
  ghost predicate Accepted(key: string, j: Json, s: Session, endpoint: Endpoint) {
    || j.Null? || IsNonEncryptedField(key)
    || (if key == CONTENT then
          Authentic(j, s) || (j.Arr? && forall part <- j.items :: PartAccepted(part, s))
        else if key == "audio" then j.Obj? && LeafAccepted(j.fields, "data", s)
        else if key == "tool_calls" then j.Arr? && forall call <- j.items :: CallAccepted(call, s)
        else if key == "function_call" then j.Obj? ==> FunctionAccepted(j.fields, s)
        else if NearCloudPolicy(key, endpoint) then Authentic(j, s)
        else PlainAccepted(j, s))
  }

  lemma NearCloudAcceptsIff(m: Fields, s: Session, endpoint: Endpoint)
    requires s.policy == NearCloudPolicy
    ensures DecryptFields(m, s, endpoint).Ok? <==> forall k <- m :: Accepted(k, m[k], s, endpoint)
  {
    hide DecryptEntry, Accepted;
    forall k | k in m
      ensures DecryptEntry(k, m[k], s, endpoint).Ok? <==> Accepted(k, m[k], s, endpoint)
    {
      EntryAcceptedIff(k, m[k], s, endpoint);
    }
  }

  lemma EntryAcceptedIff(key: string, j: Json, s: Session, endpoint: Endpoint)
    requires s.policy == NearCloudPolicy
    ensures DecryptEntry(key, j, s, endpoint).Ok? <==> Accepted(key, j, s, endpoint)
  {
    hide NearCloudPolicy, PartAccepted, CallAccepted, DecryptContent, DecryptToolCalls, DecryptFunction, FunctionAccepted,
      DecryptAudio, DecryptString, Authentic, LeafAccepted, PlainAccepted;
    NearCloudGroups(endpoint);
    assert TOOL_FUNCTION + ".name" == "tool_calls[].function.name" && TOOL_FUNCTION + ".arguments" == "tool_calls[].function.arguments";
    assert FUNCTION_CALL + ".name" == "function_call.name" && FUNCTION_CALL + ".arguments" == "function_call.arguments";
    if j.Null? {
    } else if key == CONTENT {
      ContentAcceptedIff(j, s, endpoint);
    } else if key == "tool_calls" {
      CallsAcceptedIff(j, s, endpoint);
    } else if key == "function_call" && j.Obj? {
      FunctionAcceptedIff(j.fields, s, FUNCTION_CALL, endpoint);
    } else if key == "audio" {
      AudioAcceptedIff(j, s, endpoint);
    } else {
      StringAcceptedIff(j, s, s.policy(key, endpoint));
    }
  }

  lemma AudioAcceptedIff(j: Json, s: Session, endpoint: Endpoint)
    requires s.policy(AUDIO_DATA, endpoint)
    ensures DecryptAudio(j, s, endpoint).Ok? <==> j.Obj? && LeafAccepted(j.fields, "data", s)
  {
  }

  lemma StringAcceptedIff(j: Json, s: Session, required: bool)
    requires !j.Null?
    ensures DecryptString(j, s, required).Ok? <==> if required then Authentic(j, s) else PlainAccepted(j, s)
  {
  }

  lemma ContentAcceptedIff(j: Json, s: Session, endpoint: Endpoint)
    requires s.policy(CONTENT, endpoint) && s.policy(CONTENT_TEXT, endpoint) && !j.Null?
    ensures DecryptContent(j, s, endpoint).Ok? <==> Authentic(j, s) || (j.Arr? && forall part <- j.items :: PartAccepted(part, s))
  {
    hide DecryptPart, PartAccepted, MapAll;
    if j.Arr? {
      forall part | part in j.items
        ensures PartDecryptor(s, endpoint)(part).Ok? <==> PartAccepted(part, s)
      {
        PartAcceptedIff(part, s, endpoint);
      }
      MapAllErr(j.items, PartDecryptor(s, endpoint));
    }
  }

  lemma PartAcceptedIff(part: Json, s: Session, endpoint: Endpoint)
    requires s.policy(CONTENT_TEXT, endpoint)
    ensures DecryptPart(part, s, endpoint).Ok? <==> PartAccepted(part, s)
  {
  }

  lemma CallsAcceptedIff(j: Json, s: Session, endpoint: Endpoint)
    requires s.policy(TOOL_FUNCTION + ".name", endpoint) && s.policy(TOOL_FUNCTION + ".arguments", endpoint)
    ensures DecryptToolCalls(j, s, endpoint).Ok? <==> j.Arr? && forall call <- j.items :: CallAccepted(call, s)
  {
    hide DecryptCall, CallAccepted, MapAll;
    if j.Arr? {
      forall call | call in j.items
        ensures CallDecryptor(s, endpoint)(call).Ok? <==> CallAccepted(call, s)
      {
        CallAcceptedIff(call, s, endpoint);
      }
      MapAllErr(j.items, CallDecryptor(s, endpoint));
    }
  }

  lemma CallAcceptedIff(call: Json, s: Session, endpoint: Endpoint)
    requires s.policy(TOOL_FUNCTION + ".name", endpoint) && s.policy(TOOL_FUNCTION + ".arguments", endpoint)
    ensures DecryptCall(call, s, endpoint).Ok? <==> CallAccepted(call, s)
  {
    hide DecryptFunction, FunctionAccepted;
    if call.Obj? && Present(call.fields, "function") && call.fields["function"].Obj? {
      FunctionAcceptedIff(call.fields["function"].fields, s, TOOL_FUNCTION, endpoint);
    }
  }

  lemma FunctionAcceptedIff(fn: Fields, s: Session, base: string, endpoint: Endpoint)
    requires s.policy(base + ".name", endpoint) && s.policy(base + ".arguments", endpoint)
    ensures DecryptFunction(fn, s, base, endpoint).Ok? <==> FunctionAccepted(fn, s)
  {
  }

  /** A function_call of any other shape than an object comes through as it is, under every policy. */
  lemma FunctionCallUnopened(j: Json, s: Session, endpoint: Endpoint)
    requires !j.Obj?
    ensures DecryptFields(map["function_call" := j], s, endpoint) == Ok(map["function_call" := j])
  {
    OneEntry("function_call", j, s, endpoint);
  }

  /**
   Under the NearCloud policy a content, audio or tool_calls value of the wrong shape is refused,
   and so is one among their elements; a function_call is not, see FunctionCallUnopened.
   */
  lemma NearCloudShapes(m: Fields, s: Session, endpoint: Endpoint)
    requires s.policy == NearCloudPolicy && DecryptFields(m, s, endpoint).Ok?
    ensures CONTENT in m ==> m[CONTENT].Null? || m[CONTENT].Str? || (m[CONTENT].Arr? && forall part <- m[CONTENT].items :: part.Null? || part.Obj?)
    ensures "audio" in m ==> m["audio"].Null? || m["audio"].Obj?
    ensures "tool_calls" in m ==> m["tool_calls"].Null? || (m["tool_calls"].Arr? && forall call <- m["tool_calls"].items :: call.Null? || call.Obj?)
  {
    NearCloudAcceptsIff(m, s, endpoint);
  }

  /** The NearCloud policy on the leaves of chat objects. */
  lemma NearCloudGroups(endpoint: Endpoint)
    ensures NearCloudPolicy(CONTENT, endpoint) && NearCloudPolicy(CONTENT_TEXT, endpoint)
    ensures NearCloudPolicy(AUDIO_DATA, endpoint)
    ensures NearCloudPolicy("tool_calls[].function.name", endpoint) && NearCloudPolicy("tool_calls[].function.arguments", endpoint)
    ensures NearCloudPolicy("function_call.name", endpoint) && NearCloudPolicy("function_call.arguments", endpoint)
  {
    NearCloudContent(endpoint);
    NearCloudAudio(endpoint);
    NearCloudCallName(endpoint);
    NearCloudCallArguments(endpoint);
    NearCloudFunctionCall(endpoint);
    hide NearCloudPolicy;
  }

  lemma NearCloudContent(endpoint: Endpoint)
    ensures NearCloudPolicy(CONTENT, endpoint) && NearCloudPolicy(CONTENT_TEXT, endpoint)
  {
    var p := CONTENT;
    assert p[0] != 'u' && p[1] != 'r' && p[2] != 'x';
    var q := CONTENT_TEXT;
    assert q[0] != 'u' && q[1] != 'r' && q[2] != 'x';
  }

  lemma NearCloudAudio(endpoint: Endpoint)
    ensures NearCloudPolicy(AUDIO_DATA, endpoint)
  {
    var p := AUDIO_DATA;
    assert p[0] != 'u' && p[1] != 'r' && p[2] != 'x';
  }

  lemma NearCloudCallName(endpoint: Endpoint)
    ensures NearCloudPolicy("tool_calls[].function.name", endpoint)
  {
    var p := "tool_calls[].function.name";
    assert p[0] != 'u' && p[1] != 'r' && p[2] != 'x';
  }

  lemma NearCloudCallArguments(endpoint: Endpoint)
    ensures NearCloudPolicy("tool_calls[].function.arguments", endpoint)
  {
    var p := "tool_calls[].function.arguments";
    assert p[0] != 'u' && p[1] != 'r' && p[2] != 'x';
  }

  lemma NearCloudFunctionCall(endpoint: Endpoint)
    ensures NearCloudPolicy("function_call.name", endpoint) && NearCloudPolicy("function_call.arguments", endpoint)
  {
    var p := "function_call.name";
    assert p[0] != 'u' && p[1] != 'r' && p[2] != 'x';
    var q := "function_call.arguments";
    assert q[0] != 'u' && q[1] != 'r' && q[2] != 'x';
  }

  /** The other texts of a message, and any path the policy does not know; usage and metadata are plain. */
  lemma NearCloudOthers(path: string, endpoint: Endpoint)
    ensures path in {"reasoning", "reasoning_content", "refusal", "name"} ==> NearCloudPolicy(path, endpoint)
    ensures path in {"usage", "role", "tool_call_id", "id"} || "usage." <= path ==> !NearCloudPolicy(path, endpoint)
    ensures !NearCloudPolicy(path, endpoint) ==> path == "usage" || "usage." <= path || NearCloudPlain(path) || (endpoint == Score && path == "score")
  {
    if path in {"reasoning", "reasoning_content", "refusal", "name"} {
      assert path[0] != 'u' && |path| > 2;
      assert path[2] in {'a', 'f', 'm'};
    }
  }

  /** Under the Venice policy only the chat content is required to be a ciphertext. */
  lemma VeniceOnlyContent(m: Fields, s: Session, path: string, leaf: Json, endpoint: Endpoint)
    requires s.policy == VenicePolicy && DecryptFields(m, s, endpoint).Ok?
    requires Visits(m, path, leaf, s, endpoint) && s.policy(path, endpoint)
    ensures endpoint == Chat && path == CONTENT && leaf == m[CONTENT] && Authentic(leaf, s)
  {
    VisitedLeavesAuthentic(m, path, leaf, s, endpoint);
  }

  // ---------------------------------------------------------------- a whole chunk

  /** `leaf` is the text or the bytes of a token entry, or of one nested in it at any depth. */
  ghost predicate TokenLeaf(j: Json, base: string, path: string, leaf: Json)
    decreases j
  {
    j.Obj? &&
    (|| (path == base + ".token" && "token" in j.fields && leaf == j.fields["token"])
     || (path == base + ".bytes" && "bytes" in j.fields && leaf == j.fields["bytes"])
     || ("top_logprobs" in j.fields && ListLeaf(j.fields["top_logprobs"], base + ".top_logprobs[]", path, leaf)))
  }

  ghost predicate ListLeaf(j: Json, base: string, path: string, leaf: Json)
    decreases j
  {
    j.Arr? && exists i :: 0 <= i < |j.items| && TokenLeaf(j.items[i], base, path, leaf)
  }

  ghost predicate LogprobsLeaf(choice: Fields, path: string, leaf: Json) {
    && "logprobs" in choice && choice["logprobs"].Obj?
    && var m := choice["logprobs"].fields;
       || ("content" in m && ListLeaf(m["content"], "logprobs.content[]", path, leaf))
       || ("refusal" in m && ListLeaf(m["refusal"], "logprobs.refusal[]", path, leaf))
  }

  /** The leaves visited in a chunk: those of the first delta and, if the policy covers any, of its logprobs. */
  ghost predicate ChunkVisits(data: Json, path: string, leaf: Json, s: Session, endpoint: Endpoint) {
    && Locate(data).At?
    && (|| Visits(AsObject(Locate(data).delta).value, path, leaf, s, endpoint)
        || (AnyLogprobsLeafEncrypted(s, endpoint) && LogprobsLeaf(Locate(data).choices[0].fields, path, leaf)))
  }

  /** If a chunk is decrypted, every visited leaf that the policy marks encrypted was authenticated, or null or empty. */
  lemma ChunkAuthentic(data: Json, path: string, leaf: Json, s: Session, endpoint: Endpoint)
    requires DecryptChunk(data, s, endpoint).Ok?
    requires ChunkVisits(data, path, leaf, s, endpoint) && s.policy(path, endpoint)
    ensures Authentic(leaf, s)
  {
    hide DecryptFields, Visits, DecryptChoice, LogprobsLeaf, AnyLogprobsLeafEncrypted, Locate, Authentic;
    var place := Locate(data);
    if Visits(AsObject(place.delta).value, path, leaf, s, endpoint) {
      VisitedLeavesAuthentic(AsObject(place.delta).value, path, leaf, s, endpoint);
    } else {
      LogprobsAuthentic(place.choices[0].fields, path, leaf, s, endpoint);
    }
  }

  lemma LogprobsAuthentic(choice: Fields, path: string, leaf: Json, s: Session, endpoint: Endpoint)
    requires DecryptChoice(choice, s, endpoint).Ok? && LogprobsLeaf(choice, path, leaf) && s.policy(path, endpoint)
    ensures Authentic(leaf, s)
  {
    hide TokenLeaf, DecryptTokens, Authentic;
    var m := choice["logprobs"].fields;
    if "content" in m && ListLeaf(m["content"], "logprobs.content[]", path, leaf) {
      ListAuthentic(m["content"], "logprobs.content[]", path, leaf, s, endpoint);
    } else {
      ListAuthentic(m["refusal"], "logprobs.refusal[]", path, leaf, s, endpoint);
    }
  }

  lemma {:induction false} ListAuthentic(j: Json, base: string, path: string, leaf: Json, s: Session, endpoint: Endpoint)
    requires ListLeaf(j, base, path, leaf) && s.policy(path, endpoint)
    requires DecryptTokens(j.items, s, base, endpoint).Ok?
    ensures Authentic(leaf, s)
    decreases j
  {
    hide TokenLeaf, DecryptToken, DecryptTokens, Authentic;
    var i :| 0 <= i < |j.items| && TokenLeaf(j.items[i], base, path, leaf);
    if DecryptToken(j.items[i], s, base, endpoint).Err? {
      TokensErr(j.items, s, base, endpoint, i);
    }
    TokenAuthentic(j.items[i], base, path, leaf, s, endpoint);
  }

  lemma {:induction false} TokenAuthentic(j: Json, base: string, path: string, leaf: Json, s: Session, endpoint: Endpoint)
    requires TokenLeaf(j, base, path, leaf) && s.policy(path, endpoint) && DecryptToken(j, s, base, endpoint).Ok?
    ensures Authentic(leaf, s)
    decreases j
  {
    hide DecryptTokens;
    var m := j.fields;
    if "top_logprobs" in m && ListLeaf(m["top_logprobs"], base + ".top_logprobs[]", path, leaf) {
      ListAuthentic(m["top_logprobs"], base + ".top_logprobs[]", path, leaf, s, endpoint);
    }
  }

  /** Under the NearCloud policy the path of a token leaf is an encrypted one, however deep it lies. */
  lemma NearCloudTokens(base: string, endpoint: Endpoint)
    requires "logprobs." <= base
    ensures NearCloudPolicy(base + ".token", endpoint) && NearCloudPolicy(base + ".bytes", endpoint)
  {
    NotStructural(base + ".token", endpoint);
    NotStructural(base + ".bytes", endpoint);
  }

  lemma NotStructural(path: string, endpoint: Endpoint)
    requires |path| > 14 && "logprobs." <= path && path[|path| - 6] == '.' && path[|path| - 1] in {'n', 's'}
    ensures NearCloudPolicy(path, endpoint)
  {
    assert path[0] == 'l';
  }

  lemma {:induction false} TokenPath(j: Json, base: string, path: string, leaf: Json, endpoint: Endpoint)
    requires "logprobs." <= base && TokenLeaf(j, base, path, leaf)
    ensures NearCloudPolicy(path, endpoint)
    decreases j
  {
    hide NearCloudPolicy;
    NearCloudTokens(base, endpoint);
    var m := j.fields;
    if path != base + ".token" && path != base + ".bytes" {
      var items := m["top_logprobs"].items;
      var i :| 0 <= i < |items| && TokenLeaf(items[i], base + ".top_logprobs[]", path, leaf);
      TokenPath(items[i], base + ".top_logprobs[]", path, leaf, endpoint);
    }
  }

  /** Under the NearCloud policy, a decrypted chunk has no token text or bytes, at any depth, that was not authenticated. */
  lemma NearCloudLogprobs(data: Json, path: string, leaf: Json, s: Session, endpoint: Endpoint)
    requires s.policy == NearCloudPolicy && DecryptChunk(data, s, endpoint).Ok? && Locate(data).At?
    requires LogprobsLeaf(Locate(data).choices[0].fields, path, leaf)
    ensures Authentic(leaf, s)
  {
    hide DecryptChunk, Locate, TokenLeaf, NearCloudPolicy, Authentic, Visits;
    var m := Locate(data).choices[0].fields["logprobs"].fields;
    NearCloudTokens("logprobs.content[]", endpoint);
    assert "logprobs.content[]" + ".token" == "logprobs.content[].token";
    if "content" in m && ListLeaf(m["content"], "logprobs.content[]", path, leaf) {
      var i :| 0 <= i < |m["content"].items| && TokenLeaf(m["content"].items[i], "logprobs.content[]", path, leaf);
      TokenPath(m["content"].items[i], "logprobs.content[]", path, leaf, endpoint);
    } else {
      var i :| 0 <= i < |m["refusal"].items| && TokenLeaf(m["refusal"].items[i], "logprobs.refusal[]", path, leaf);
      TokenPath(m["refusal"].items[i], "logprobs.refusal[]", path, leaf, endpoint);
    }
    ChunkAuthentic(data, path, leaf, s, endpoint);
  }

  // ---------------------------------------------------------------- a whole chunk, exactly

  ghost predicate TokenAccepted(j: Json, s: Session)
    decreases j
  {
    || j.Null?
    || (j.Obj? && LeafAccepted(j.fields, "token", s) && LeafAccepted(j.fields, "bytes", s)
        && ("top_logprobs" in j.fields ==> j.fields["top_logprobs"].Null? || ListAccepted(j.fields["top_logprobs"], s)))
  }

  ghost predicate ListAccepted(j: Json, s: Session)
    decreases j
  {
    j.Arr? && forall i :: 0 <= i < |j.items| ==> TokenAccepted(j.items[i], s)
  }

  /** Logprobs of any other shape than an object are passed on unopened. */
  ghost predicate LogprobsAccepted(choice: Fields, s: Session) {
    "logprobs" in choice && choice["logprobs"].Obj? ==>
      var m := choice["logprobs"].fields;
      && (Present(m, "content") ==> ListAccepted(m["content"], s))
      && (Present(m, "refusal") ==> ListAccepted(m["refusal"], s))
  }

  /** Under the NearCloud policy a chunk is decrypted exactly if it parses, its first delta is accepted and so are the logprobs beside it. */
  lemma NearCloudChunkIff(data: Json, s: Session, endpoint: Endpoint)
    requires s.policy == NearCloudPolicy
    ensures DecryptChunk(data, s, endpoint).Ok? <==>
            var place := Locate(data);
            && !place.Malformed?
            && (place.At? ==>
                  && (forall k <- AsObject(place.delta).value :: Accepted(k, AsObject(place.delta).value[k], s, endpoint))
                  && LogprobsAccepted(place.choices[0].fields, s))
  {
    hide Locate, DecryptFields, Accepted, DecryptChoice, LogprobsAccepted, NearCloudPolicy;
    var place := Locate(data);
    if place.At? {
      NearCloudAcceptsIff(AsObject(place.delta).value, s, endpoint);
      NearCloudTokens("logprobs.content[]", endpoint);
      assert "logprobs.content[]" + ".token" == "logprobs.content[].token";
      LogprobsAcceptedIff(place.choices[0].fields, s, endpoint);
    }
  }

  lemma LogprobsAcceptedIff(choice: Fields, s: Session, endpoint: Endpoint)
    requires s.policy == NearCloudPolicy
    ensures DecryptChoice(choice, s, endpoint).Ok? <==> LogprobsAccepted(choice, s)
  {
    hide NearCloudPolicy, ListAccepted, DecryptTokens;
    if "logprobs" in choice && choice["logprobs"].Obj? {
      var m := choice["logprobs"].fields;
      if Present(m, "content") {
        ListAcceptedIff(m["content"], "logprobs.content[]", s, endpoint);
      }
      if Present(m, "refusal") {
        ListAcceptedIff(m["refusal"], "logprobs.refusal[]", s, endpoint);
      }
    }
  }

  lemma {:induction false} ListAcceptedIff(j: Json, base: string, s: Session, endpoint: Endpoint)
    requires s.policy == NearCloudPolicy && "logprobs." <= base
    ensures DecryptEntryList(j, s, base, endpoint).Ok? <==> ListAccepted(j, s)
    decreases j, 1
  {
    hide NearCloudPolicy, TokenAccepted, DecryptToken, DecryptTokens;
    if j.Arr? {
      forall i | 0 <= i < |j.items|
        ensures DecryptToken(j.items[i], s, base, endpoint).Ok? <==> TokenAccepted(j.items[i], s)
      {
        TokenAcceptedIff(j.items[i], base, s, endpoint);
      }
      AllTokensOk(j.items, s, base, endpoint);
    }
  }

  lemma AllTokensOk(items: seq<Json>, s: Session, base: string, endpoint: Endpoint)
    ensures DecryptTokens(items, s, base, endpoint).Ok? <==> forall i :: 0 <= i < |items| ==> DecryptToken(items[i], s, base, endpoint).Ok?
  {
    hide DecryptToken, DecryptTokens;
    if i :| 0 <= i < |items| && DecryptToken(items[i], s, base, endpoint).Err? {
      TokensErr(items, s, base, endpoint, i);
    } else {
      TokensOk(items, s, base, endpoint, seq(|items|, i requires 0 <= i < |items| => DecryptToken(items[i], s, base, endpoint).value));
    }
  }

  lemma {:induction false} TokenAcceptedIff(j: Json, base: string, s: Session, endpoint: Endpoint)
    requires s.policy == NearCloudPolicy && "logprobs." <= base
    ensures DecryptToken(j, s, base, endpoint).Ok? <==> TokenAccepted(j, s)
    decreases j, 0
  {
    hide NearCloudPolicy, ListAccepted, DecryptTokens, TokenLeaves;
    if j.Obj? {
      NearCloudTokens(base, endpoint);
      LeavesAcceptedIff(j.fields, base, s, endpoint);
      if Present(j.fields, "top_logprobs") {
        ListAcceptedIff(j.fields["top_logprobs"], base + ".top_logprobs[]", s, endpoint);
      }
    }
  }

  lemma LeavesAcceptedIff(m: Fields, base: string, s: Session, endpoint: Endpoint)
    requires s.policy(base + ".token", endpoint) && s.policy(base + ".bytes", endpoint)
    ensures TokenLeaves(m, s, base, endpoint).Ok? <==> LeafAccepted(m, "token", s) && LeafAccepted(m, "bytes", s)
  {
  }

  /** Logprobs of any other shape than an object come through unopened, under every policy. */
  lemma LogprobsUnopened(j: Json, s: Session, endpoint: Endpoint)
    requires !j.Obj?
    ensures var chunk := Obj(map["choices" := Arr([Obj(map["delta" := Obj(map[]), "logprobs" := j])])]);
            DecryptChunk(chunk, s, endpoint) == Ok(chunk)
  {
    var choice := map["delta" := Obj(map[]), "logprobs" := j];
    var chunk := Obj(map["choices" := Arr([Obj(choice)])]);
    assert Locate(chunk) == At(chunk.fields, [Obj(choice)], Obj(map[]));
    NothingToDecrypt(s, endpoint);
    RebuildSame(chunk, choice, map[]);
  }

  lemma NothingToDecrypt(s: Session, endpoint: Endpoint)
    ensures DecryptFields(map[], s, endpoint) == Ok(map[])
  {
    hide DecryptEntry;
  }

  /** Every choice but the first, and every other key of the chunk, comes through as it was. */
  lemma OthersKept(data: Json, s: Session, endpoint: Endpoint)
    requires DecryptChunk(data, s, endpoint).Ok? && Locate(data).At?
    ensures var r, place := DecryptChunk(data, s, endpoint).value, Locate(data);
            && r.Obj? && r.fields.Keys == place.full.Keys
            && (forall k <- place.full :: k != "choices" ==> r.fields[k] == place.full[k])
            && r.fields["choices"].Arr? && r.fields["choices"].items[1..] == place.choices[1..]
  {
    hide DecryptFields, ChoiceLogprobs, Locate;
  }
}
