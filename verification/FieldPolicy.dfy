/** Which response fields a session expects to be encrypted, and how one leaf is decrypted. */
module FieldPolicy {
  import opened Bytes
  import opened Json

  datatype Endpoint = Chat | Embeddings | Images | Rerank | Score | Audio | Responses | Speech

  /**
   A field-level session. `decrypt` is None when authentication fails; `parse` reads a decrypted
   payload as JSON and is None when it is not JSON.
   */
  datatype Session = Session(isEncrypted: string -> bool,
                             decrypt: string -> Option<string>,
                             policy: (string, Endpoint) -> bool,
                             parse: string -> Option<Json>)

  const CONTENT: string := "content"
  const CONTENT_TEXT: string := "content[].text"
  const AUDIO_DATA: string := "audio.data"
  const TOOL_FUNCTION: string := "tool_calls[].function"
  const FUNCTION_CALL: string := "function_call"

  /** Plaintext metadata keys of delta and message objects. */
  predicate IsNonEncryptedField(key: string) {
    key in {"role", "tool_call_id", "type", "finish_reason", "id"}
  }

  /** The keys whose values are nested structures with their own leaves. */
  predicate IsStructured(key: string) {
    key in {"audio", "tool_calls", "function_call"}
  }

  predicate NearCloudPlain(path: string) {
    path in {"role", "finish_reason", "index", "object", "created", "id", "system_fingerprint",
             "tool_call_id", "tool_calls[].id", "tool_calls[].type", "tool_calls[].index",
             "tool_calls", "tool_calls[]", "tool_calls[].function", "audio", "function_call", "content[]",
             "logprobs", "logprobs.content", "logprobs.content[]", "logprobs.refusal", "logprobs.refusal[]",
             "logprobs.content[].top_logprobs", "logprobs.content[].top_logprobs[]",
             "logprobs.refusal[].top_logprobs", "logprobs.refusal[].top_logprobs[]"}
  }

  predicate NearCloudLeaf(path: string) {
    path in {"content", "content[].text", "refusal", "reasoning", "reasoning_content", "name", "audio.data",
             "function_call.name", "function_call.arguments",
             "tool_calls[].function.name", "tool_calls[].function.arguments",
             "logprobs.content[].token", "logprobs.content[].bytes",
             "logprobs.refusal[].token", "logprobs.refusal[].bytes",
             "b64_json", "revised_prompt", "embedding", "results[].document.text"}
  }

  /** NearCloud: everything not known to be structural is encrypted, but for the score endpoint's score. */
  predicate NearCloudPolicy(path: string, endpoint: Endpoint) {
    if path == "usage" || "usage." <= path then false
    else if NearCloudPlain(path) then false
    else if NearCloudLeaf(path) then true
    else !(endpoint == Score && path == "score")
  }

  /** Venice: only the chat content is encrypted. */
  predicate VenicePolicy(path: string, endpoint: Endpoint) {
    endpoint == Chat && path == CONTENT
  }

  // ---------------------------------------------------------------- one leaf

  datatype Leaf = Plain(text: string) | Skipped | Rejected

  /**
   An encrypted JSON string yields its plaintext. Other values are let through when the policy
   allows plaintext and rejected when it does not; an empty string is always let through, and so
   is a ciphertext of the empty text.
   */
  function DecryptFieldOrSkip(j: Json, s: Session, requiresEncrypted: bool): Leaf {
    if !j.Str? then if requiresEncrypted then Rejected else Skipped
    else if j.s == "" then Skipped
    else if !s.isEncrypted(j.s) then if requiresEncrypted then Rejected else Skipped
    else
      match s.decrypt(j.s)
      case None => Rejected
      case Some(p) => if p == "" then Skipped else Plain(p)
  }

  /** A decrypted payload: JSON if it parses, otherwise a string. */
  function ApplyDecryptedJson(p: string, s: Session): Json {
    match s.parse(p)
    case Some(j) => j
    case None => Str(p)
  }

  function DecryptString(j: Json, s: Session, requiresEncrypted: bool): Result<Json> {
    match DecryptFieldOrSkip(j, s, requiresEncrypted)
    case Plain(p) => Ok(Str(p))
    case Skipped => Ok(j)
    case Rejected => Err
  }

  function DecryptValue(j: Json, s: Session, requiresEncrypted: bool): Result<Json> {
    match DecryptFieldOrSkip(j, s, requiresEncrypted)
    case Plain(p) => Ok(ApplyDecryptedJson(p, s))
    case Skipped => Ok(j)
    case Rejected => Err
  }

  /** A leaf the policy marks encrypted was an authenticated ciphertext, or empty. */
  predicate Authentic(j: Json, s: Session) {
    j == Null || j == Str("") || (j.Str? && s.isEncrypted(j.s) && s.decrypt(j.s).Some?)
  }

  lemma RequiredLeafAuthentic(j: Json, s: Session)
    requires DecryptFieldOrSkip(j, s, true) != Rejected
    ensures Authentic(j, s)
  {
  }

  /** obj[key] decrypted as a string; absent and null values stay. */
  function StringField(m: Fields, key: string, s: Session, path: string, endpoint: Endpoint): Result<Fields> {
    if !Present(m, key) then Ok(m)
    else
      match DecryptString(m[key], s, s.policy(path, endpoint))
      case Ok(v) => Ok(m[key := v])
      case Err => Err
  }

  /** obj[key] decrypted as a JSON value; absent and null values stay. */
  function ValueField(m: Fields, key: string, s: Session, path: string, endpoint: Endpoint): Result<Fields> {
    if !Present(m, key) then Ok(m)
    else
      match DecryptValue(m[key], s, s.policy(path, endpoint))
      case Ok(v) => Ok(m[key := v])
      case Err => Err
  }

  /** The verdict of an in-place rewriting step against its specification. */
  ghost predicate Rewrites(before: Fields, spec: Result<Fields>, after: Fields, ok: bool, changed: bool) {
    match spec
    case Ok(m) => ok && after == m && (!changed ==> m == before)
    case Err => !ok
  }

  method DecryptMaybeEncryptedStringField(obj: JsonObject, key: string, s: Session, path: string, endpoint: Endpoint)
      returns (ok: bool, changed: bool)
    modifies obj
    ensures Rewrites(old(obj.fields), StringField(old(obj.fields), key, s, path, endpoint), obj.fields, ok, changed)
  {
    if key !in obj.fields || obj.fields[key].Null? {
      return true, false;
    }
    var raw := obj.fields[key];
    match DecryptFieldOrSkip(raw, s, s.policy(path, endpoint)) {
      case Rejected =>
        return false, false;
      case Skipped =>
        assert obj.fields[key := raw] == obj.fields;
        return true, false;
      case Plain(p) =>
        obj.fields := obj.fields[key := Str(p)];
        return true, true;
    }
  }

  method DecryptJsonValueField(obj: JsonObject, key: string, s: Session, path: string, endpoint: Endpoint)
      returns (ok: bool, changed: bool)
    modifies obj
    ensures Rewrites(old(obj.fields), ValueField(old(obj.fields), key, s, path, endpoint), obj.fields, ok, changed)
  {
    if key !in obj.fields || obj.fields[key].Null? {
      return true, false;
    }
    var raw := obj.fields[key];
    match DecryptFieldOrSkip(raw, s, s.policy(path, endpoint)) {
      case Rejected =>
        return false, false;
      case Skipped =>
        assert obj.fields[key := raw] == obj.fields;
        return true, false;
      case Plain(p) =>
        obj.fields := obj.fields[key := ApplyDecryptedJson(p, s)];
        return true, true;
    }
  }
}
