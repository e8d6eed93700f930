/**
 What a decrypted delta, message or chunk holds: every ciphertext visited is replaced by its text in
 its own place, and everything else is as it was.
 */
module DecryptedValues {
  import opened Bytes
  import opened Json
  import opened FieldPolicy
  import opened Decryption
  import opened Logprobs
  import opened Sse

  // ---------------------------------------------------------------- one leaf

  /** A ciphertext of a text, which may not be empty. */
  ghost predicate Encloses(j: Json, p: string, s: Session) {
    j.Str? && j.s != "" && p != "" && s.isEncrypted(j.s) && s.decrypt(j.s) == Some(p)
  }

  /** A ciphertext is shown as its text, and any other value as it is. */
  ghost predicate Shows(j: Json, r: Json, s: Session) {
    && (forall p :: Encloses(j, p, s) ==> r == Str(p))
    && ((forall p :: !Encloses(j, p, s)) ==> r == j)
  }

  /** The same where the text may be a JSON document. */
  ghost predicate ShowsJson(j: Json, r: Json, s: Session) {
    && (forall p :: Encloses(j, p, s) ==> r == if s.parse(p).Some? then s.parse(p).value else Str(p))
    && ((forall p :: !Encloses(j, p, s)) ==> r == j)
  }

  /** The values at these keys are shown, and the others are as they were. */
  ghost predicate ShowsAt(m: Fields, r: Fields, keys: set<string>, s: Session) {
    r.Keys == m.Keys && forall k <- m :: if k in keys then Shows(m[k], r[k], s) else r[k] == m[k]
  }

  lemma StringShown(j: Json, s: Session, required: bool)
    requires DecryptString(j, s, required).Ok?
    ensures Shows(j, DecryptString(j, s, required).value, s)
  {
    ShownPlain(j, s);
  }

  lemma ShownPlain(j: Json, s: Session)
    ensures match DecryptFieldOrSkip(j, s, false)
            case Plain(p) => Encloses(j, p, s)
            case _ => forall p :: !Encloses(j, p, s)
  {
  }

  lemma ValueShown(j: Json, s: Session, required: bool)
    requires DecryptValue(j, s, required).Ok?
    ensures ShowsJson(j, DecryptValue(j, s, required).value, s)
  {
    ShownPlain(j, s);
  }

  lemma FieldShown(m: Fields, key: string, s: Session, path: string, endpoint: Endpoint)
    requires StringField(m, key, s, path, endpoint).Ok?
    ensures ShowsAt(m, StringField(m, key, s, path, endpoint).value, {key}, s)
  {
    hide DecryptString;
    if Present(m, key) {
      StringShown(m[key], s, s.policy(path, endpoint));
    }
  }

  // ---------------------------------------------------------------- the entries of a delta

  ghost predicate PartShown(j: Json, r: Json, s: Session) {
    (j.Null? && r.Null?) || (j.Obj? && r.Obj? && ShowsAt(j.fields, r.fields, {"text"}, s))
  }

  ghost predicate FunctionShown(j: Json, r: Json, s: Session) {
    j.Obj? && r.Obj? && ShowsAt(j.fields, r.fields, {"name", "arguments"}, s)
  }

  ghost predicate CallShown(j: Json, r: Json, s: Session) {
    || (j.Null? && r.Null?)
    || (&& j.Obj? && r.Obj? && r.fields.Keys == j.fields.Keys
        && forall k <- j.fields ::
             if k == "function" && !j.fields[k].Null? then FunctionShown(j.fields[k], r.fields[k], s) else r.fields[k] == j.fields[k])
  }

  ghost predicate PartsShown(j: Json, r: Json, s: Session) {
    j.Arr? && r.Arr? && |r.items| == |j.items| && forall i :: 0 <= i < |j.items| ==> PartShown(j.items[i], r.items[i], s)
  }

  ghost predicate CallsShown(j: Json, r: Json, s: Session) {
    j.Arr? && r.Arr? && |r.items| == |j.items| && forall i :: 0 <= i < |j.items| ==> CallShown(j.items[i], r.items[i], s)
  }

  /** What the value at a key becomes. */
  ghost predicate EntryShown(key: string, j: Json, r: Json, s: Session, endpoint: Endpoint) {
    if j.Null? || IsNonEncryptedField(key) then r == j
    else if key == CONTENT && j.Arr? && s.policy(CONTENT_TEXT, endpoint) then PartsShown(j, r, s)
    else if key == "audio" then
      if s.policy(AUDIO_DATA, endpoint) then j.Obj? && r.Obj? && ShowsAt(j.fields, r.fields, {"data"}, s) else r == j
    else if key == "tool_calls" then
      if s.policy("tool_calls[].function.name", endpoint) then CallsShown(j, r, s) else r == j
    else if key == "function_call" then
      if j.Obj? && s.policy("function_call.name", endpoint) then FunctionShown(j, r, s) else r == j
    else Shows(j, r, s)
  }

  lemma OneFunctionShown(m: Fields, s: Session, base: string, endpoint: Endpoint)
    requires DecryptFunction(m, s, base, endpoint).Ok?
    ensures ShowsAt(m, DecryptFunction(m, s, base, endpoint).value, {"name", "arguments"}, s)
  {
    hide StringField, Shows;
    var named := StringField(m, "name", s, base + ".name", endpoint).value;
    FieldShown(m, "name", s, base + ".name", endpoint);
    FieldShown(named, "arguments", s, base + ".arguments", endpoint);
  }

  lemma OnePartShown(j: Json, s: Session, endpoint: Endpoint)
    requires DecryptPart(j, s, endpoint).Ok?
    ensures PartShown(j, DecryptPart(j, s, endpoint).value, s)
  {
    hide StringField, ShowsAt;
    if j.Obj? {
      FieldShown(j.fields, "text", s, CONTENT_TEXT, endpoint);
    }
  }

  lemma OneCallShown(j: Json, s: Session, endpoint: Endpoint)
    requires DecryptCall(j, s, endpoint).Ok?
    ensures CallShown(j, DecryptCall(j, s, endpoint).value, s)
  {
    hide DecryptFunction, ShowsAt;
    if j.Obj? && Present(j.fields, "function") {
      OneFunctionShown(j.fields["function"].fields, s, TOOL_FUNCTION, endpoint);
    }
  }

  lemma AllPartsShown(j: Json, s: Session, endpoint: Endpoint)
    requires j.Arr? && s.policy(CONTENT_TEXT, endpoint) && DecryptContent(j, s, endpoint).Ok?
    ensures PartsShown(j, DecryptContent(j, s, endpoint).value, s)
  {
    hide DecryptPart, PartShown, MapAll;
    var out := DecryptContent(j, s, endpoint).value.items;
    MapAllIff(j.items, PartDecryptor(s, endpoint), out);
    forall i | 0 <= i < |j.items|
      ensures PartShown(j.items[i], out[i], s)
    {
      assert PartDecryptor(s, endpoint)(j.items[i]) == Ok(out[i]);
      OnePartShown(j.items[i], s, endpoint);
    }
  }

  lemma AllCallsShown(j: Json, s: Session, endpoint: Endpoint)
    requires DecryptToolCalls(j, s, endpoint).Ok?
    ensures CallsShown(j, DecryptToolCalls(j, s, endpoint).value, s)
  {
    hide DecryptCall, CallShown, MapAll;
    var out := DecryptToolCalls(j, s, endpoint).value.items;
    MapAllIff(j.items, CallDecryptor(s, endpoint), out);
    forall i | 0 <= i < |j.items|
      ensures CallShown(j.items[i], out[i], s)
    {
      assert CallDecryptor(s, endpoint)(j.items[i]) == Ok(out[i]);
      OneCallShown(j.items[i], s, endpoint);
    }
  }

  lemma ContentShown(j: Json, s: Session, endpoint: Endpoint)
    requires DecryptContent(j, s, endpoint).Ok?
    ensures var r := DecryptContent(j, s, endpoint).value;
            if j.Arr? && s.policy(CONTENT_TEXT, endpoint) then PartsShown(j, r, s) else Shows(j, r, s)
  {
    hide DecryptString, Shows, PartsShown, MapAll;
    if j.Arr? && s.policy(CONTENT_TEXT, endpoint) {
      AllPartsShown(j, s, endpoint);
    } else if j.Str? {
      StringShown(j, s, s.policy(CONTENT, endpoint));
    } else {
      NotEnclosing(j, s);
    }
  }

  lemma OneEntryShown(key: string, j: Json, s: Session, endpoint: Endpoint)
    requires DecryptEntry(key, j, s, endpoint).Ok?
    ensures EntryShown(key, j, DecryptEntry(key, j, s, endpoint).value, s, endpoint)
  {
    hide DecryptString, DecryptContent, DecryptFunction, StringField, ShowsAt, Shows, PartsShown, CallsShown, DecryptToolCalls;
    if j.Null? || IsNonEncryptedField(key) {
    } else if key == CONTENT {
      ContentShown(j, s, endpoint);
    } else if key == "audio" {
      if s.policy(AUDIO_DATA, endpoint) {
        FieldShown(j.fields, "data", s, AUDIO_DATA, endpoint);
      }
    } else if key == "tool_calls" {
      if s.policy("tool_calls[].function.name", endpoint) {
        AllCallsShown(j, s, endpoint);
      }
    } else if key == "function_call" {
      if j.Obj? && s.policy("function_call.name", endpoint) {
        OneFunctionShown(j.fields, s, FUNCTION_CALL, endpoint);
      }
    } else {
      StringShown(j, s, s.policy(key, endpoint));
    }
  }

  lemma NotEnclosing(j: Json, s: Session)
    requires !j.Str?
    ensures Shows(j, j, s)
  {
  }

  /** Decryption keeps the keys and shows the value at each of them. */
  ghost predicate DeltaShown(m: Fields, r: Fields, s: Session, endpoint: Endpoint) {
    r.Keys == m.Keys && forall k <- m :: EntryShown(k, m[k], r[k], s, endpoint)
  }

  lemma DecryptedDelta(m: Fields, s: Session, endpoint: Endpoint)
    requires DecryptFields(m, s, endpoint).Ok?
    ensures DeltaShown(m, DecryptFields(m, s, endpoint).value, s, endpoint)
  {
    hide DecryptEntry, EntryShown;
    forall k | k in m
      ensures EntryShown(k, m[k], DecryptFields(m, s, endpoint).value[k], s, endpoint)
    {
      OneEntryShown(k, m[k], s, endpoint);
    }
  }

  // ---------------------------------------------------------------- the logprobs

  /** A token entry: its text, its bytes and, in turn, the entries nested in it. */
  ghost predicate TokenShown(j: Json, r: Json, s: Session)
    decreases j
  {
    || (j.Null? && r.Null?)
    || (&& j.Obj? && r.Obj? && r.fields.Keys == j.fields.Keys
        && forall k <- j.fields ::
             if k == "token" then Shows(j.fields[k], r.fields[k], s)
             else if k == "bytes" then ShowsJson(j.fields[k], r.fields[k], s)
             else if k == "top_logprobs" && !j.fields[k].Null? then TokensShown(j.fields[k], r.fields[k], s)
             else r.fields[k] == j.fields[k])
  }

  ghost predicate TokensShown(j: Json, r: Json, s: Session)
    decreases j
  {
    j.Arr? && r.Arr? && |r.items| == |j.items| && forall i :: 0 <= i < |j.items| ==> TokenShown(j.items[i], r.items[i], s)
  }

  lemma LeavesShown(m: Fields, s: Session, base: string, endpoint: Endpoint)
    requires TokenLeaves(m, s, base, endpoint).Ok?
    ensures var r := TokenLeaves(m, s, base, endpoint).value;
            && r.Keys == m.Keys
            && forall k <- m ::
                 if k == "token" then Shows(m[k], r[k], s)
                 else if k == "bytes" then ShowsJson(m[k], r[k], s)
                 else r[k] == m[k]
  {
    hide StringField, DecryptValue, Shows, ShowsJson;
    var m' := StringField(m, "token", s, base + ".token", endpoint).value;
    FieldShown(m, "token", s, base + ".token", endpoint);
    if Present(m', "bytes") {
      ValueShown(m'["bytes"], s, s.policy(base + ".bytes", endpoint));
    } else {
      NullShown(s);
    }
  }

  lemma NullShown(s: Session)
    ensures ShowsJson(Null, Null, s)
  {
  }

  lemma {:induction false} TokensAt(items: seq<Json>, s: Session, base: string, endpoint: Endpoint, i: nat)
    requires DecryptTokens(items, s, base, endpoint).Ok? && i < |items|
    ensures DecryptToken(items[i], s, base, endpoint) == Ok(DecryptTokens(items, s, base, endpoint).value[i])
  {
    hide DecryptToken;
    if i < |items| - 1 {
      TokensAt(items[..|items| - 1], s, base, endpoint, i);
    }
  }

  lemma {:induction false} ListShown(j: Json, s: Session, base: string, endpoint: Endpoint)
    requires j.Arr? && DecryptTokens(j.items, s, base, endpoint).Ok?
    ensures TokensShown(j, Arr(DecryptTokens(j.items, s, base, endpoint).value), s)
    decreases j, 1
  {
    hide DecryptToken, DecryptTokens, TokenShown;
    forall i | 0 <= i < |j.items|
      ensures TokenShown(j.items[i], DecryptTokens(j.items, s, base, endpoint).value[i], s)
    {
      TokensAt(j.items, s, base, endpoint, i);
      OneTokenShown(j.items[i], s, base, endpoint);
    }
  }

  lemma {:induction false} OneTokenShown(j: Json, s: Session, base: string, endpoint: Endpoint)
    requires DecryptToken(j, s, base, endpoint).Ok?
    ensures TokenShown(j, DecryptToken(j, s, base, endpoint).value, s)
    decreases j, 0
  {
    hide DecryptTokens, TokensShown, TokenLeaves, Shows, ShowsJson;
    if j.Obj? {
      LeavesShown(j.fields, s, base, endpoint);
      if Present(j.fields, "top_logprobs") {
        ListShown(j.fields["top_logprobs"], s, base + ".top_logprobs[]", endpoint);
      }
    }
  }

  /** Both lists of a logprobs object are shown; logprobs of any other shape stay as they are. */
  ghost predicate LogprobsShown(j: Json, r: Json, s: Session) {
    if !j.Obj? then r == j
    else
      && r.Obj? && r.fields.Keys == j.fields.Keys
      && forall k <- j.fields ::
           if k in {"content", "refusal"} && !j.fields[k].Null? then TokensShown(j.fields[k], r.fields[k], s)
           else r.fields[k] == j.fields[k]
  }

  lemma OneListShown(m: Fields, key: string, s: Session, base: string, endpoint: Endpoint)
    requires AtKey(m, key, j => DecryptEntryList(j, s, base, endpoint)).Ok?
    ensures var r := AtKey(m, key, j => DecryptEntryList(j, s, base, endpoint)).value;
            && r.Keys == m.Keys && (forall k <- m :: k != key ==> r[k] == m[k])
            && (key in m ==> if m[key].Null? then r[key] == m[key] else TokensShown(m[key], r[key], s))
  {
    hide DecryptTokens, TokensShown;
    if Present(m, key) {
      ListShown(m[key], s, base, endpoint);
    }
  }

  lemma ListsShown(m: Fields, s: Session, endpoint: Endpoint)
    requires DecryptLists(m, s, endpoint).Ok?
    ensures LogprobsShown(Obj(m), Obj(DecryptLists(m, s, endpoint).value), s)
  {
    hide DecryptEntryList, TokensShown, AtKey;
    var m' := AtKey(m, "content", j => DecryptEntryList(j, s, "logprobs.content[]", endpoint)).value;
    OneListShown(m, "content", s, "logprobs.content[]", endpoint);
    OneListShown(m', "refusal", s, "logprobs.refusal[]", endpoint);
  }

  // ---------------------------------------------------------------- a whole chunk

  ghost predicate ObjectOrNull(j: Json) {
    j.Obj? || j.Null?
  }

  /** All choices are objects or null. */
  ghost predicate HasChoices(data: Json) {
    && data.Obj? && "choices" in data.fields && data.fields["choices"].Arr?
    && forall c <- data.fields["choices"].items :: ObjectOrNull(c)
  }

  /** The first choice has a delta. */
  ghost predicate HasDelta(data: Json)
    requires HasChoices(data)
  {
    var choices := data.fields["choices"].items;
    choices != [] && choices[0].Obj? && "delta" in choices[0].fields
  }

  /** A chunk does not parse if it, its choices or the first delta have the wrong type; null and absence are no error. */
  ghost predicate Misshapen(data: Json) {
    if HasChoices(data) then HasDelta(data) && !ObjectOrNull(data.fields["choices"].items[0].fields["delta"])
    else !data.Null? && !(data.Obj? && !Present(data.fields, "choices"))
  }

  ghost predicate HasGoodDelta(data: Json) {
    HasChoices(data) && HasDelta(data) && ObjectOrNull(data.fields["choices"].items[0].fields["delta"])
  }

  lemma LocateIff(data: Json)
    ensures Locate(data).Malformed? <==> Misshapen(data)
    ensures Locate(data).At? <==> HasGoodDelta(data)
  {
    if data.Obj? && "choices" in data.fields && data.fields["choices"].Arr? {
      var choices := data.fields["choices"].items;
      assert forall c <- choices :: ObjectOrNull(c) <==> AsObject(c).Some?;
      assert HasChoices(data) && choices != [] ==> choices[0] in choices && ObjectOrNull(choices[0]);
    }
  }

  /** The choice with its delta shown and, if the policy covers any of it, its logprobs. */
  ghost predicate ChoiceShown(m: Fields, r: Fields, s: Session, endpoint: Endpoint) {
    r.Keys == m.Keys &&
    forall k <- m ::
      if k == "delta" then
        if m[k].Obj? then r[k].Obj? && DeltaShown(m[k].fields, r[k].fields, s, endpoint) else r[k] == m[k]
      else if k == "logprobs" && AnyLogprobsLeafEncrypted(s, endpoint) then LogprobsShown(m[k], r[k], s)
      else r[k] == m[k]
  }

  /** A chunk with a first delta has its first choice shown; everything else, and any other chunk, is as it was. */
  ghost predicate ChunkShown(data: Json, r: Json, s: Session, endpoint: Endpoint) {
    if !HasGoodDelta(data) then r == data
    else
      var full, choices := data.fields, data.fields["choices"].items;
      && r.Obj? && r.fields.Keys == full.Keys && r.fields["choices"].Arr?
      && (forall k <- full :: k != "choices" ==> r.fields[k] == full[k])
      && var shown := r.fields["choices"].items;
      && |shown| == |choices| && shown[0].Obj? && shown[1..] == choices[1..]
      && ChoiceShown(choices[0].fields, shown[0].fields, s, endpoint)
  }

  lemma LogprobsOfChoice(choice: Fields, s: Session, endpoint: Endpoint)
    requires ChoiceLogprobs(choice, s, endpoint).Ok?
    ensures var r := ChoiceLogprobs(choice, s, endpoint).value;
            && r.Keys == choice.Keys
            && forall k <- choice ::
                 if k == "logprobs" && AnyLogprobsLeafEncrypted(s, endpoint) then LogprobsShown(choice[k], r[k], s) else r[k] == choice[k]
  {
    hide DecryptLists, TokensShown;
    if "logprobs" in choice && choice["logprobs"].Obj? && AnyLogprobsLeafEncrypted(s, endpoint) {
      ListsShown(choice["logprobs"].fields, s, endpoint);
    }
  }

  lemma DecryptedChunk(data: Json, s: Session, endpoint: Endpoint)
    requires DecryptChunk(data, s, endpoint).Ok?
    ensures !Misshapen(data) && ChunkShown(data, DecryptChunk(data, s, endpoint).value, s, endpoint)
  {
    hide DecryptFields, DeltaShown, ChoiceLogprobs, LogprobsShown, Locate, AnyLogprobsLeafEncrypted, Misshapen;
    LocateIff(data);
    var place := Locate(data);
    if place.At? {
      DecryptedDelta(AsObject(place.delta).value, s, endpoint);
      LogprobsOfChoice(place.choices[0].fields, s, endpoint);
    }
  }
}
