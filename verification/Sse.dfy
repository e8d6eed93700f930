/** One chunk of a streamed chat response: decrypting it, and reading its text and metadata. */
module Sse {
  import opened Bytes
  import opened Json
  import opened FieldPolicy
  import opened Decryption
  import opened Logprobs

  // ---------------------------------------------------------------- finding the first delta

  /** A value read as an object; null reads as an empty one. */
  function AsObject(j: Json): Option<Fields> {
    match j
    case Obj(m) => Some(m)
    case Null => Some(map[])
    case _ => None
  }

  datatype Place = Malformed | Absent | At(full: Fields, choices: seq<Json>, delta: Json)

  function Locate(data: Json): (r: Place)
    ensures r.At? ==> data == Obj(r.full) && "choices" in r.full && r.full["choices"] == Arr(r.choices)
    ensures r.At? ==> r.choices != [] && r.choices[0].Obj? && "delta" in r.choices[0].fields
                      && r.delta == r.choices[0].fields["delta"] && AsObject(r.delta).Some?
  {
    match data
    case Null => Absent
    case Obj(full) =>
      if "choices" !in full || full["choices"].Null? then Absent
      else if !full["choices"].Arr? then Malformed
      else
        var choices := full["choices"].items;
        if exists c <- choices :: AsObject(c).None? then Malformed
        else if choices == [] then Absent
        else
          assert choices[0] in choices;
          if choices[0].Null? || "delta" !in choices[0].fields then Absent
          else
            var delta := choices[0].fields["delta"];
            if AsObject(delta).None? then Malformed else At(full, choices, delta)
    case _ => Malformed
  }

  // ---------------------------------------------------------------- decrypting a chunk

  function ChoiceLogprobs(choice: Fields, s: Session, endpoint: Endpoint): Result<Fields> {
    if AnyLogprobsLeafEncrypted(s, endpoint) then DecryptChoice(choice, s, endpoint) else Ok(choice)
  }

  /** The chunk with its first delta, and the logprobs beside it, decrypted. */
  ghost function DecryptChunk(data: Json, s: Session, endpoint: Endpoint): Result<Json> {
    match Locate(data)
    case Malformed => Err
    case Absent => Ok(data)
    case At(full, choices, delta) =>
      match DecryptFields(AsObject(delta).value, s, endpoint)
      case Err => Err
      case Ok(d) =>
        match ChoiceLogprobs(choices[0].fields, s, endpoint)
        case Err => Err
        case Ok(choice) => Ok(Rebuild(full, choices, choice, Rewrapped(delta, d)))
  }

  function Rewrapped(delta: Json, d: Fields): Json {
    if delta.Null? then Null else Obj(d)
  }

  function Rebuild(full: Fields, choices: seq<Json>, choice: Fields, delta: Json): Json
    requires choices != []
  {
    Obj(full["choices" := Arr(choices[0 := Obj(choice["delta" := delta])])])
  }

  lemma RebuildSame(data: Json, choice: Fields, d: Fields)
    requires Locate(data).At? && choice == Locate(data).choices[0].fields && d == AsObject(Locate(data).delta).value
    ensures Rebuild(Locate(data).full, Locate(data).choices, choice, Rewrapped(Locate(data).delta, d)) == data
  {
    var p := Locate(data);
    assert choice["delta" := p.delta] == choice;
    assert p.choices[0 := p.choices[0]] == p.choices;
    assert p.full["choices" := p.full["choices"]] == p.full;
  }

  method DecryptSSEChunk(data: Json, s: Session, endpoint: Endpoint) returns (r: Result<Json>)
    ensures r == DecryptChunk(data, s, endpoint)
  {
    hide DecryptFields, DecryptChoice, AnyLogprobsLeafEncrypted, Locate;
    var place := Locate(data);
    if place.Malformed? {
      return Err;
    }
    if place.Absent? {
      return Ok(data);
    }
    var delta := new JsonObject(AsObject(place.delta).value);
    var ok, changed := DecryptChatObject(delta, s, endpoint);
    if !ok {
      return Err;
    }
    var choice := new JsonObject(place.choices[0].fields);
    if AnyLogprobsLeafEncrypted(s, endpoint) {
      var c;
      ok, c := DecryptChoiceLogprobs(choice, s, endpoint);
      if !ok {
        return Err;
      }
      changed := changed || c;
    }
    if !changed {
      RebuildSame(data, choice.fields, delta.fields);
      return Ok(data);
    }
    choice.fields := choice.fields["delta" := Rewrapped(place.delta, delta.fields)];
    var choices := place.choices[0 := Obj(choice.fields)];
    r := Ok(Obj(place.full["choices" := Arr(choices)]));
  }

  // ---------------------------------------------------------------- the text of a chunk

  predicate IsText(j: Json) {
    j.Str? && j.s != ""
  }

  /** A nonempty string outside the metadata. */
  predicate IsTextField(key: string, j: Json) {
    !IsNonEncryptedField(key) && IsText(j)
  }

  /**
   A text is refused when it came as plaintext where the policy wants ciphertext, or when it is a
   ciphertext that decryption left as it was.
   */
  predicate TextRefused(key: string, j: Json, j': Json, s: Session, endpoint: Endpoint) {
    && IsTextField(key, j) && IsText(j')
    && if s.isEncrypted(j.s) then j'.s == j.s else s.policy(key, endpoint)
  }

  /** The decrypted texts of the first delta, by field. */
  ghost function ChunkTexts(data: Json, s: Session, endpoint: Endpoint): Result<map<string, string>> {
    match Locate(data)
    case Malformed => Err
    case Absent => Ok(map[])
    case At(_, _, delta) =>
      var before := AsObject(delta).value;
      match DecryptFields(before, s, endpoint)
      case Err => Err
      case Ok(d) =>
        Texts(before, d, s, endpoint)
  }

  /** The texts of a decrypted delta `d` that was `before`. */
  ghost function Texts(before: Fields, d: Fields, s: Session, endpoint: Endpoint): Result<map<string, string>> {
    if exists k :: k in before && k in d && TextRefused(k, before[k], d[k], s, endpoint) then Err
    else Ok(map k | k in before && k in d && IsTextField(k, before[k]) && IsText(d[k]) :: d[k].s)
  }

  method DecryptSSEChunkContent(data: Json, s: Session, endpoint: Endpoint) returns (r: Result<map<string, string>>)
    ensures r == ChunkTexts(data, s, endpoint)
  {
    hide DecryptFields, Locate, Texts, IsTextField;
    var place := Locate(data);
    if place.Malformed? {
      return Err;
    }
    if place.Absent? {
      return Ok(map[]);
    }
    var before := AsObject(place.delta).value;
    var originals := map k <- before | IsTextField(k, before[k]) :: before[k];
    var delta := new JsonObject(before);
    var ok, _ := DecryptChatObject(delta, s, endpoint);
    if !ok {
      return Err;
    }
    r := CollectTexts(originals, before, delta.fields, s, endpoint);
  }

  lemma TextRefusedIff(key: string, j: Json, j': Json, s: Session, endpoint: Endpoint)
    requires IsTextField(key, j)
    ensures j.Str?
    ensures TextRefused(key, j, j', s, endpoint) <==>
            IsText(j') && if s.isEncrypted(j.s) then j'.s == j.s else s.policy(key, endpoint)
  {
  }

  lemma RefusedIsTextField(key: string, j: Json, j': Json, s: Session, endpoint: Endpoint)
    requires TextRefused(key, j, j', s, endpoint)
    ensures IsTextField(key, j)
  {
  }

  /** The texts of the fields in `done`, none of which was refused. */
  ghost predicate Collected(originals: Fields, d: Fields, done: set<string>, texts: map<string, string>, s: Session, endpoint: Endpoint) {
    && (forall k <- done :: k in originals && (k in d ==> !TextRefused(k, originals[k], d[k], s, endpoint)))
    && texts == map k | k in done && k in d && IsText(d[k]) :: d[k].s
  }

  lemma CollectedOne(originals: Fields, d: Fields, done: set<string>, texts: map<string, string>, s: Session, endpoint: Endpoint, key: string)
    requires Collected(originals, d, done, texts, s, endpoint) && key in originals
    requires key in d ==> !TextRefused(key, originals[key], d[key], s, endpoint)
    ensures Collected(originals, d, done + {key}, if key in d && IsText(d[key]) then texts[key := d[key].s] else texts, s, endpoint)
  {
    hide TextRefused;
  }

  lemma CollectedAll(before: Fields, originals: Fields, d: Fields, texts: map<string, string>, s: Session, endpoint: Endpoint)
    requires originals == map k <- before | IsTextField(k, before[k]) :: before[k]
    requires Collected(originals, d, originals.Keys, texts, s, endpoint)
    ensures Texts(before, d, s, endpoint) == Ok(texts)
  {
    hide TextRefused, IsTextField;
    forall k | k in before && k in d && TextRefused(k, before[k], d[k], s, endpoint)
      ensures k in originals
    {
      RefusedIsTextField(k, before[k], d[k], s, endpoint);
    }
    assert texts == map k | k in before && k in d && IsTextField(k, before[k]) && IsText(d[k]) :: d[k].s;
  }

  lemma RefusedOne(before: Fields, d: Fields, s: Session, endpoint: Endpoint, key: string)
    requires key in before && key in d && TextRefused(key, before[key], d[key], s, endpoint)
    ensures Texts(before, d, s, endpoint).Err?
  {
  }

  /** Classifies each original text against what decryption made of it, in any order. */
  method CollectTexts(originals: Fields, ghost before: Fields, d: Fields, s: Session, endpoint: Endpoint)
      returns (r: Result<map<string, string>>)
    requires originals == map k <- before | IsTextField(k, before[k]) :: before[k]
    ensures r == Texts(before, d, s, endpoint)
  {
    var texts: map<string, string> := map[];
    var todo := originals.Keys;
    ghost var done: set<string> := {};
    assert Collected(originals, d, done, texts, s, endpoint);
    hide IsTextField, TextRefused, Texts, Collected;
    while todo != {}
      invariant todo + done == originals.Keys
      invariant Collected(originals, d, done, texts, s, endpoint)
      decreases todo
    {
      var key :| key in todo;
      todo := todo - {key};
      if key in d {
        TextRefusedIff(key, originals[key], d[key], s, endpoint);
        if IsText(d[key]) {
          var original, text := originals[key].s, d[key].s;
          if !s.isEncrypted(original) {
            if s.policy(key, endpoint) {
              RefusedOne(before, d, s, endpoint, key);
              return Err;
            }
          } else if original == text {
            RefusedOne(before, d, s, endpoint, key);
            return Err;
          }
        }
      }
      CollectedOne(originals, d, done, texts, s, endpoint, key);
      if key in d && IsText(d[key]) {
        texts := texts[key := d[key].s];
      }
      done := done + {key};
    }
    assert done == originals.Keys;
    CollectedAll(before, originals, d, texts, s, endpoint);
    r := Ok(texts);
  }

  // ---------------------------------------------------------------- the metadata of a chunk

  datatype Meta = Meta(calls: seq<Json>, finish: string)

  predicate TypedChoice(c: Json) {
    || c.Null?
    || (c.Obj?
        && (Present(c.fields, "delta") ==>
              c.fields["delta"].Obj?
              && (Present(c.fields["delta"].fields, "tool_calls") ==> c.fields["delta"].fields["tool_calls"].Arr?))
        && (Present(c.fields, "finish_reason") ==> c.fields["finish_reason"].Str?))
  }

  function RawCalls(c: Json): seq<Json>
    requires TypedChoice(c)
  {
    if c.Null? || !Present(c.fields, "delta") || !Present(c.fields["delta"].fields, "tool_calls") then []
    else c.fields["delta"].fields["tool_calls"].items
  }

  function FinishReason(c: Json): string
    requires TypedChoice(c)
  {
    if c.Null? || !Present(c.fields, "finish_reason") then "" else c.fields["finish_reason"].s
  }

  /** The typed choices of a chunk, or none. */
  function TypedChoices(data: Json): (r: Result<seq<Json>>)
    ensures r.Ok? ==> forall i :: 0 <= i < |r.value| ==> TypedChoice(r.value[i])
  {
    if data.Null? || (data.Obj? && !Present(data.fields, "choices")) then Ok([])
    else if !data.Obj? || !data.fields["choices"].Arr? then Err
    else if forall c <- data.fields["choices"].items :: TypedChoice(c) then Ok(data.fields["choices"].items)
    else Err
  }

  /** Tool-call fragments, decrypted, and the finish reason. */
  function ChunkMeta(data: Json, s: Session, endpoint: Endpoint): Result<Meta> {
    match TypedChoices(data)
    case Err => Err
    case Ok(choices) =>
      if choices == [] then Ok(Meta([], ""))
      else
        var raws := RawCalls(choices[0]);
        if raws == [] then Ok(Meta([], FinishReason(choices[0])))
        else
          match DecryptEntry("tool_calls", Arr(raws), s, endpoint)
          case Ok(Arr(items)) => Ok(Meta(items, FinishReason(choices[0])))
          case _ => Err
  }

  lemma OneEntry(key: string, j: Json, s: Session, endpoint: Endpoint)
    ensures DecryptFields(map[key := j], s, endpoint) ==
            match DecryptEntry(key, j, s, endpoint)
            case Ok(v) => Ok(map[key := v])
            case Err => Err
  {
    hide DecryptEntry;
    var m := map[key := j];
    assert m[key] == j;
    if DecryptEntry(key, j, s, endpoint).Ok? {
      assert DecryptFields(m, s, endpoint).value == map[key := DecryptEntry(key, j, s, endpoint).value];
    }
  }

  method ExtractChunkMeta(data: Json, s: Session, endpoint: Endpoint) returns (r: Result<Meta>)
    ensures r == ChunkMeta(data, s, endpoint)
  {
    hide RawCalls, FinishReason, DecryptEntry, DecryptFields, TypedChoice;
    var parsed := TypedChoices(data);
    if parsed.Err? {
      return Err;
    }
    if parsed.value == [] {
      return Ok(Meta([], ""));
    }
    var choice := parsed.value[0];
    var calls := RawCalls(choice);
    if calls != [] {
      var delta := new JsonObject(map["tool_calls" := Arr(calls)]);
      OneEntry("tool_calls", Arr(calls), s, endpoint);
      var ok, _ := DecryptChatObject(delta, s, endpoint);
      if !ok || !delta.fields["tool_calls"].Arr? {
        return Err;
      }
      calls := delta.fields["tool_calls"].items;
    }
    r := Ok(Meta(calls, FinishReason(choice)));
  }
}
