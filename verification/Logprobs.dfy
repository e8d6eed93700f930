/** Decrypting token log-probabilities, which nest to any depth. */
module Logprobs {
  import opened Json
  import opened FieldPolicy
  import opened Decryption

  /** One token entry; null entries stay. */
  function DecryptToken(j: Json, s: Session, base: string, endpoint: Endpoint): Result<Json>
    decreases j
  {
    match j
    case Null => Ok(Null)
    case Obj(m) =>
      (match TokenLeaves(m, s, base, endpoint)
       case Err => Err
       case Ok(m') =>
         if !Present(m, "top_logprobs") then Ok(Obj(m'))
         else if !m["top_logprobs"].Arr? then Err
         else
           match DecryptTokens(m["top_logprobs"].items, s, base + ".top_logprobs[]", endpoint)
           case Err => Err
           case Ok(items) => Ok(Obj(m'["top_logprobs" := Arr(items)])))
    case _ => Err
  }

  function DecryptTokens(items: seq<Json>, s: Session, base: string, endpoint: Endpoint): (r: Result<seq<Json>>)
    ensures r.Ok? ==> |r.value| == |items|
    decreases items
  {
    if items == [] then Ok([])
    else
      var rest := DecryptTokens(items[..|items| - 1], s, base, endpoint);
      match DecryptToken(items[|items| - 1], s, base, endpoint)
      case Err => Err
      case Ok(v) => if rest.Err? then Err else Ok(rest.value + [v])
  }

  /** The token text and its bytes. */
  function TokenLeaves(m: Fields, s: Session, base: string, endpoint: Endpoint): (r: Result<Fields>)
    ensures r.Ok? && "top_logprobs" in m ==> "top_logprobs" in r.value && r.value["top_logprobs"] == m["top_logprobs"]
    ensures r.Ok? && "top_logprobs" !in m ==> "top_logprobs" !in r.value
  {
    match StringField(m, "token", s, base + ".token", endpoint)
    case Err => Err
    case Ok(m') => ValueField(m', "bytes", s, base + ".bytes", endpoint)
  }

  lemma {:induction false} TokensErr(items: seq<Json>, s: Session, base: string, endpoint: Endpoint, i: nat)
    requires i < |items| && DecryptToken(items[i], s, base, endpoint).Err?
    ensures DecryptTokens(items, s, base, endpoint).Err?
  {
    hide DecryptToken;
    if i < |items| - 1 {
      TokensErr(items[..|items| - 1], s, base, endpoint, i);
    }
  }

  lemma {:induction false} TokensOk(items: seq<Json>, s: Session, base: string, endpoint: Endpoint, out: seq<Json>)
    requires |out| == |items| && forall i :: 0 <= i < |items| ==> DecryptToken(items[i], s, base, endpoint) == Ok(out[i])
    ensures DecryptTokens(items, s, base, endpoint) == Ok(out)
  {
    hide DecryptToken;
    if items != [] {
      var n := |items| - 1;
      TokensOk(items[..n], s, base, endpoint, out[..n]);
      assert out == out[..n] + [out[n]];
    }
  }

  method DecryptLogprobsTokenEntry(entry: JsonObject, ghost j: Json, s: Session, base: string, endpoint: Endpoint)
      returns (ok: bool, changed: bool)
    requires j == Obj(entry.fields)
    modifies entry
    ensures match DecryptToken(j, s, base, endpoint)
            case Ok(v) => ok && v == Obj(entry.fields) && (!changed ==> entry.fields == old(entry.fields))
            case Err => !ok
    decreases j, 1
  {
    hide DecryptTokens;
    ok, changed := DecryptMaybeEncryptedStringField(entry, "token", s, base + ".token", endpoint);
    if !ok {
      return;
    }
    var c;
    ok, c := DecryptJsonValueField(entry, "bytes", s, base + ".bytes", endpoint);
    if !ok {
      return;
    }
    changed := changed || c;
    assert TokenLeaves(old(entry.fields), s, base, endpoint) == Ok(entry.fields);
    if "top_logprobs" !in entry.fields || entry.fields["top_logprobs"].Null? {
      return;
    }
    var topRaw := entry.fields["top_logprobs"];
    assert topRaw < j;
    if !topRaw.Arr? {
      return false, false;
    }
    var top;
    ok, c, top := DecryptEntries(topRaw.items, s, base + ".top_logprobs[]", endpoint);
    assert entry.fields["top_logprobs" := topRaw] == entry.fields;
    if ok && c {
      changed := true;
      entry.fields := entry.fields["top_logprobs" := Arr(top)];
    }
  }

  /** An array of token entries. */
  method DecryptEntries(items: seq<Json>, s: Session, base: string, endpoint: Endpoint)
      returns (ok: bool, changed: bool, entries: seq<Json>)
    ensures match DecryptTokens(items, s, base, endpoint)
            case Ok(v) => ok && entries == v && (!changed ==> v == items)
            case Err => !ok
    decreases items, 0
  {
    hide DecryptToken;
    entries, changed := items, false;
    if exists i :: 0 <= i < |items| && !items[i].Obj? && !items[i].Null? {
      var i :| 0 <= i < |items| && !items[i].Obj? && !items[i].Null?;
      BadElement(items[i], s, base, endpoint);
      TokensErr(items, s, base, endpoint, i);
      return false, false, items;
    }
    for i := 0 to |items|
      invariant |entries| == |items|
      invariant forall k :: 0 <= k < i ==> DecryptToken(items[k], s, base, endpoint) == Ok(entries[k])
      invariant forall k :: i <= k < |items| ==> entries[k] == items[k]
      invariant !changed ==> entries == items
    {
      if items[i].Null? {
        NullElement(s, base, endpoint);
        continue;
      }
      var entry := new JsonObject(items[i].fields);
      var entryOk, c := DecryptLogprobsTokenEntry(entry, items[i], s, base, endpoint);
      if !entryOk {
        TokensErr(items, s, base, endpoint, i);
        return false, false, items;
      }
      entries := entries[i := Obj(entry.fields)];
      changed := changed || c;
    }
    TokensOk(items, s, base, endpoint, entries);
    ok := true;
  }

  lemma BadElement(j: Json, s: Session, base: string, endpoint: Endpoint)
    requires !j.Obj? && !j.Null?
    ensures DecryptToken(j, s, base, endpoint).Err?
  {
  }

  lemma NullElement(s: Session, base: string, endpoint: Endpoint)
    ensures DecryptToken(Null, s, base, endpoint) == Ok(Null)
  {
  }

  function DecryptEntryList(j: Json, s: Session, base: string, endpoint: Endpoint): Result<Json> {
    if !j.Arr? then Err
    else
      var r := DecryptTokens(j.items, s, base, endpoint);
      if r.Ok? then Ok(Arr(r.value)) else Err
  }

  /** Both lists of a logprobs object. */
  function DecryptLists(m: Fields, s: Session, endpoint: Endpoint): Result<Fields> {
    match AtKey(m, "content", j => DecryptEntryList(j, s, "logprobs.content[]", endpoint))
    case Err => Err
    case Ok(m') => AtKey(m', "refusal", j => DecryptEntryList(j, s, "logprobs.refusal[]", endpoint))
  }

  /** A choice with its logprobs decrypted; a logprobs value that is not an object stays. */
  function DecryptChoice(choice: Fields, s: Session, endpoint: Endpoint): Result<Fields> {
    if !Present(choice, "logprobs") || !choice["logprobs"].Obj? then Ok(choice)
    else
      match DecryptLists(choice["logprobs"].fields, s, endpoint)
      case Err => Err
      case Ok(m) => Ok(choice["logprobs" := Obj(m)])
  }

  predicate AnyLogprobsLeafEncrypted(s: Session, endpoint: Endpoint) {
    || s.policy("logprobs.content[].token", endpoint) || s.policy("logprobs.content[].bytes", endpoint)
    || s.policy("logprobs.refusal[].token", endpoint) || s.policy("logprobs.refusal[].bytes", endpoint)
  }

  method DecryptList(obj: JsonObject, key: string, s: Session, base: string, endpoint: Endpoint) returns (ok: bool, changed: bool)
    modifies obj
    ensures Rewrites(old(obj.fields), AtKey(old(obj.fields), key, j => DecryptEntryList(j, s, base, endpoint)), obj.fields, ok, changed)
  {
    if key !in obj.fields || obj.fields[key].Null? {
      return true, false;
    }
    var raw := obj.fields[key];
    assert obj.fields[key := raw] == obj.fields;
    if !raw.Arr? {
      return false, false;
    }
    var entries;
    ok, changed, entries := DecryptEntries(raw.items, s, base, endpoint);
    if ok && changed {
      obj.fields := obj.fields[key := Arr(entries)];
    }
  }

  method DecryptChoiceLogprobs(choice: JsonObject, s: Session, endpoint: Endpoint) returns (ok: bool, changed: bool)
    modifies choice
    ensures Rewrites(old(choice.fields), DecryptChoice(old(choice.fields), s, endpoint), choice.fields, ok, changed)
  {
    if "logprobs" !in choice.fields || !choice.fields["logprobs"].Obj? {
      return true, false;
    }
    var raw := choice.fields["logprobs"];
    assert choice.fields["logprobs" := raw] == choice.fields;
    var logprobs := new JsonObject(raw.fields);
    ok, changed := DecryptList(logprobs, "content", s, "logprobs.content[]", endpoint);
    if !ok {
      return;
    }
    var c;
    ok, c := DecryptList(logprobs, "refusal", s, "logprobs.refusal[]", endpoint);
    changed := changed || c;
    if ok && changed {
      choice.fields := choice.fields["logprobs" := Obj(logprobs.fields)];
    }
  }
}
