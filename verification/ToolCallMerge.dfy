/** Putting the streamed fragments of tool calls together, keyed by their index. */
module ToolCallMerge {
  import opened Json

  /** A machine integer; a JSON number outside it does not parse as one. */
  newtype int64 = x: int | -0x8000_0000_0000_0000 <= x < 0x8000_0000_0000_0000

  predicate IsInt64(n: int) {
    -0x8000_0000_0000_0000 <= n < 0x8000_0000_0000_0000
  }

  datatype ToolCall = ToolCall(id: string, kind: string, name: string, arguments: string)

  const EMPTY_CALL: ToolCall := ToolCall("", "", "", "")

  datatype CallDelta = CallDelta(index: int64, call: ToolCall)

  type Calls = map<int64, ToolCall>

  // ---------------------------------------------------------------- one fragment

  /** A string field of a typed record: absent and null read as empty. */
  function StringMember(m: Fields, key: string): Result<string> {
    if !Present(m, key) then Ok("") else if m[key].Str? then Ok(m[key].s) else Err
  }

  /** A fragment needs an integer index; its other parts may be missing. */
  function ParseDelta(j: Json): Result<CallDelta> {
    if !j.Obj? then Err
    else
      var m := j.fields;
      if !Present(m, "index") || !m["index"].Int? || !IsInt64(m["index"].n) then Err
      else if Present(m, "function") && !m["function"].Obj? then Err
      else
        var fn := if Present(m, "function") then m["function"].fields else map[];
        match (StringMember(m, "id"), StringMember(m, "type"), StringMember(fn, "name"), StringMember(fn, "arguments"))
        case (Ok(id), Ok(kind), Ok(name), Ok(arguments)) =>
          Ok(CallDelta(m["index"].n as int64, ToolCall(id, kind, name, arguments)))
        case _ => Err
  }

  /** The text at a key: that of a string, or nothing where there is no value or null. */
  ghost predicate TextIs(m: Fields, key: string, text: string) {
    if Present(m, key) then m[key] == Str(text) else text == ""
  }

  /** What the fragment says, key by key. */
  ghost predicate Says(j: Json, d: CallDelta) {
    && j.Obj? && Present(j.fields, "index") && j.fields["index"] == Int(d.index as int)
    && TextIs(j.fields, "id", d.call.id) && TextIs(j.fields, "type", d.call.kind)
    && if Present(j.fields, "function") then
         && j.fields["function"].Obj?
         && TextIs(j.fields["function"].fields, "name", d.call.name)
         && TextIs(j.fields["function"].fields, "arguments", d.call.arguments)
       else d.call.name == d.call.arguments == ""
  }

  lemma StringMemberIff(m: Fields, key: string, text: string)
    ensures StringMember(m, key) == Ok(text) <==> TextIs(m, key, text)
  {
  }

  /** A fragment parses exactly if it says something. */
  lemma ParseIff(j: Json, d: CallDelta)
    ensures ParseDelta(j) == Ok(d) <==> Says(j, d)
  {
    hide TextIs, StringMember;
    if j.Obj? {
      var fn := if Present(j.fields, "function") && j.fields["function"].Obj? then j.fields["function"].fields else map[];
      StringMemberIff(j.fields, "id", d.call.id);
      StringMemberIff(j.fields, "type", d.call.kind);
      StringMemberIff(fn, "name", d.call.name);
      StringMemberIff(fn, "arguments", d.call.arguments);
      NothingSaid("name");
      NothingSaid("arguments");
    }
  }

  lemma NothingSaid(key: string)
    ensures StringMember(map[], key) == Ok("")
  {
  }

  function Override(before: string, after: string): string {
    if after != "" then after else before
  }

  /** The accumulated call after one more fragment. */
  function Extend(tc: ToolCall, d: ToolCall): ToolCall {
    ToolCall(Override(tc.id, d.id), Override(tc.kind, d.kind), Override(tc.name, d.name), tc.arguments + d.arguments)
  }

  function CallAt(calls: Calls, index: int64): ToolCall {
    if index in calls then calls[index] else EMPTY_CALL
  }

  function Merge(calls: Calls, d: CallDelta): Calls {
    calls[d.index := Extend(CallAt(calls, d.index), d.call)]
  }

  /** Merges raw fragments in order, failing on the first that does not parse. */
  function MergeRaw(calls: Calls, raws: seq<Json>): Result<Calls>
    decreases raws
  {
    if raws == [] then Ok(calls)
    else
      match ParseDelta(raws[0])
      case Err => Err
      case Ok(d) => MergeRaw(Merge(calls, d), raws[1..])
  }

  /** The accumulator, updated in place. */
  class ToolCalls {
    var calls: Calls

    constructor ()
      ensures calls == map[]
    {
      calls := map[];
    }

    method MergeToolCallDelta(raw: Json) returns (ok: bool)
      modifies this
      ensures match ParseDelta(raw)
              case Ok(d) => ok && calls == Merge(old(calls), d)
              case Err => !ok
    {
      var d := ParseDelta(raw);
      if d.Err? {
        return false;
      }
      var index, delta := d.value.index, d.value.call;
      if index !in calls {
        calls := calls[index := EMPTY_CALL];
      }
      var tc := calls[index];
      if delta.id != "" {
        tc := tc.(id := delta.id);
      }
      if delta.kind != "" {
        tc := tc.(kind := delta.kind);
      }
      if delta.name != "" {
        tc := tc.(name := delta.name);
      }
      tc := tc.(arguments := tc.arguments + delta.arguments);
      calls := calls[index := tc];
      assert calls == Merge(old(calls), d.value);
      ok := true;
    }

    method MergeAll(raws: seq<Json>) returns (ok: bool)
      modifies this
      ensures match MergeRaw(old(calls), raws)
              case Ok(c) => ok && calls == c
              case Err => !ok
    {
      for i := 0 to |raws|
        invariant MergeRaw(old(calls), raws) == MergeRaw(calls, raws[i..])
      {
        assert raws[i..][1..] == raws[i + 1..];
        ok := MergeToolCallDelta(raws[i]);
        if !ok {
          return;
        }
      }
      ok := true;
    }
  }

  // ---------------------------------------------------------------- what merging computes

  /** The fragments themselves, when all of them parse. */
  function ParseAll(raws: seq<Json>): Result<seq<CallDelta>> {
    if raws == [] then Ok([])
    else
      match (ParseDelta(raws[0]), ParseAll(raws[1..]))
      case (Ok(d), Ok(rest)) => Ok([d] + rest)
      case _ => Err
  }

  ghost predicate SayAll(raws: seq<Json>, ds: seq<CallDelta>) {
    |raws| == |ds| && forall i :: 0 <= i < |raws| ==> Says(raws[i], ds[i])
  }

  lemma {:induction false} ParseAllIff(raws: seq<Json>, ds: seq<CallDelta>)
    ensures ParseAll(raws) == Ok(ds) <==> SayAll(raws, ds)
  {
    hide Says, ParseDelta;
    if raws != [] && ds != [] {
      ParseIff(raws[0], ds[0]);
      ParseAllIff(raws[1..], ds[1..]);
      assert ds == [ds[0]] + ds[1..];
      assert raws == [raws[0]] + raws[1..];
    }
  }

  /** The fragments of one call, in order. */
  function ForIndex(ds: seq<CallDelta>, index: int64): seq<ToolCall> {
    if ds == [] then []
    else (if ds[0].index == index then [ds[0].call] else []) + ForIndex(ds[1..], index)
  }

  /** `r` is the last nonempty text, or `start` if all are empty. */
  ghost predicate IsLastNonempty(start: string, texts: seq<string>, r: string) {
    || (r == start && forall i :: 0 <= i < |texts| ==> texts[i] == "")
    || exists i :: 0 <= i < |texts| && texts[i] == r && r != "" && forall k :: i < k < |texts| ==> texts[k] == ""
  }

  function Joined(texts: seq<string>): string {
    if texts == [] then "" else texts[0] + Joined(texts[1..])
  }

  function Ids(ds: seq<ToolCall>): seq<string> {
    seq(|ds|, i requires 0 <= i < |ds| => ds[i].id)
  }

  function Kinds(ds: seq<ToolCall>): seq<string> {
    seq(|ds|, i requires 0 <= i < |ds| => ds[i].kind)
  }

  function Names(ds: seq<ToolCall>): seq<string> {
    seq(|ds|, i requires 0 <= i < |ds| => ds[i].name)
  }

  function Arguments(ds: seq<ToolCall>): seq<string> {
    seq(|ds|, i requires 0 <= i < |ds| => ds[i].arguments)
  }

  /** The finished call: last nonempty id, type and name; arguments in order. */
  ghost predicate Assembled(start: ToolCall, ds: seq<ToolCall>, r: ToolCall) {
    && IsLastNonempty(start.id, Ids(ds), r.id)
    && IsLastNonempty(start.kind, Kinds(ds), r.kind)
    && IsLastNonempty(start.name, Names(ds), r.name)
    && r.arguments == start.arguments + Joined(Arguments(ds))
  }

  lemma LastNonemptyStep(start: string, texts: seq<string>, r: string)
    requires texts != [] && IsLastNonempty(Override(start, texts[0]), texts[1..], r)
    ensures IsLastNonempty(start, texts, r)
  {
    var rest := texts[1..];
    if r == Override(start, texts[0]) && forall i :: 0 <= i < |rest| ==> rest[i] == "" {
      forall k | 1 <= k < |texts|
        ensures texts[k] == ""
      {
        assert texts[k] == rest[k - 1];
      }
      if texts[0] != "" {
        assert texts[0] == r;
      }
    } else {
      var i :| 0 <= i < |rest| && rest[i] == r && r != "" && forall k :: i < k < |rest| ==> rest[k] == "";
      forall k | i + 1 < k < |texts|
        ensures texts[k] == ""
      {
        assert texts[k] == rest[k - 1];
      }
      assert texts[i + 1] == r;
    }
  }

  lemma PartsTail(ds: seq<ToolCall>)
    requires ds != []
    ensures Ids(ds)[1..] == Ids(ds[1..]) && Kinds(ds)[1..] == Kinds(ds[1..])
    ensures Names(ds)[1..] == Names(ds[1..]) && Arguments(ds)[1..] == Arguments(ds[1..])
  {
  }

  /** One more fragment in front. */
  lemma AssembledStep(start: ToolCall, ds: seq<ToolCall>, r: ToolCall)
    requires ds != [] && Assembled(Extend(start, ds[0]), ds[1..], r)
    ensures Assembled(start, ds, r)
  {
    PartsTail(ds);
    LastNonemptyStep(start.id, Ids(ds), r.id);
    LastNonemptyStep(start.kind, Kinds(ds), r.kind);
    LastNonemptyStep(start.name, Names(ds), r.name);
  }

  lemma NothingAssembled(start: ToolCall)
    ensures Assembled(start, [], start)
  {
  }

  /**
   However fragments of different calls interleave, each call is assembled from its own
   fragments in their order, and no other call appears.
   */
  lemma {:induction false} MergeAssembles(calls: Calls, raws: seq<Json>, ds: seq<CallDelta>, index: int64)
    requires ParseAll(raws) == Ok(ds)
    ensures MergeRaw(calls, raws).Ok?
    ensures var out := MergeRaw(calls, raws).value;
            && (index in out <==> index in calls || ForIndex(ds, index) != [])
            && (index in out ==> Assembled(CallAt(calls, index), ForIndex(ds, index), out[index]))
    decreases raws
  {
    if raws == [] {
      NothingAssembled(CallAt(calls, index));
    } else {
      var d := ds[0];
      assert ds[1..] == ParseAll(raws[1..]).value;
      var next := Merge(calls, d);
      MergeAssembles(next, raws[1..], ds[1..], index);
      var out := MergeRaw(calls, raws).value;
      assert CallAt(next, index) == if d.index == index then Extend(CallAt(calls, index), d.call) else CallAt(calls, index);
      if d.index != index {
        assert ForIndex(ds, index) == ForIndex(ds[1..], index);
      } else if index in out {
        assert ForIndex(ds, index)[1..] == ForIndex(ds[1..], index);
        AssembledStep(CallAt(calls, index), ForIndex(ds, index), out[index]);
      }
    }
  }

  /** Merging succeeds exactly when every fragment parses. */
  lemma {:induction false} MergeIff(calls: Calls, raws: seq<Json>)
    ensures MergeRaw(calls, raws).Ok? <==> ParseAll(raws).Ok?
    decreases raws
  {
    if raws != [] && ParseDelta(raws[0]).Ok? {
      MergeIff(Merge(calls, ParseDelta(raws[0]).value), raws[1..]);
    }
  }

  lemma LastNonemptyUnique(start: string, texts: seq<string>, a: string, b: string)
    requires IsLastNonempty(start, texts, a) && IsLastNonempty(start, texts, b)
    ensures a == b
  {
  }

  lemma AssembledUnique(start: ToolCall, ds: seq<ToolCall>, a: ToolCall, b: ToolCall)
    requires Assembled(start, ds, a) && Assembled(start, ds, b)
    ensures a == b
  {
    LastNonemptyUnique(start.id, Ids(ds), a.id, b.id);
    LastNonemptyUnique(start.kind, Kinds(ds), a.kind, b.kind);
    LastNonemptyUnique(start.name, Names(ds), a.name, b.name);
  }

  /** Two streams with the same fragments per index merge to the same calls. */
  lemma InterleavingIrrelevant(a: seq<Json>, b: seq<Json>, ds: seq<CallDelta>, es: seq<CallDelta>)
    requires ParseAll(a) == Ok(ds) && ParseAll(b) == Ok(es)
    requires forall index :: ForIndex(ds, index) == ForIndex(es, index)
    ensures MergeRaw(map[], a) == MergeRaw(map[], b)
  {
    MergeIff(map[], a);
    MergeIff(map[], b);
    var x, y := MergeRaw(map[], a).value, MergeRaw(map[], b).value;
    forall index: int64
      ensures index in x <==> index in y
      ensures index in x ==> x[index] == y[index]
    {
      MergeAssembles(map[], a, ds, index);
      MergeAssembles(map[], b, es, index);
      if index in x {
        AssembledUnique(EMPTY_CALL, ForIndex(ds, index), x[index], y[index]);
      }
    }
    assert x == y;
  }

  lemma {:induction false} MergeAppend(calls: Calls, a: seq<Json>, b: seq<Json>)
    ensures MergeRaw(calls, a + b) == match MergeRaw(calls, a) case Err => Err case Ok(c) => MergeRaw(c, b)
    decreases a
  {
    if a == [] {
      assert a + b == b;
    } else {
      assert (a + b)[1..] == a[1..] + b;
      if ParseDelta(a[0]).Ok? {
        MergeAppend(Merge(calls, ParseDelta(a[0]).value), a[1..], b);
      }
    }
  }

  // ---------------------------------------------------------------- in order of index

  predicate Ascending(s: seq<int64>) {
    forall i, k :: 0 <= i < k < |s| ==> s[i] < s[k]
  }

  /** `s` lists each element of `keys` exactly once, in ascending order. */
  ghost predicate Lists(s: seq<int64>, keys: set<int64>) {
    Ascending(s) && forall k :: k in s <==> k in keys
  }

  method SmallestIndex(keys: set<int64>) returns (m: int64)
    requires keys != {}
    ensures m in keys && forall k <- keys :: m <= k
  {
    m :| m in keys;
    var todo := keys - {m};
    while todo != {}
      invariant todo <= keys && m in keys
      invariant forall k <- keys :: k in todo || m <= k
      decreases todo
    {
      var k :| k in todo;
      if k < m {
        m := k;
      }
      todo := todo - {k};
    }
  }

  /** The calls in strictly ascending order of index: each exactly once. */
  method SortedToolCalls(calls: Calls) returns (indices: seq<int64>, sorted: seq<ToolCall>)
    ensures Lists(indices, calls.Keys)
    ensures |sorted| == |indices| && forall i :: 0 <= i < |indices| ==> sorted[i] == CallAt(calls, indices[i])
  {
    indices, sorted := [], [];
    var todo := calls.Keys;
    while todo != {}
      invariant todo <= calls.Keys && Ascending(indices)
      invariant forall i <- indices :: i in calls.Keys && i !in todo
      invariant forall i, k :: i in indices && k in todo ==> i < k
      invariant forall k <- calls.Keys :: k in todo || k in indices
      invariant |sorted| == |indices| && forall i :: 0 <= i < |indices| ==> sorted[i] == CallAt(calls, indices[i])
      decreases todo
    {
      var m := SmallestIndex(todo);
      assert forall i :: 0 <= i < |indices| ==> indices[i] in indices;
      indices, sorted := indices + [m], sorted + [calls[m]];
      todo := todo - {m};
    }
  }

  /** There is only one such order. */
  lemma {:induction false} ListsUnique(a: seq<int64>, b: seq<int64>, keys: set<int64>)
    requires Lists(a, keys) && Lists(b, keys)
    ensures a == b
    decreases |a|
  {
    assert b != [] ==> b[0] in b;
    if a == [] {
      assert b == [];
    } else {
      var n, m := |a| - 1, |b| - 1;
      assert a[n] in a;
      assert b[m] in b;
      var i :| 0 <= i < |b| && b[i] == a[n];
      var k :| 0 <= k < |a| && a[k] == b[m];
      assert a[n] == b[m];
      DropLast(a, keys);
      DropLast(b, keys);
      ListsUnique(a[..n], b[..m], keys - {a[n]});
      assert a == a[..n] + [a[n]] && b == b[..m] + [b[m]];
    }
  }

  lemma DropLast(a: seq<int64>, keys: set<int64>)
    requires a != [] && Lists(a, keys)
    ensures Lists(a[..|a| - 1], keys - {a[|a| - 1]})
  {
    var n := |a| - 1;
    assert a[n] in a;
    forall x | x in a && x != a[n]
      ensures x in a[..n]
    {
      var k :| 0 <= k < |a| && a[k] == x;
      assert a[..n][k] == x;
    }
  }
}
