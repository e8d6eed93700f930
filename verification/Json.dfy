/** JSON documents as trees. Text, escapes and key order are not modelled. */
module Json {
  datatype Result<+T> = Ok(value: T) | Err

  datatype Json =
    | Null
    | Bool(b: bool)
    | Int(n: int)           // a number written as an integer
    | Num(lexeme: string)   // any other number
    | Str(s: string)
    | Arr(items: seq<Json>)
    | Obj(fields: map<string, Json>)

  type Fields = map<string, Json>

  /** A parsed object that is being rewritten in place. */
  class JsonObject {
    var fields: Fields

    constructor (fields: Fields)
      ensures this.fields == fields
    {
      this.fields := fields;
    }
  }

  /** The key is present and its value is not null. */
  predicate Present(m: Fields, key: string) {
    key in m && m[key] != Null
  }

  /** Applies `f` to every element, failing if any application fails. */
  function MapAll(items: seq<Json>, f: Json -> Result<Json>): (r: Result<seq<Json>>)
    ensures r.Ok? ==> |r.value| == |items|
  {
    if items == [] then Ok([])
    else
      var rest := MapAll(items[..|items| - 1], f);
      match f(items[|items| - 1])
      case Err => Err
      case Ok(v) => if rest.Err? then Err else Ok(rest.value + [v])
  }

  lemma {:induction false} MapAllIff(items: seq<Json>, f: Json -> Result<Json>, out: seq<Json>)
    ensures MapAll(items, f) == Ok(out) <==>
            |out| == |items| && forall i :: 0 <= i < |items| ==> f(items[i]) == Ok(out[i])
  {
    if items != [] {
      var n := |items| - 1;
      if |out| == |items| {
        MapAllIff(items[..n], f, out[..n]);
        assert out == out[..n] + [out[n]];
        assert MapAll(items, f) == Ok(out) ==> MapAll(items[..n], f).value == out[..n];
        assert MapAll(items, f) == Ok(out) ==> out[n] == f(items[n]).value;
      }
    }
  }

  lemma {:induction false} MapAllErr(items: seq<Json>, f: Json -> Result<Json>)
    ensures MapAll(items, f).Err? <==> exists i :: 0 <= i < |items| && f(items[i]).Err?
  {
    if items != [] {
      var n := |items| - 1;
      MapAllErr(items[..n], f);
      if f(items[n]).Ok? && MapAll(items[..n], f).Err? {
        var i :| 0 <= i < n && f(items[..n][i]).Err?;
        assert f(items[i]).Err?;
      }
      if i :| 0 <= i < |items| && f(items[i]).Err? {
        assert i < n ==> f(items[..n][i]).Err?;
      }
    }
  }
}
