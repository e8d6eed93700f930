/** Choosing one provenance record among the transparency-log entries for a digest. */
module Rekor {
  import opened Bytes

  /** What fetching and parsing one log entry produced. */
  datatype Entry<Prov, Error> =
    | Unusable(error: Error)          // fetch, decode, PEM or certificate failure
    | RawKey(fallback: Prov)          // a bare public key
    | PlainCert(fallback: Prov)       // a certificate without an OIDC issuer
    | Fulcio(provenance: Prov)        // a certificate with an OIDC issuer

  datatype Choice<Prov, Error> = Chosen(provenance: Prov) | Failed(error: Error) | NoUsableEntry

  predicate IsFallback<P, E>(e: Entry<P, E>) {
    e.RawKey? || e.PlainCert?
  }

  ghost predicate FirstFulcio<P, E>(entries: seq<Entry<P, E>>, i: nat, p: P) {
    i < |entries| && entries[i] == Fulcio(p) && forall k :: 0 <= k < i ==> !entries[k].Fulcio?
  }

  /** The first entry with a bare key or a plain certificate. */
  ghost predicate FirstOther<P, E>(entries: seq<Entry<P, E>>, i: nat, p: P) {
    && i < |entries| && (entries[i] == RawKey(p) || entries[i] == PlainCert(p))
    && forall k :: 0 <= k < i ==> entries[k].Unusable? || entries[k].Fulcio?
  }

  /** The first Fulcio entry wins; without one the first other key; without any the last entry's error. */
  ghost predicate IsChoice<P, E>(entries: seq<Entry<P, E>>, c: Choice<P, E>) {
    match c
    case Chosen(p) =>
      || (exists i :: FirstFulcio(entries, i, p))
      || ((forall k :: 0 <= k < |entries| ==> !entries[k].Fulcio?) && exists i :: FirstOther(entries, i, p))
    case Failed(e) =>
      entries != [] && entries[|entries| - 1] == Unusable(e) && forall k :: 0 <= k < |entries| ==> entries[k].Unusable?
    case NoUsableEntry => entries == []
  }

  method SelectProvenance<P, E>(entries: seq<Entry<P, E>>) returns (c: Choice<P, E>)
    ensures c == Select(entries) && IsChoice(entries, c)
  {
    hide IsChoice;
    SelectIsChoice(entries);
    var rawKeyFallback: Option<P> := None;
    var lastErr: Option<E> := None;
    for i := 0 to |entries|
      invariant Fulcios(entries[..i]) == []
      invariant rawKeyFallback == FirstFallback(entries[..i]) && lastErr == LastError(entries[..i])
    {
      var e := entries[i];
      assert entries[..i + 1] == entries[..i] + [e];
      Extend(entries[..i], e);
      match e {
        case Unusable(error) =>
          lastErr := Some(error);
        case RawKey(f) =>
          if rawKeyFallback.None? {
            rawKeyFallback := Some(f);
          }
        case PlainCert(f) =>
          if rawKeyFallback.None? {
            rawKeyFallback := Some(f);
          }
        case Fulcio(p) =>
          assert entries == entries[..i + 1] + entries[i + 1..];
          FulciosAppend(entries[..i + 1], entries[i + 1..]);
          return Chosen(p);
      }
    }
    assert entries[..|entries|] == entries;
    if rawKeyFallback.Some? {
      return Chosen(rawKeyFallback.value);
    }
    c := if lastErr.Some? then Failed(lastErr.value) else NoUsableEntry;
  }

  function Select<P, E>(entries: seq<Entry<P, E>>): Choice<P, E> {
    if Fulcios(entries) != [] then Chosen(Fulcios(entries)[0])
    else if FirstFallback(entries).Some? then Chosen(FirstFallback(entries).value)
    else if LastError(entries).Some? then Failed(LastError(entries).value)
    else NoUsableEntry
  }

  lemma {:induction false} FirstFulcioAt<P, E>(entries: seq<Entry<P, E>>) returns (i: nat)
    ensures if Fulcios(entries) != [] then FirstFulcio(entries, i, Fulcios(entries)[0]) else forall k :: 0 <= k < |entries| ==> !entries[k].Fulcio?
  {
    i := 0;
    if entries != [] && !entries[0].Fulcio? {
      i := FirstFulcioAt(entries[1..]);
      i := i + 1;
      assert forall k :: 1 <= k < |entries| ==> entries[k] == entries[1..][k - 1];
    }
  }

  lemma {:induction false} FirstOtherAt<P, E>(entries: seq<Entry<P, E>>) returns (i: nat)
    ensures match FirstFallback(entries)
            case Some(p) => FirstOther(entries, i, p)
            case None => forall k :: 0 <= k < |entries| ==> !IsFallback(entries[k])
  {
    i := 0;
    if entries != [] && !IsFallback(entries[0]) {
      i := FirstOtherAt(entries[1..]);
      i := i + 1;
      assert forall k :: 1 <= k < |entries| ==> entries[k] == entries[1..][k - 1];
    }
  }

  lemma SelectIsChoice<P, E>(entries: seq<Entry<P, E>>)
    ensures IsChoice(entries, Select(entries))
  {
    var i := FirstFulcioAt(entries);
    var j := FirstOtherAt(entries);
    if Fulcios(entries) == [] && FirstFallback(entries).None? && entries != [] {
      assert entries[|entries| - 1].Unusable?;
    }
  }

  function Fulcios<P, E>(entries: seq<Entry<P, E>>): seq<P> {
    if entries == [] then []
    else (if entries[0].Fulcio? then [entries[0].provenance] else []) + Fulcios(entries[1..])
  }

  function FirstFallback<P, E>(entries: seq<Entry<P, E>>): Option<P> {
    if entries == [] then None
    else if IsFallback(entries[0]) then Some(entries[0].fallback)
    else FirstFallback(entries[1..])
  }

  function LastError<P, E>(entries: seq<Entry<P, E>>): Option<E> {
    if entries == [] then None
    else if entries[|entries| - 1].Unusable? then Some(entries[|entries| - 1].error)
    else LastError(entries[..|entries| - 1])
  }

  lemma {:induction false} FulciosAppend<P, E>(xs: seq<Entry<P, E>>, ys: seq<Entry<P, E>>)
    ensures Fulcios(xs + ys) == Fulcios(xs) + Fulcios(ys)
  {
    if xs == [] {
      assert xs + ys == ys;
    } else {
      var rest := xs[1..];
      assert (xs + ys)[0] == xs[0] && (xs + ys)[1..] == rest + ys;
      FulciosAppend(rest, ys);
      if xs[0].Fulcio? {
        assert [xs[0].provenance] + (Fulcios(rest) + Fulcios(ys)) == [xs[0].provenance] + Fulcios(rest) + Fulcios(ys);
      }
    }
  }

  lemma {:induction false} Extend<P, E>(xs: seq<Entry<P, E>>, e: Entry<P, E>)
    ensures Fulcios(xs + [e]) == Fulcios(xs) + if e.Fulcio? then [e.provenance] else []
    ensures FirstFallback(xs + [e]) ==
            if FirstFallback(xs).Some? then FirstFallback(xs)
            else if IsFallback(e) then Some(e.fallback) else None
    ensures LastError(xs + [e]) == if e.Unusable? then Some(e.error) else LastError(xs)
  {
    FulciosAppend(xs, [e]);
    assert Fulcios([e]) == (if e.Fulcio? then [e.provenance] else []) + Fulcios([e][1..]);
    assert (xs + [e])[..|xs|] == xs;
    FallbackExtend(xs, e);
  }

  lemma {:induction false} FallbackExtend<P, E>(xs: seq<Entry<P, E>>, e: Entry<P, E>)
    ensures FirstFallback(xs + [e]) ==
            if FirstFallback(xs).Some? then FirstFallback(xs)
            else if IsFallback(e) then Some(e.fallback) else None
  {
    if xs == [] {
      assert xs + [e] == [e];
      assert [e][1..] == [];
    } else {
      assert (xs + [e])[1..] == xs[1..] + [e];
      FallbackExtend(xs[1..], e);
    }
  }

  /**
   Front-running does not help: slipping any entries without a Fulcio certificate into the list,
   at any place, leaves the choice unchanged when the list holds a Fulcio entry.
   */
  lemma InsertionHarmless<P, E>(xs: seq<Entry<P, E>>, junk: seq<Entry<P, E>>, ys: seq<Entry<P, E>>)
    requires Fulcios(junk) == [] && Fulcios(xs + ys) != []
    ensures Select(xs + junk + ys) == Select(xs + ys)
  {
    FulciosAppend(xs + junk, ys);
    FulciosAppend(xs, junk);
    FulciosAppend(xs, ys);
  }
}
