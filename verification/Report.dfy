/**
 Verification reports: how evaluated factors become an enforced report, what blocks a request,
 and how the end-to-end factor is updated after live traffic.
 */
module Report {
  datatype Status = Pass | Fail | Skip | NotApplicable

  datatype Factor = Factor(name: string, status: Status, detail: string, enforced: bool, deferred: bool)

  const REPORT_DATA: string := "tee_reportdata_binding"
  const E2EE_USABLE: string := "e2ee_usable"

  datatype Counters = Counters(passed: nat, failed: nat, skipped: nat,
                               enforcedFailed: nat, allowedFailed: nat, notApplicable: nat)

  const ZERO: Counters := Counters(0, 0, 0, 0, 0, 0)

  function Tally(c: Counters, f: Factor): Counters {
    match f.status
    case Pass => c.(passed := c.passed + 1)
    case Fail =>
      if f.enforced then c.(failed := c.failed + 1, enforcedFailed := c.enforcedFailed + 1)
      else c.(failed := c.failed + 1, allowedFailed := c.allowedFailed + 1)
    case Skip => c.(skipped := c.skipped + 1)
    case NotApplicable => c.(notApplicable := c.notApplicable + 1)
  }

  function Count(factors: seq<Factor>): Counters {
    if factors == [] then ZERO else Tally(Count(factors[..|factors| - 1]), factors[|factors| - 1])
  }

  method CountFactors(factors: seq<Factor>) returns (c: Counters)
    ensures c == Count(factors)
  {
    c := ZERO;
    for i := 0 to |factors|
      invariant c == Count(factors[..i])
    {
      assert factors[..i + 1][..i] == factors[..i];
      c := Tally(c, factors[i]);
    }
    assert factors[..|factors|] == factors;
  }

  /** Every factor is counted exactly once. */
  lemma {:induction false} CountTotal(factors: seq<Factor>)
    ensures var c := Count(factors);
            c.passed + c.failed + c.skipped + c.notApplicable == |factors| && c.failed == c.enforcedFailed + c.allowedFailed
  {
    if factors != [] {
      CountTotal(factors[..|factors| - 1]);
    }
  }

  /** The statuses of the factors, each with whether it is enforced. */
  ghost function Statuses(factors: seq<Factor>): multiset<(Status, bool)> {
    multiset(seq(|factors|, i requires 0 <= i < |factors| => (factors[i].status, factors[i].enforced)))
  }

  lemma OneMoreStatus(init: seq<Factor>, f: Factor)
    ensures Statuses(init + [f]) == Statuses(init) + multiset{(f.status, f.enforced)}
  {
    var before := seq(|init|, i requires 0 <= i < |init| => (init[i].status, init[i].enforced));
    var all := seq(|init| + 1, i requires 0 <= i < |init| + 1 => ((init + [f])[i].status, (init + [f])[i].enforced));
    assert all == before + [(f.status, f.enforced)];
  }

  /** Every counter is the number of factors it is named for. */
  ghost predicate CountsOf(c: Counters, m: multiset<(Status, bool)>) {
    && c.passed == m[(Pass, true)] + m[(Pass, false)] && c.skipped == m[(Skip, true)] + m[(Skip, false)]
    && c.notApplicable == m[(NotApplicable, true)] + m[(NotApplicable, false)]
    && c.failed == m[(Fail, true)] + m[(Fail, false)] && c.enforcedFailed == m[(Fail, true)] && c.allowedFailed == m[(Fail, false)]
  }

  lemma TallyCounts(c: Counters, m: multiset<(Status, bool)>, f: Factor)
    requires CountsOf(c, m)
    ensures CountsOf(Tally(c, f), m + multiset{(f.status, f.enforced)})
  {
    var m' := m + multiset{(f.status, f.enforced)};
    assert forall x :: m'[x] == m[x] + if x == (f.status, f.enforced) then 1 else 0;
  }

  lemma {:induction false} CountedBy(factors: seq<Factor>)
    ensures CountsOf(Count(factors), Statuses(factors))
  {
    if factors != [] {
      var init, last := factors[..|factors| - 1], factors[|factors| - 1];
      hide CountsOf, Statuses;
      CountedBy(init);
      OneMoreStatus(init, last);
      TallyCounts(Count(init), Statuses(init), last);
      assert factors == init + [last];
    }
  }

  /** The enforced-failure count is positive exactly for blocked reports. */
  lemma {:induction false} BlockedCount(factors: seq<Factor>)
    ensures Count(factors).enforcedFailed > 0 <==> Blocked(factors)
  {
    if factors != [] {
      var init, last := factors[..|factors| - 1], factors[|factors| - 1];
      BlockedCount(init);
      assert factors == init + [last];
    }
  }

  // ---------------------------------------------------------------- building a report

  /** What becomes of one evaluated factor. */
  function Settle(f: Factor, allowFail: set<string>, inapplicable: map<string, string>): Factor {
    var enforced := f.(enforced := f.name !in allowFail);
    var overridden := if f.name in inapplicable then enforced.(status := NotApplicable, detail := inapplicable[f.name]) else enforced;
    if overridden.status == Skip && overridden.enforced && !overridden.deferred
    then overridden.(status := Fail, detail := overridden.detail + " (enforced)")
    else overridden
  }

  function SettleAll(evaluated: seq<Factor>, allowFail: set<string>, inapplicable: map<string, string>): seq<Factor> {
    seq(|evaluated|, i requires 0 <= i < |evaluated| => Settle(evaluated[i], allowFail, inapplicable))
  }

  /** Some enforced factor has failed. */
  predicate Blocked(factors: seq<Factor>) {
    exists f <- factors :: f.status == Fail && f.enforced
  }

  function AsSet(names: seq<string>): set<string> {
    set n <- names
  }

  /** An evaluated factor that stops requests under this policy. */
  predicate Blocks(f: Factor, allowFail: set<string>, inapplicable: map<string, string>) {
    && f.name !in inapplicable && f.name !in allowFail
    && (f.status == Fail || (f.status == Skip && !f.deferred))
  }

  /** A built report is blocked exactly when an applicable, non-allowed factor failed or was skipped for good. */
  lemma BlockedIff(evaluated: seq<Factor>, allowFail: set<string>, inapplicable: map<string, string>)
    ensures Blocked(SettleAll(evaluated, allowFail, inapplicable)) <==>
            exists f <- evaluated :: Blocks(f, allowFail, inapplicable)
  {
    var built := SettleAll(evaluated, allowFail, inapplicable);
    if f :| f in evaluated && Blocks(f, allowFail, inapplicable) {
      var i :| 0 <= i < |evaluated| && evaluated[i] == f;
      assert built[i] in built && built[i].status == Fail && built[i].enforced;
    }
    if g :| g in built && g.status == Fail && g.enforced {
      var i :| 0 <= i < |built| && built[i] == g;
      assert Blocks(evaluated[i], allowFail, inapplicable);
      assert evaluated[i] in evaluated;
    }
  }

  /** Allowing more factors to fail never blocks a report that was not blocked before. */
  lemma AllowingMoreNeverBlocks(evaluated: seq<Factor>, less: set<string>, more: set<string>, inapplicable: map<string, string>)
    requires less <= more && Blocked(SettleAll(evaluated, more, inapplicable))
    ensures Blocked(SettleAll(evaluated, less, inapplicable))
  {
    BlockedIff(evaluated, more, inapplicable);
    BlockedIff(evaluated, less, inapplicable);
    var f :| f in evaluated && Blocks(f, more, inapplicable);
    assert Blocks(f, less, inapplicable);
  }

  /** What building a report makes of one factor: it is judged by the policy, and otherwise as it was evaluated. */
  lemma SettledFactor(f: Factor, allowFail: set<string>, inapplicable: map<string, string>)
    ensures var g := Settle(f, allowFail, inapplicable);
            && g.name == f.name && g.deferred == f.deferred && (g.enforced <==> f.name !in allowFail)
            && (g.status == NotApplicable <==> f.name in inapplicable || f.status == NotApplicable)
            && (g.status == Pass <==> f.name !in inapplicable && f.status == Pass)
            && (g.status == Fail && g.enforced <==> Blocks(f, allowFail, inapplicable))
            && (g.status == Skip <==> f.name !in inapplicable && f.status == Skip && (f.name in allowFail || f.deferred))
            && g.detail == (if f.name in inapplicable then inapplicable[f.name]
                            else if f.status == Skip && g.status == Fail then f.detail + " (enforced)" else f.detail)
  {
  }

  lemma AsSetAppend(names: seq<string>, n: string)
    ensures AsSet(names + [n]) == AsSet(names) + {n}
  {
  }

  /** The allow list for offline mode: the given list, then the online factors it lacks. */
  method WithOfflineAllowFail(allowFail: seq<string>, onlineFactors: seq<string>) returns (merged: seq<string>)
    ensures AsSet(merged) == AsSet(allowFail) + AsSet(onlineFactors) && allowFail <= merged
  {
    var have := AsSet(allowFail);
    merged := allowFail;
    for i := 0 to |onlineFactors|
      invariant allowFail <= merged && AsSet(merged) == AsSet(allowFail) + AsSet(onlineFactors[..i])
    {
      AsSetAppend(merged, onlineFactors[i]);
      AsSetAppend(onlineFactors[..i], onlineFactors[i]);
      if onlineFactors[i] !in have {
        merged := merged + [onlineFactors[i]];
      }
      assert onlineFactors[..i + 1] == onlineFactors[..i] + [onlineFactors[i]];
    }
    assert onlineFactors[..|onlineFactors|] == onlineFactors;
  }

  /** Going offline never introduces a block. */
  lemma OfflineNeverBlocks(evaluated: seq<Factor>, allowFail: seq<string>, online: seq<string>, inapplicable: map<string, string>)
    requires Blocked(SettleAll(evaluated, AsSet(allowFail) + AsSet(online), inapplicable))
    ensures Blocked(SettleAll(evaluated, AsSet(allowFail), inapplicable))
  {
    AllowingMoreNeverBlocks(evaluated, AsSet(allowFail), AsSet(allowFail) + AsSet(online), inapplicable);
  }

  // ---------------------------------------------------------------- REPORTDATA binding

  /** One kind of TEE quote: absent, unparseable, or parsed with the outcome of the binding check. */
  datatype Quote = Absent | Unparseable | Parsed(bindingFailed: bool, bindingDetail: string)

  function EvalReportData(tdx: Quote, sev: Quote, signingKey: string): Factor {
    if tdx.Parsed? then Factor(REPORT_DATA, BindingStatus(tdx, signingKey), tdx.bindingDetail, false, false)
    else if sev.Parsed? then Factor(REPORT_DATA, BindingStatus(sev, signingKey), sev.bindingDetail, false, false)
    else Factor(REPORT_DATA, Fail, "no parseable TEE quote/report", false, false)
  }

  function BindingStatus(q: Quote, signingKey: string): Status
    requires q.Parsed?
  {
    if signingKey == "" then Fail
    else if q.bindingFailed then Fail
    else if q.bindingDetail != "" then Pass
    else Fail
  }

  /** The first factor with this name, as the report's accessors find it. */
  function StatusOf(factors: seq<Factor>, name: string): (s: Status)
  {
    if factors == [] then NotApplicable
    else if factors[0].name == name then factors[0].status
    else StatusOf(factors[1..], name)
  }

  predicate Has(factors: seq<Factor>, name: string) {
    exists f <- factors :: f.name == name
  }

  predicate BindingPassed(factors: seq<Factor>) {
    StatusOf(factors, REPORT_DATA) == Pass
  }

  method ReportDataBindingPassed(factors: seq<Factor>) returns (passed: bool)
    ensures passed == BindingPassed(factors)
  {
    for i := 0 to |factors|
      invariant StatusOf(factors, REPORT_DATA) == StatusOf(factors[i..], REPORT_DATA)
    {
      assert factors[i..][1..] == factors[i + 1..];
      if factors[i].name == REPORT_DATA {
        return factors[i].status == Pass;
      }
    }
    passed := false;
  }

  lemma {:induction false} SettledStatus(evaluated: seq<Factor>, allowFail: set<string>, inapplicable: map<string, string>, name: string)
    ensures (StatusOf(SettleAll(evaluated, allowFail, inapplicable), name) == Pass) <==>
            (name !in inapplicable && StatusOf(evaluated, name) == Pass)
  {
    if evaluated != [] {
      var built := SettleAll(evaluated, allowFail, inapplicable);
      assert built[1..] == SettleAll(evaluated[1..], allowFail, inapplicable);
      SettledStatus(evaluated[1..], allowFail, inapplicable, name);
    }
  }

  /**
   A built report says the binding passed exactly when there is a signing key and the check of
   the quote the report relied on, the TDX quote if it parsed, succeeded against that key.
   */
  lemma BindingPassedIff(before: seq<Factor>, after: seq<Factor>, tdx: Quote, sev: Quote, signingKey: string,
                         allowFail: set<string>, inapplicable: map<string, string>)
    requires !Has(before, REPORT_DATA) && REPORT_DATA !in inapplicable
    ensures BindingPassed(SettleAll(before + [EvalReportData(tdx, sev, signingKey)] + after, allowFail, inapplicable)) <==>
            && signingKey != ""
            && var q := if tdx.Parsed? then tdx else sev; q.Parsed? && !q.bindingFailed && q.bindingDetail != ""
  {
    var f := EvalReportData(tdx, sev, signingKey);
    SettledStatus(before + [f] + after, allowFail, inapplicable, REPORT_DATA);
    StatusSkips(before, [f] + after, REPORT_DATA);
    assert before + [f] + after == before + ([f] + after);
  }

  lemma {:induction false} StatusSkips(before: seq<Factor>, rest: seq<Factor>, name: string)
    requires !Has(before, name)
    ensures StatusOf(before + rest, name) == StatusOf(rest, name)
  {
    if before == [] {
      assert before + rest == rest;
    } else {
      assert (before + rest)[1..] == before[1..] + rest;
      assert before[0] in before;
      StatusSkips(before[1..], rest, name);
    }
  }

  // ---------------------------------------------------------------- marks after live traffic

  datatype Mark = Usable | Failed

  function MarkedStatus(s: Status, mark: Mark): Status {
    match mark
    case Usable => if s == Skip then Pass else s
    case Failed => Fail
  }

  /** The factors after a mark: only the first e2ee_usable factor can change. */
  function Marked(factors: seq<Factor>, mark: Mark, detail: string): (r: seq<Factor>)
    ensures |r| == |factors|
  {
    if factors == [] then []
    else if factors[0].name != E2EE_USABLE then [factors[0]] + Marked(factors[1..], mark, detail)
    else
      var s := MarkedStatus(factors[0].status, mark);
      if s == factors[0].status then factors
      else factors[0 := factors[0].(status := s, detail := detail)]
  }

  lemma {:induction false} MarkedAt(factors: seq<Factor>, i: nat, mark: Mark, detail: string)
    requires i < |factors| && factors[i].name == E2EE_USABLE
    requires forall k :: 0 <= k < i ==> factors[k].name != E2EE_USABLE
    ensures var s := MarkedStatus(factors[i].status, mark);
            Marked(factors, mark, detail) ==
            if s == factors[i].status then factors else factors[i := factors[i].(status := s, detail := detail)]
  {
    if i > 0 {
      MarkedAt(factors[1..], i - 1, mark, detail);
      assert factors == [factors[0]] + factors[1..];
    }
  }

  lemma {:induction false} MarkedAbsent(factors: seq<Factor>, mark: Mark, detail: string)
    requires forall f <- factors :: f.name != E2EE_USABLE
    ensures Marked(factors, mark, detail) == factors
  {
    if factors != [] {
      MarkedAbsent(factors[1..], mark, detail);
    }
  }

  lemma {:induction false} MarkedStatusOf(factors: seq<Factor>, mark: Mark, detail: string, name: string)
    ensures StatusOf(Marked(factors, mark, detail), name) ==
            if name == E2EE_USABLE && Has(factors, name) then
              if mark.Failed? then Fail else if StatusOf(factors, name) == Skip then Pass else StatusOf(factors, name)
            else StatusOf(factors, name)
  {
    if factors != [] {
      var m := Marked(factors, mark, detail);
      MarkedStatusOf(factors[1..], mark, detail, name);
      assert factors[0] in factors;
      assert Has(factors[1..], name) ==> Has(factors, name);
      if factors[0].name != E2EE_USABLE {
        assert m[1..] == Marked(factors[1..], mark, detail);
        assert Has(factors, name) && factors[0].name != name ==> Has(factors[1..], name);
      } else {
        assert m[1..] == factors[1..];
      }
    }
  }

  /** A success mark changes neither whether the report blocks nor whether its binding passed. */
  lemma {:induction false} UsableKeepsVerdict(factors: seq<Factor>, detail: string)
    ensures Blocked(Marked(factors, Usable, detail)) <==> Blocked(factors)
    ensures BindingPassed(Marked(factors, Usable, detail)) <==> BindingPassed(factors)
  {
    MarkedStatusOf(factors, Usable, detail, REPORT_DATA);
    UsableKeepsBlocked(factors, detail);
  }

  lemma {:induction false} UsableKeepsBlocked(factors: seq<Factor>, detail: string)
    ensures Blocked(Marked(factors, Usable, detail)) <==> Blocked(factors)
  {
    if factors != [] {
      var m := Marked(factors, Usable, detail);
      assert factors == [factors[0]] + factors[1..] && m == [m[0]] + m[1..];
      if factors[0].name != E2EE_USABLE {
        UsableKeepsBlocked(factors[1..], detail);
        assert m[1..] == Marked(factors[1..], Usable, detail);
      } else {
        assert m[1..] == factors[1..];
      }
    }
  }

  function MarkedAll(factors: seq<Factor>, marks: seq<(Mark, string)>): seq<Factor>
    decreases |marks|
  {
    if marks == [] then factors else MarkedAll(Marked(factors, marks[0].0, marks[0].1), marks[1..])
  }

  /** Once the end-to-end factor has failed, no later sequence of marks makes it pass. */
  lemma {:induction false} FailureSticks(factors: seq<Factor>, marks: seq<(Mark, string)>)
    requires StatusOf(factors, E2EE_USABLE) == Fail
    ensures StatusOf(MarkedAll(factors, marks), E2EE_USABLE) == Fail
    decreases |marks|
  {
    if marks != [] {
      MarkedStatusOf(factors, marks[0].0, marks[0].1, E2EE_USABLE);
      FailureSticks(Marked(factors, marks[0].0, marks[0].1), marks[1..]);
    }
  }

  /** A report in memory, with the counters shown to users. */
  class VerificationReport {
    var factors: seq<Factor>
    var counters: Counters

    ghost predicate Valid()
      reads this
    {
      counters == Count(factors)
    }

    /** BuildReport: enforce, override, promote and count. */
    constructor (evaluated: seq<Factor>, allowFail: seq<string>, inapplicable: map<string, string>)
      ensures Valid() && factors == SettleAll(evaluated, AsSet(allowFail), inapplicable)
    {
      var allowed := AsSet(allowFail);
      var settled: seq<Factor> := [];
      for i := 0 to |evaluated|
        invariant |settled| == i
        invariant forall k :: 0 <= k < i ==> settled[k] == evaluated[k].(enforced := evaluated[k].name !in allowed)
      {
        settled := settled + [evaluated[i].(enforced := evaluated[i].name !in allowed)];
      }
      ghost var first := settled;
      for i := 0 to |settled|
        invariant |settled| == |evaluated|
        invariant forall k :: 0 <= k < |settled| ==>
          settled[k] == if k < i && first[k].name in inapplicable
                        then first[k].(status := NotApplicable, detail := inapplicable[first[k].name]) else first[k]
      {
        if settled[i].name in inapplicable {
          settled := settled[i := settled[i].(status := NotApplicable, detail := inapplicable[settled[i].name])];
        }
      }
      ghost var second := settled;
      for i := 0 to |settled|
        invariant |settled| == |evaluated|
        invariant forall k :: 0 <= k < i ==> settled[k] == Settle(evaluated[k], allowed, inapplicable)
        invariant forall k :: i <= k < |settled| ==> settled[k] == second[k]
      {
        if settled[i].status == Skip && settled[i].enforced && !settled[i].deferred {
          settled := settled[i := settled[i].(status := Fail, detail := settled[i].detail + " (enforced)")];
        }
      }
      var c := CountFactors(settled);
      factors, counters := settled, c;
    }

    method IsBlocked() returns (blocked: bool)
      ensures blocked == Blocked(factors)
    {
      for i := 0 to |factors|
        invariant !Blocked(factors[..i])
      {
        if factors[i].status == Fail && factors[i].enforced {
          assert factors[i] in factors;
          return true;
        }
        assert factors[..i + 1] == factors[..i] + [factors[i]];
      }
      assert factors[..|factors|] == factors;
      blocked := false;
    }

    method MarkE2eeUsable(detail: string)
      requires Valid()
      modifies this
      ensures Valid() && factors == Marked(old(factors), Usable, detail)
    {
      MarkFirst(Usable, detail);
    }

    method MarkE2eeFailed(detail: string)
      requires Valid()
      modifies this
      ensures Valid() && factors == Marked(old(factors), Failed, detail)
    {
      MarkFirst(Failed, detail);
    }

    /** The loop both marks share: find the factor, change it if needed, recount. */
    method MarkFirst(mark: Mark, detail: string)
      requires Valid()
      modifies this
      ensures Valid() && factors == Marked(old(factors), mark, detail)
    {
      for i := 0 to |factors|
        invariant factors == old(factors) && Valid()
        invariant forall k :: 0 <= k < i ==> factors[k].name != E2EE_USABLE
      {
        if factors[i].name == E2EE_USABLE {
          MarkedAt(factors, i, mark, detail);
          var s := MarkedStatus(factors[i].status, mark);
          if s != factors[i].status {
            factors := factors[i := factors[i].(status := s, detail := detail)];
            RecomputeCounters();
          }
          return;
        }
      }
      MarkedAbsent(factors, mark, detail);
    }

    method RecomputeCounters()
      modifies this`counters
      ensures Valid()
    {
      counters := CountFactors(factors);
    }
  }
}
