/**
  The static budget analysis of experiments, against every execution of a step tree.

  Amounts are exact: dollars and micro-dollars are reals where the source has floats.
  The semantics is small-step and nondeterministic, and admits more than the executor
  does: any interleaving of parallel branches, any outcome of any step, cuts at any
  instant, and agents that spend in any instalments within their own authored slice.
 */
module Budget {
  import opened Prelude
  import opened Decimal
  import opened Reals

  // ----- step trees and their traversal -----

  datatype Hook = OnSuccess | OnFailure | OnAbort | OnError | Ensure

  datatype Step =
    | Agent(sliceUSD: real)
    | PublishSnapshot
    | Plain                                    // every other base step
    | Try(step: Step)
    | Timeout(step: Step)
    | Do(steps: seq<Step>)
    | InParallel(steps: seq<Step>, limit: int, failFast: bool)
    | Across(step: Step)
    | Retry(step: Step)
    | Hooked(hook: Hook, step: Step, after: Step)

  /** What a recursor's callbacks see, in the order they see it. */
  datatype Visit = OnAgent(sliceUSD: real) | OnPublish | OnAcross | OnRetry

  function Visits(s: Step): seq<Visit> {
    match s
    case Agent(slice) => [OnAgent(slice)]
    case PublishSnapshot => [OnPublish]
    case Plain => []
    case Try(step) => Visits(step)
    case Timeout(step) => Visits(step)
    case Do(steps) => VisitsAll(steps)
    case InParallel(steps, _, _) => VisitsAll(steps)
    case Across(step) => [OnAcross] + Visits(step)
    case Retry(step) => [OnRetry] + Visits(step)
    case Hooked(_, step, after) => Visits(step) + Visits(after)
  }

  function VisitsAll(steps: seq<Step>): seq<Visit> {
    if steps == [] then [] else VisitsAll(steps[..|steps| - 1]) + Visits(steps[|steps| - 1])
  }

  lemma {:induction false} VisitsFirst(steps: seq<Step>)
    requires steps != []
    ensures VisitsAll(steps) == Visits(steps[0]) + VisitsAll(steps[1..])
  {
    if |steps| > 1 {
      VisitsFirst(steps[..|steps| - 1]);
      assert steps[..|steps| - 1][1..] == steps[1..][..|steps| - 2];
    }
  }

  lemma {:induction false} VisitsConcat(a: seq<Step>, b: seq<Step>)
    ensures VisitsAll(a + b) == VisitsAll(a) + VisitsAll(b)
  {
    if b == [] {
      assert a + b == a;
    } else {
      var front, last := b[..|b| - 1], b[|b| - 1];
      VisitsConcat(a, front);
      assert (a + b)[..|a + b| - 1] == a + front && (a + b)[|a + b| - 1] == last;
      assert VisitsAll(a) + VisitsAll(front) + Visits(last) == VisitsAll(a) + (VisitsAll(front) + Visits(last));
    }
  }

  // ----- slices and their sums -----

  const MICRO: real := 1000000.0

  const TOLERANCE: real := 0.0000001

  /** Rounding half away from zero, of a nonnegative amount. */
  function Round(x: real): int { (x + 0.5).Floor }

  function Exact(sliceUSD: real): real { sliceUSD * MICRO }

  function Counted(sliceUSD: real): real { Round(Exact(sliceUSD)) as real }

  predicate SixDecimals(usd: real) { Abs(Exact(usd) - Round(Exact(usd)) as real) <= TOLERANCE }

  /** A slice the analysis accepts: positive, six decimals up to the tolerance, and in range. */
  predicate ValidSlice(sliceUSD: real) {
    sliceUSD > 0.0 && SixDecimals(sliceUSD) && 0 < Round(Exact(sliceUSD)) <= MAX_INT64
  }

  /** A sum over the agents visited. */
  function Sum(vs: seq<Visit>, f: real -> real): real {
    if vs == [] then 0.0
    else Sum(vs[..|vs| - 1], f) + if vs[|vs| - 1].OnAgent? then f(vs[|vs| - 1].sliceUSD) else 0.0
  }

  lemma {:induction false} SumConcat(a: seq<Visit>, b: seq<Visit>, f: real -> real)
    ensures Sum(a + b, f) == Sum(a, f) + Sum(b, f)
  {
    if b == [] {
      assert a + b == a;
    } else {
      SumConcat(a, b[..|b| - 1], f);
      assert (a + b)[..|a + b| - 1] == a + b[..|b| - 1];
    }
  }

  /** Nothing repeats dynamically, and every agent carries a valid slice. */
  ghost predicate Bounded(vs: seq<Visit>) {
    && OnAcross !in vs
    && OnRetry !in vs
    && forall x :: OnAgent(x) in vs ==> ValidSlice(x)
  }

  lemma {:induction false} SumBound(vs: seq<Visit>, f: real -> real, g: real -> real)
    requires forall x :: OnAgent(x) in vs ==> f(x) <= g(x)
    ensures Sum(vs, f) <= Sum(vs, g)
  {
    if vs != [] {
      SumBound(vs[..|vs| - 1], f, g);
    }
  }

  lemma {:induction false} SumNonnegative(vs: seq<Visit>, f: real -> real)
    requires forall x :: OnAgent(x) in vs ==> f(x) >= 0.0
    ensures Sum(vs, f) >= 0.0
  {
    if vs != [] {
      SumNonnegative(vs[..|vs| - 1], f);
    }
  }

  // ----- the agent visitor -----

  /** The visitor's answer: the running total plus every slice, refused when unbounded or too large. */
  ghost predicate Tallied(vs: seq<Visit>, total: int, r: Option<int>) {
    if Bounded(vs) && total as real + Sum(vs, Counted) <= MAX_INT64 as real
    then r.Some? && r.value as real == total as real + Sum(vs, Counted)
    else r.None?
  }

  lemma TalliedGrows(vs: seq<Visit>, total: int, r: Option<int>)
    requires Tallied(vs, total, r) && r.Some?
    ensures total <= r.value <= MAX_INT64
  {
    SumNonnegative(vs, Counted);
  }

  /** Tallying one list and then another is tallying their concatenation. */
  lemma TalliedConcat(a: seq<Visit>, b: seq<Visit>, total: int, mid: Option<int>, r: Option<int>)
    requires Tallied(a, total, mid)
    requires mid.Some? ==> Tallied(b, mid.value, r)
    requires mid.None? ==> r.None?
    ensures Tallied(a + b, total, r)
  {
    SumConcat(a, b, Counted);
    assert Bounded(a + b) <==> Bounded(a) && Bounded(b) by {
      assert forall v :: v in a + b <==> v in a || v in b;
    }
    if Bounded(b) { SumNonnegative(b, Counted); }
  }

  method VisitAgents(s: Step, total: int) returns (r: Option<int>)
    requires 0 <= total <= MAX_INT64
    ensures Tallied(Visits(s), total, r)
    decreases s
  {
    match s {
      case Agent(slice) =>
        assert Sum([OnAgent(slice)], Counted) == Counted(slice);
        assert Bounded([OnAgent(slice)]) <==> ValidSlice(slice);
        if slice <= 0.0 { return None; }
        if Abs(Exact(slice) - Round(Exact(slice)) as real) > TOLERANCE { return None; }
        var micro := Round(Exact(slice));
        if micro <= 0 || total > MAX_INT64 - micro { return None; }
        return Some(total + micro);
      case PublishSnapshot =>
        assert Sum([OnPublish], Counted) == 0.0;
        return Some(total);
      case Plain => return Some(total);
      case Try(step) => r := VisitAgents(step, total);
      case Timeout(step) => r := VisitAgents(step, total);
      case Do(steps) => r := VisitEach(steps, total);
      case InParallel(steps, _, _) => r := VisitEach(steps, total);
      case Across(_) =>
        assert OnAcross in Visits(s);
        return None;
      case Retry(_) =>
        assert OnRetry in Visits(s);
        return None;
      case Hooked(_, step, after) =>
        var mid := VisitAgents(step, total);
        if mid.None? {
          TalliedConcat(Visits(step), Visits(after), total, mid, None);
          return None;
        }
        TalliedGrows(Visits(step), total, mid);
        r := VisitAgents(after, mid.value);
        TalliedConcat(Visits(step), Visits(after), total, mid, r);
    }
  }

  /** The traversal of a list of steps, or of a configuration's jobs. */
  method VisitEach(steps: seq<Step>, total: int) returns (r: Option<int>)
    requires 0 <= total <= MAX_INT64
    ensures Tallied(VisitsAll(steps), total, r)
    decreases steps
  {
    r := Some(total);
    for i := 0 to |steps|
      invariant r.Some? && Tallied(VisitsAll(steps[..i]), total, r)
    {
      TalliedGrows(VisitsAll(steps[..i]), total, r);
      var mid := r;
      r := VisitAgents(steps[i], mid.value);
      assert steps[..i + 1][..i] == steps[..i];
      TalliedConcat(VisitsAll(steps[..i]), Visits(steps[i]), total, mid, r);
      if r.None? {
        TalliedConcat(VisitsAll(steps[..i + 1]), VisitsAll(steps[i + 1..]), total, r, None);
        VisitsConcat(steps[..i + 1], steps[i + 1..]);
        assert steps[..i + 1] + steps[i + 1..] == steps;
        return;
      }
    }
    assert steps[..|steps|] == steps;
  }

  // ----- acceptance -----

  type Config = seq<Step>                      // the step of each job

  datatype Limits = Limits(perCellUSD: real, totalUSD: real, maxTokens: int)

  predicate ValidAmount(usd: real) {
    && 0.0 <= usd < 1000000000000.0
    && Exact(usd) <= MAX_INT64 as real
    && SixDecimals(usd)
  }

  predicate ValidLimits(b: Limits) {
    ValidAmount(b.perCellUSD) && ValidAmount(b.totalUSD) && b.maxTokens >= 0
  }

  /** The cell reservation in micro-dollars. */
  function CellLimit(b: Limits, cells: int): int
    requires b.perCellUSD > 0.0 || cells > 0
  {
    if b.perCellUSD > 0.0 then Exact(b.perCellUSD).Floor else Exact(b.totalUSD / cells as real).Floor
  }

  predicate EffectFree(configs: seq<Config>) {
    forall i :: 0 <= i < |configs| ==> OnPublish !in VisitsAll(configs[i])
  }

  predicate HasAgent(vs: seq<Visit>) {
    exists i :: 0 <= i < |vs| && vs[i].OnAgent?
  }

  predicate AgentFree(configs: seq<Config>) {
    forall i :: 0 <= i < |configs| ==> !HasAgent(VisitsAll(configs[i]))
  }

  ghost predicate Fits(config: Config) {
    Bounded(VisitsAll(config)) && Sum(VisitsAll(config), Counted) <= MAX_INT64 as real
  }

  ghost predicate CellFits(candidate: Config, evaluator: Config, limit: int) {
    && Fits(candidate)
    && Sum(VisitsAll(candidate), Counted) + Sum(VisitsAll(evaluator), Counted) <= MAX_INT64 as real
    && Sum(VisitsAll(candidate), Counted) + Sum(VisitsAll(evaluator), Counted) <= limit as real
  }

  predicate Unbudgeted(b: Limits) { b.perCellUSD == 0.0 && b.totalUSD == 0.0 }

  ghost predicate Accepted(b: Limits, cells: int, candidates: seq<Config>, evaluator: Config, capped: bool) {
    && EffectFree(candidates + [evaluator])
    && ValidLimits(b)
    && if Unbudgeted(b) then capped ==> AgentFree(candidates + [evaluator])
       else
         && (b.perCellUSD > 0.0 || cells > 0)
         && CellLimit(b, cells) > 0
         && Fits(evaluator)
         && forall i :: 0 <= i < |candidates| ==> CellFits(candidates[i], evaluator, CellLimit(b, cells))
  }

  method ValidateEffectFree(configs: seq<Config>) returns (ok: bool)
    ensures ok == EffectFree(configs)
  {
    for i := 0 to |configs|
      invariant EffectFree(configs[..i])
    {
      if OnPublish in VisitsAll(configs[i]) { return false; }
    }
    return true;
  }

  method HaveAgents(configs: seq<Config>) returns (found: bool)
    ensures found == !AgentFree(configs)
  {
    for i := 0 to |configs|
      invariant AgentFree(configs[..i])
    {
      if HasAgent(VisitsAll(configs[i])) { return true; }
    }
    return false;
  }

  method ValidateExecutionBudgets(b: Limits, cells: int, candidates: seq<Config>, evaluator: Config, capped: bool)
    returns (ok: bool)
    ensures ok == Accepted(b, cells, candidates, evaluator, capped)
  {
    var effectFree := ValidateEffectFree(candidates + [evaluator]);
    if !effectFree || !ValidLimits(b) { return false; }
    if b.perCellUSD == 0.0 && b.totalUSD == 0.0 {
      if capped {
        var found := HaveAgents(candidates + [evaluator]);
        return !found;
      }
      return true;
    }
    if b.perCellUSD <= 0.0 && cells <= 0 { return false; }
    var limit := CellLimit(b, cells);
    if limit <= 0 { return false; }
    var evaluatorSlice := VisitEach(evaluator, 0);
    if evaluatorSlice.None? { return false; }
    TalliedGrows(VisitsAll(evaluator), 0, evaluatorSlice);
    for i := 0 to |candidates|
      invariant forall j :: 0 <= j < i ==> CellFits(candidates[j], evaluator, limit)
    {
      var candidateSlice := VisitEach(candidates[i], 0);
      if candidateSlice.None? { return false; }
      if candidateSlice.value > MAX_INT64 - evaluatorSlice.value { return false; }
      if candidateSlice.value + evaluatorSlice.value > limit { return false; }
    }
    return true;
  }

  /** The reservation never exceeds the amount set for a cell, by less than a micro-dollar. */
  lemma CellsStayWithinPerCell(b: Limits, cells: int)
    requires b.perCellUSD > 0.0
    ensures CellLimit(b, cells) as real <= Exact(b.perCellUSD) < CellLimit(b, cells) as real + 1.0
  {
  }

  /** A limit derived from the total keeps every expected cell within that total. */
  lemma CellsStayWithinTotal(b: Limits, cells: int)
    requires cells > 0 && b.perCellUSD == 0.0
    ensures cells as real * CellLimit(b, cells) as real <= Exact(b.totalUSD)
  {
    var share := b.totalUSD / cells as real;
    assert CellLimit(b, cells) as real <= Exact(share);
    assert cells as real * share == b.totalUSD;
    ProductKeepsOrder(cells as real, CellLimit(b, cells) as real, Exact(share));
    assert cells as real * Exact(share) == Exact(b.totalUSD);
  }

  // ----- executions -----

  datatype Outcome = Succeeded | Failed | Errored | Aborted | TimedOut

  /** A step tree in flight. */
  datatype Run =
    | Waiting(step: Step)
    | Spending(left: real)                               // an agent, with what is left of its slice
    | Sequence(current: Run, rest: seq<Step>)
    | Branches(runs: seq<Run>)
    | Wrapped(inner: Run)                                // under try or timeout
    | Repeating(inner: Run, again: Step)                 // under attempts
    | Guarded(hook: Hook, inner: Run, after: Step)
    | Hooking(inner: Run)
    | Finished(outcome: Outcome)

  datatype Act = Quiet | Spend(micro: real) | Publish

  predicate Fires(hook: Hook, outcome: Outcome) {
    match hook
    case OnSuccess => outcome == Succeeded
    case OnFailure => outcome == Failed
    case OnAbort => outcome == Aborted
    case OnError => outcome == Errored || outcome == TimedOut
    case Ensure => true
  }

  function WaitingAll(steps: seq<Step>): seq<Run> {
    seq(|steps|, i requires 0 <= i < |steps| => Waiting(steps[i]))
  }

  function Started(steps: seq<Step>): Run {
    if steps == [] then Finished(Succeeded) else Sequence(Waiting(steps[0]), steps[1..])
  }

  /** How a waiting step starts. */
  ghost predicate Starts(s: Step, r: Run, act: Act) {
    match s
    case Agent(slice) => act == Quiet && r == Spending(Exact(slice))
    case PublishSnapshot => act == Publish && r.Finished?
    case Plain => act == Quiet && r.Finished?
    case Try(step) => act == Quiet && r == Wrapped(Waiting(step))
    case Timeout(step) => act == Quiet && r == Wrapped(Waiting(step))
    case Do(steps) => act == Quiet && r == Started(steps)
    case InParallel(steps, _, _) => act == Quiet && r == Branches(WaitingAll(steps))
    case Across(step) => act == Quiet && r.Branches? && forall i :: 0 <= i < |r.runs| ==> r.runs[i] == Waiting(step)
    case Retry(step) => act == Quiet && r == Repeating(Waiting(step), step)
    case Hooked(hook, step, after) => act == Quiet && r == Guarded(hook, Waiting(step), after)
  }

  /** One step of a run.  Any unfinished run may also be cut short, with any outcome. */
  ghost predicate Next(r: Run, t: Run, act: Act) {
    || (!r.Finished? && t.Finished? && act == Quiet)
    || match r
       case Waiting(s) => Starts(s, t, act)
       case Spending(left) => act.Spend? && 0.0 <= act.micro <= left && t == Spending(left - act.micro)
       case Sequence(current, rest) =>
         || (t.Sequence? && t.rest == rest && Next(current, t.current, act))
         || (current == Finished(Succeeded) && act == Quiet && t == Started(rest))
       case Branches(runs) =>
         && t.Branches?
         && |t.runs| == |runs|
         && exists i :: 0 <= i < |runs| && t.runs == runs[i := t.runs[i]] && Next(runs[i], t.runs[i], act)
       case Wrapped(inner) => t.Wrapped? && Next(inner, t.inner, act)
       case Repeating(inner, again) =>
         || (t.Repeating? && t.again == again && Next(inner, t.inner, act))
         || (inner.Finished? && act == Quiet && t == Repeating(Waiting(again), again))
       case Guarded(hook, inner, after) =>
         || (t.Guarded? && t.hook == hook && t.after == after && Next(inner, t.inner, act))
         || (inner.Finished? && Fires(hook, inner.outcome) && act == Quiet && t == Hooking(Waiting(after)))
       case Hooking(inner) => t.Hooking? && Next(inner, t.inner, act)
       case Finished(_) => false
  }

  function Spent(acts: seq<Act>): real {
    if acts == [] then 0.0
    else Spent(acts[..|acts| - 1]) + if acts[|acts| - 1].Spend? then acts[|acts| - 1].micro else 0.0
  }

  ghost predicate Execution(runs: seq<Run>, acts: seq<Act>) {
    && |runs| == |acts| + 1
    && forall i :: 0 <= i < |acts| ==> Next(runs[i], runs[i + 1], acts[i])
  }

  /** One cell: every job of the candidate and of the evaluator, on any schedule. */
  function Cell(candidate: Config, evaluator: Config): Run {
    Branches(WaitingAll(candidate + evaluator))
  }

  // ----- what is left to visit bounds what is left to spend -----

  /** The visits a run may still make, its running agents included at what they have left. */
  function Ahead(r: Run): seq<Visit> {
    match r
    case Waiting(s) => Visits(s)
    case Spending(left) => [OnAgent(left / MICRO)]
    case Sequence(current, rest) => Ahead(current) + VisitsAll(rest)
    case Branches(runs) => AheadAll(runs)
    case Wrapped(inner) => Ahead(inner)
    case Repeating(inner, again) => [OnRetry] + Ahead(inner) + Visits(again)
    case Guarded(_, inner, after) => Ahead(inner) + Visits(after)
    case Hooking(inner) => Ahead(inner)
    case Finished(_) => []
  }

  function AheadAll(runs: seq<Run>): seq<Visit> {
    if runs == [] then [] else AheadAll(runs[..|runs| - 1]) + Ahead(runs[|runs| - 1])
  }

  /** Nothing repeats, and no allowance is negative. */
  ghost predicate Tame(vs: seq<Visit>) {
    && OnAcross !in vs && OnRetry !in vs
    && forall x :: OnAgent(x) in vs ==> Exact(x) >= 0.0
  }

  lemma TameConcat(a: seq<Visit>, b: seq<Visit>)
    ensures Tame(a + b) <==> Tame(a) && Tame(b)
  {
    assert forall v :: v in a + b <==> v in a || v in b;
  }

  lemma {:induction false} AheadOfWaiting(steps: seq<Step>)
    ensures AheadAll(WaitingAll(steps)) == VisitsAll(steps)
  {
    if steps != [] {
      AheadOfWaiting(steps[..|steps| - 1]);
      assert WaitingAll(steps)[..|steps| - 1] == WaitingAll(steps[..|steps| - 1]);
    }
  }

  /** Moving one branch changes the sum by that branch alone. */
  lemma {:induction false} BranchMoves(runs: seq<Run>, i: nat, t: Run)
    requires i < |runs|
    ensures Tame(AheadAll(runs)) ==> Tame(Ahead(runs[i]))
    ensures Tame(AheadAll(runs)) && Tame(Ahead(t)) ==> Tame(AheadAll(runs[i := t]))
    ensures Sum(AheadAll(runs[i := t]), Exact) + Sum(Ahead(runs[i]), Exact)
         == Sum(AheadAll(runs), Exact) + Sum(Ahead(t), Exact)
  {
    var n := |runs| - 1;
    var front, moved := runs[..n], runs[i := t];
    TameConcat(AheadAll(front), Ahead(runs[n]));
    TameConcat(AheadAll(moved[..n]), Ahead(moved[n]));
    SumConcat(AheadAll(front), Ahead(runs[n]), Exact);
    SumConcat(AheadAll(moved[..n]), Ahead(moved[n]), Exact);
    if i < n {
      BranchMoves(front, i, t);
      assert moved[..n] == front[i := t];
    } else {
      assert moved[..n] == front;
    }
  }

  function Cost(act: Act): real { if act.Spend? then act.micro else 0.0 }

  ghost predicate Conserves(r: Run, t: Run, act: Act) {
    && Tame(Ahead(t))
    && Cost(act) >= 0.0
    && Sum(Ahead(t), Exact) + Cost(act) <= Sum(Ahead(r), Exact)
  }

  lemma RepeatsAreNotTame(s: Step)
    ensures s.Across? || s.Retry? ==> !Tame(Visits(s))
  {
    if s.Across? {
      assert Visits(s)[0] == OnAcross;
    } else if s.Retry? {
      assert Visits(s)[0] == OnRetry;
    }
  }

  lemma RepeatingIsNotTame(r: Run)
    ensures r.Repeating? ==> !Tame(Ahead(r))
  {
    if r.Repeating? {
      assert Ahead(r)[0] == OnRetry;
    }
  }

  lemma StartConserves(s: Step, t: Run, act: Act)
    requires Starts(s, t, act) && Tame(Visits(s))
    ensures Conserves(Waiting(s), t, act)
  {
    SumNonnegative(Visits(s), Exact);
    RepeatsAreNotTame(s);
    match s
    case Agent(slice) => assert Exact(slice) / MICRO == slice;
    case Do(steps) => if steps != [] { VisitsFirst(steps); }
    case InParallel(steps, _, _) => AheadOfWaiting(steps);
    case _ =>
  }

  /** Moving inside a context that still has other visits ahead. */
  lemma ContextConserves(r: Run, t: Run, act: Act, rest: seq<Visit>)
    requires Conserves(r, t, act) && Tame(rest)
    ensures Tame(Ahead(t) + rest)
    ensures Sum(Ahead(t) + rest, Exact) + Cost(act) <= Sum(Ahead(r) + rest, Exact)
  {
    TameConcat(Ahead(t), rest);
    SumConcat(Ahead(t), rest, Exact);
    SumConcat(Ahead(r), rest, Exact);
  }

  lemma SpendConserves(left: real, micro: real)
    requires 0.0 <= micro <= left
    ensures Conserves(Spending(left), Spending(left - micro), Spend(micro))
  {
    assert Sum([OnAgent(left / MICRO)], Exact) == left;
    assert Sum([OnAgent((left - micro) / MICRO)], Exact) == left - micro;
  }

  lemma AdvanceConserves(current: Run, rest: seq<Step>)
    requires current.Finished? && Tame(Ahead(Sequence(current, rest)))
    ensures Conserves(Sequence(current, rest), Started(rest), Quiet)
  {
    assert Ahead(Sequence(current, rest)) == VisitsAll(rest);
    if rest != [] { VisitsFirst(rest); }
  }

  lemma BranchConserves(runs: seq<Run>, i: nat, t: Run, act: Act)
    requires i < |runs| && Tame(AheadAll(runs)) && Conserves(runs[i], t, act)
    ensures Conserves(Branches(runs), Branches(runs[i := t]), act)
  {
    BranchMoves(runs, i, t);
  }

  lemma {:induction false} StepConserves(r: Run, t: Run, act: Act)
    requires Next(r, t, act) && Tame(Ahead(r))
    ensures Conserves(r, t, act)
    decreases r
  {
    SumNonnegative(Ahead(r), Exact);
    RepeatingIsNotTame(r);
    if !r.Finished? && t.Finished? && act == Quiet { return; }
    match r
    case Waiting(s) => StartConserves(s, t, act);
    case Spending(left) => SpendConserves(left, act.micro);
    case Sequence(current, rest) =>
      TameConcat(Ahead(current), VisitsAll(rest));
      if t.Sequence? && t.rest == rest && Next(current, t.current, act) {
        StepConserves(current, t.current, act);
        ContextConserves(current, t.current, act, VisitsAll(rest));
      } else {
        AdvanceConserves(current, rest);
      }
    case Branches(runs) =>
      var i :| 0 <= i < |runs| && t.runs == runs[i := t.runs[i]] && Next(runs[i], t.runs[i], act);
      BranchMoves(runs, i, t.runs[i]);
      StepConserves(runs[i], t.runs[i], act);
      BranchConserves(runs, i, t.runs[i], act);
    case Wrapped(inner) => StepConserves(inner, t.inner, act);
    case Guarded(hook, inner, after) =>
      TameConcat(Ahead(inner), Visits(after));
      if t.Guarded? {
        StepConserves(inner, t.inner, act);
        ContextConserves(inner, t.inner, act, Visits(after));
      } else {
        assert Ahead(r) == Visits(after);
      }
    case Hooking(inner) => StepConserves(inner, t.inner, act);
    case _ =>
  }

  lemma {:induction false} RunConserves(runs: seq<Run>, acts: seq<Act>)
    requires Execution(runs, acts) && Tame(Ahead(runs[0]))
    ensures Tame(Ahead(runs[|acts|]))
    ensures Spent(acts) + Sum(Ahead(runs[|acts|]), Exact) <= Sum(Ahead(runs[0]), Exact)
    decreases |acts|
  {
    if acts != [] {
      var n := |acts| - 1;
      RunConserves(runs[..n + 1], acts[..n]);
      StepConserves(runs[n], runs[n + 1], acts[n]);
    }
  }

  // ----- kinds of visit that never appear -----

  datatype Kind = Agents | Publications

  predicate IsKind(v: Visit, kind: Kind) {
    if kind == Agents then v.OnAgent? else v.OnPublish?
  }

  /** No visit of this kind lies ahead. */
  predicate Free(vs: seq<Visit>, kind: Kind) {
    forall i :: 0 <= i < |vs| ==> !IsKind(vs[i], kind)
  }

  predicate ActsAs(act: Act, kind: Kind) {
    if kind == Agents then act.Spend? else act.Publish?
  }

  lemma {:induction false} BranchesFree(runs: seq<Run>, kind: Kind)
    ensures Free(AheadAll(runs), kind) <==> forall i :: 0 <= i < |runs| ==> Free(Ahead(runs[i]), kind)
  {
    if runs != [] {
      var n := |runs| - 1;
      BranchesFree(runs[..n], kind);
      FreeConcat(AheadAll(runs[..n]), Ahead(runs[n]), kind);
      assert forall i :: 0 <= i < n ==> runs[..n][i] == runs[i];
    }
  }

  lemma FreeConcat(a: seq<Visit>, b: seq<Visit>, kind: Kind)
    ensures Free(a + b, kind) <==> Free(a, kind) && Free(b, kind)
  {
    assert forall i :: 0 <= i < |a| ==> (a + b)[i] == a[i];
    assert forall i :: 0 <= i < |b| ==> (a + b)[|a| + i] == b[i];
  }

  lemma StartStaysFree(s: Step, t: Run, act: Act, kind: Kind)
    requires Starts(s, t, act) && Free(Visits(s), kind)
    ensures Free(Ahead(t), kind) && !ActsAs(act, kind)
  {
    assert Visits(s) != [] ==> !IsKind(Visits(s)[0], kind);
    match s
    case Agent(slice) => assert Visits(s)[0] == OnAgent(slice);
    case PublishSnapshot => assert Visits(s)[0] == OnPublish;
    case Do(steps) => if steps != [] { VisitsFirst(steps); }
    case InParallel(steps, _, _) => AheadOfWaiting(steps);
    case Across(step) =>
      FreeConcat([OnAcross], Visits(step), kind);
      BranchesFree(t.runs, kind);
    case Retry(step) => FreeConcat([OnRetry], Visits(step), kind);
    case _ =>
  }

  /** Retries and across included, a kind of visit that is not ahead never comes up. */
  lemma {:induction false} StepStaysFree(r: Run, t: Run, act: Act, kind: Kind)
    requires Next(r, t, act) && Free(Ahead(r), kind)
    ensures Free(Ahead(t), kind) && !ActsAs(act, kind)
    decreases r
  {
    if !r.Finished? && t.Finished? && act == Quiet { return; }
    match r
    case Waiting(s) => StartStaysFree(s, t, act, kind);
    case Spending(left) => assert [OnAgent(left / MICRO)][0].OnAgent?;
    case Sequence(current, rest) =>
      FreeConcat(Ahead(current), VisitsAll(rest), kind);
      if t.Sequence? && t.rest == rest && Next(current, t.current, act) {
        StepStaysFree(current, t.current, act, kind);
        FreeConcat(Ahead(t.current), VisitsAll(rest), kind);
      } else if rest != [] {
        VisitsFirst(rest);
      }
    case Branches(runs) =>
      var i :| 0 <= i < |runs| && t.runs == runs[i := t.runs[i]] && Next(runs[i], t.runs[i], act);
      BranchesFree(runs, kind);
      StepStaysFree(runs[i], t.runs[i], act, kind);
      BranchesFree(t.runs, kind);
    case Wrapped(inner) => StepStaysFree(inner, t.inner, act, kind);
    case Repeating(inner, again) => RepeatStaysFree(r, t, act, kind);
    case Guarded(hook, inner, after) =>
      FreeConcat(Ahead(inner), Visits(after), kind);
      if t.Guarded? {
        StepStaysFree(inner, t.inner, act, kind);
        FreeConcat(Ahead(t.inner), Visits(after), kind);
      }
    case Hooking(inner) => StepStaysFree(inner, t.inner, act, kind);
    case Finished(_) =>
  }

  lemma {:induction false} RepeatStaysFree(r: Run, t: Run, act: Act, kind: Kind)
    requires r.Repeating? && t.Repeating? && Next(r, t, act) && Free(Ahead(r), kind)
    ensures Free(Ahead(t), kind) && !ActsAs(act, kind)
    decreases r, 0
  {
    var again := Visits(r.again);
    FreeConcat([OnRetry] + Ahead(r.inner), again, kind);
    FreeConcat([OnRetry], Ahead(r.inner), kind);
    if t.again == r.again && Next(r.inner, t.inner, act) {
      StepStaysFree(r.inner, t.inner, act, kind);
    }
    FreeConcat([OnRetry], Ahead(t.inner), kind);
    FreeConcat([OnRetry] + Ahead(t.inner), again, kind);
  }

  lemma {:induction false} RunStaysFree(runs: seq<Run>, acts: seq<Act>, kind: Kind)
    requires Execution(runs, acts) && Free(Ahead(runs[0]), kind)
    ensures forall i :: 0 <= i < |acts| ==> !ActsAs(acts[i], kind)
    ensures Free(Ahead(runs[|acts|]), kind)
    decreases |acts|
  {
    if acts != [] {
      var n := |acts| - 1;
      RunStaysFree(runs[..n + 1], acts[..n], kind);
      StepStaysFree(runs[n], runs[n + 1], acts[n], kind);
      assert forall i :: 0 <= i < n ==> acts[..n][i] == acts[i];
    }
  }

  // ----- the main results -----

  lemma CellVisits(candidate: Config, evaluator: Config)
    ensures Ahead(Cell(candidate, evaluator)) == VisitsAll(candidate) + VisitsAll(evaluator)
  {
    AheadOfWaiting(candidate + evaluator);
    VisitsConcat(candidate, evaluator);
  }

  /** An accepted experiment publishes nothing, whatever its steps do. */
  lemma AcceptedCellsPublishNothing(b: Limits, cells: int, candidates: seq<Config>, evaluator: Config, capped: bool,
                                    k: nat, runs: seq<Run>, acts: seq<Act>)
    requires Accepted(b, cells, candidates, evaluator, capped) && k < |candidates|
    requires Execution(runs, acts) && runs[0] == Cell(candidates[k], evaluator)
    ensures Publish !in acts
  {
    var configs := candidates + [evaluator];
    assert configs[k] == candidates[k] && configs[|candidates|] == evaluator;
    CellVisits(candidates[k], evaluator);
    FreeConcat(VisitsAll(candidates[k]), VisitsAll(evaluator), Publications);
    RunStaysFree(runs, acts, Publications);
  }

  /** Without a dollar budget but under the global cap, an accepted experiment spends nothing. */
  lemma CappedCellsSpendNothing(b: Limits, cells: int, candidates: seq<Config>, evaluator: Config,
                                k: nat, runs: seq<Run>, acts: seq<Act>)
    requires Accepted(b, cells, candidates, evaluator, true) && Unbudgeted(b) && k < |candidates|
    requires Execution(runs, acts) && runs[0] == Cell(candidates[k], evaluator)
    ensures Spent(acts) == 0.0
  {
    var configs := candidates + [evaluator];
    assert configs[k] == candidates[k] && configs[|candidates|] == evaluator;
    CellVisits(candidates[k], evaluator);
    FreeConcat(VisitsAll(candidates[k]), VisitsAll(evaluator), Agents);
    RunStaysFree(runs, acts, Agents);
    NothingSpent(acts);
  }

  lemma {:induction false} NothingSpent(acts: seq<Act>)
    requires forall i :: 0 <= i < |acts| ==> !acts[i].Spend?
    ensures Spent(acts) == 0.0
  {
    if acts != [] { NothingSpent(acts[..|acts| - 1]); }
  }

  /** A slice whose authored amount exceeds the micro-dollars counted for it. */
  predicate RoundedDown(sliceUSD: real) { Exact(sliceUSD) > Counted(sliceUSD) }

  ghost predicate NoneRoundedDown(vs: seq<Visit>) {
    forall x :: OnAgent(x) in vs ==> !RoundedDown(x)
  }

  function Padded(sliceUSD: real): real { Counted(sliceUSD) + TOLERANCE }

  function One(sliceUSD: real): real { 1.0 }

  function AgentCount(vs: seq<Visit>): real { Sum(vs, One) }

  lemma {:induction false} SumPadded(vs: seq<Visit>)
    ensures Sum(vs, Padded) == Sum(vs, Counted) + TOLERANCE * AgentCount(vs)
  {
    if vs != [] { SumPadded(vs[..|vs| - 1]); }
  }

  lemma CellConserves(candidate: Config, evaluator: Config, runs: seq<Run>, acts: seq<Act>)
    requires Fits(candidate) && Fits(evaluator)
    requires Execution(runs, acts) && runs[0] == Cell(candidate, evaluator)
    ensures Spent(acts) <= Sum(VisitsAll(candidate), Exact) + Sum(VisitsAll(evaluator), Exact)
  {
    CellVisits(candidate, evaluator);
    TameConcat(VisitsAll(candidate), VisitsAll(evaluator));
    SumConcat(VisitsAll(candidate), VisitsAll(evaluator), Exact);
    RunConserves(runs, acts);
    SumNonnegative(Ahead(runs[|acts|]), Exact);
  }

  /**
    Every execution of every accepted cell stays within the reservation, up to the tolerance
    the analysis grants each agent; exactly within it when no slice is rounded down.
   */
  lemma AcceptedCellsStayWithinLimit(b: Limits, cells: int, candidates: seq<Config>, evaluator: Config, capped: bool,
                                     k: nat, runs: seq<Run>, acts: seq<Act>)
    requires Accepted(b, cells, candidates, evaluator, capped) && !Unbudgeted(b) && k < |candidates|
    requires Execution(runs, acts) && runs[0] == Cell(candidates[k], evaluator)
    ensures Spent(acts) <= CellLimit(b, cells) as real
      + TOLERANCE * (AgentCount(VisitsAll(candidates[k])) + AgentCount(VisitsAll(evaluator)))
    ensures NoneRoundedDown(VisitsAll(candidates[k])) && NoneRoundedDown(VisitsAll(evaluator)) ==>
      Spent(acts) <= CellLimit(b, cells) as real
  {
    var cs, es := VisitsAll(candidates[k]), VisitsAll(evaluator);
    assert CellFits(candidates[k], evaluator, CellLimit(b, cells));
    CellConserves(candidates[k], evaluator, runs, acts);
    SumBound(cs, Exact, Padded);
    SumBound(es, Exact, Padded);
    SumPadded(cs);
    SumPadded(es);
    if NoneRoundedDown(cs) && NoneRoundedDown(es) {
      SumBound(cs, Exact, Counted);
      SumBound(es, Exact, Counted);
    }
  }

  // ----- what executions can spend -----

  /** Some execution leads from one run to another and spends exactly this much. */
  ghost predicate CanSpend(r: Run, t: Run, micro: real) {
    exists runs, acts :: IsExecution(runs, acts, r, t) && Spent(acts) == micro
  }

  ghost predicate IsExecution(runs: seq<Run>, acts: seq<Act>, r: Run, t: Run) {
    Execution(runs, acts) && runs[0] == r && runs[|acts|] == t
  }

  lemma CanStay(r: Run)
    ensures CanSpend(r, r, 0.0)
  {
    assert IsExecution([r], [], r, r) && Spent([]) == 0.0;
  }

  lemma CanStep(r: Run, t: Run, act: Act)
    requires Next(r, t, act)
    ensures CanSpend(r, t, Cost(act))
  {
    assert IsExecution([r, t], [act], r, t);
    assert [act][..0] == [] && Spent([act]) == Cost(act);
  }

  lemma {:induction false} SpentConcat(a: seq<Act>, b: seq<Act>)
    ensures Spent(a + b) == Spent(a) + Spent(b)
  {
    if b == [] {
      assert a + b == a;
    } else {
      SpentConcat(a, b[..|b| - 1]);
      assert (a + b)[..|a + b| - 1] == a + b[..|b| - 1];
    }
  }

  lemma ChainedExecution(runs: seq<Run>, acts: seq<Act>, more: seq<Run>, later: seq<Act>)
    requires Execution(runs, acts) && Execution(more, later) && runs[|acts|] == more[0]
    ensures IsExecution(runs + more[1..], acts + later, runs[0], more[|later|])
  {
    var all, both := runs + more[1..], acts + later;
    forall i | 0 <= i < |both|
      ensures Next(all[i], all[i + 1], both[i])
    {
      if i < |acts| {
        assert Next(runs[i], runs[i + 1], acts[i]);
      } else {
        assert Next(more[i - |acts|], more[i - |acts| + 1], later[i - |acts|]);
      }
    }
  }

  lemma CanChain(r: Run, t: Run, u: Run, m: real, n: real)
    requires CanSpend(r, t, m) && CanSpend(t, u, n)
    ensures CanSpend(r, u, m + n)
  {
    var runs, acts :| IsExecution(runs, acts, r, t) && Spent(acts) == m;
    var more, later :| IsExecution(more, later, t, u) && Spent(later) == n;
    ChainedExecution(runs, acts, more, later);
    SpentConcat(acts, later);
  }

  /** A context in which a run goes on as it would alone. */
  ghost predicate Carries(context: Run -> Run) {
    forall r, t, act :: Next(r, t, act) ==> Next(context(r), context(t), act)
  }

  lemma CanSpendInside(context: Run -> Run, r: Run, t: Run, m: real)
    requires Carries(context) && CanSpend(r, t, m)
    ensures CanSpend(context(r), context(t), m)
  {
    var runs, acts :| IsExecution(runs, acts, r, t) && Spent(acts) == m;
    var lifted := seq(|runs|, i requires 0 <= i < |runs| => context(runs[i]));
    forall i | 0 <= i < |acts|
      ensures Next(lifted[i], lifted[i + 1], acts[i])
    {
      assert Next(runs[i], runs[i + 1], acts[i]);
    }
    assert IsExecution(lifted, acts, context(r), context(t));
  }

  function InWrapped(): Run -> Run { r => Wrapped(r) }

  function InHooking(): Run -> Run { r => Hooking(r) }

  function InSequence(rest: seq<Step>): Run -> Run { r => Sequence(r, rest) }

  function InGuarded(hook: Hook, after: Step): Run -> Run { r => Guarded(hook, r, after) }

  function InBranch(before: seq<Run>, after: seq<Run>): Run -> Run { r => Branches(before + [r] + after) }

  lemma ContextsCarry(rest: seq<Step>, hook: Hook, after: Step)
    ensures Carries(InWrapped()) && Carries(InHooking()) && Carries(InSequence(rest)) && Carries(InGuarded(hook, after))
  {
  }

  lemma BranchCarries(before: seq<Run>, after: seq<Run>)
    ensures Carries(InBranch(before, after))
  {
    forall r, t, act | Next(r, t, act)
      ensures Next(InBranch(before, after)(r), InBranch(before, after)(t), act)
    {
      var runs, moved, i := before + [r] + after, before + [t] + after, |before|;
      assert moved == runs[i := moved[i]] && runs[i] == r && moved[i] == t;
      assert Next(runs[i], moved[i], act);
    }
  }

  lemma CanCut(r: Run, outcome: Outcome)
    requires !r.Finished?
    ensures CanSpend(r, Finished(outcome), 0.0)
  {
    CanStep(r, Finished(outcome), Quiet);
  }

  /** A finished part in a context that is then cut. */
  lemma CanFinishInside(context: Run -> Run, r: Run, inner: Outcome, m: real, outcome: Outcome)
    requires Carries(context) && CanSpend(r, Finished(inner), m) && !context(Finished(inner)).Finished?
    ensures CanSpend(context(r), Finished(outcome), m)
  {
    CanSpendInside(context, r, Finished(inner), m);
    CanCut(context(Finished(inner)), outcome);
    CanChain(context(r), context(Finished(inner)), Finished(outcome), m, 0.0);
  }

  /** What the agents of a cell were authored to spend, in micro-dollars. */
  function Authored(candidate: Config, evaluator: Config): real {
    Sum(VisitsAll(candidate), Exact) + Sum(VisitsAll(evaluator), Exact)
  }

  lemma WholeAmountIsValid(micro: int)
    requires 0 <= micro < 1000000000000000000
    ensures ValidAmount(micro as real / MICRO)
    ensures Exact(micro as real / MICRO) == micro as real
  {
    var usd := micro as real / MICRO;
    assert Exact(usd) == micro as real;
    assert Round(Exact(usd)) == micro;
  }

  lemma LoneAgentVisits(slice: real)
    ensures VisitsAll([Agent(slice)]) == [OnAgent(slice)]
    ensures Sum([OnAgent(slice)], Counted) == Counted(slice)
  {
    assert [Agent(slice)][..0] == [];
  }

  lemma LoneAgentIsAccepted(slice: real) returns (b: Limits)
    requires ValidSlice(slice) && Round(Exact(slice)) < 1000000000000000000
    ensures Accepted(b, 1, [[Agent(slice)]], [], false) && !Unbudgeted(b)
    ensures CellLimit(b, 1) as real == Counted(slice)
  {
    b := Limits(Round(Exact(slice)) as real / MICRO, 0.0, 0);
    WholeAmountIsValid(Round(Exact(slice)));
    WholeAmountIsValid(0);
    LoneAgentVisits(slice);
    assert b.perCellUSD > 0.0;
    assert VisitsAll([]) == [] && Sum([], Counted) == 0.0;
    assert CellFits([Agent(slice)], [], CellLimit(b, 1));
  }

  /** Such slices exist: a dollar and a twentieth of a millionth of a micro-dollar. */
  lemma SomeSliceIsRoundedDown()
    ensures ValidSlice(1.00000000000005) && RoundedDown(1.00000000000005)
    ensures Counted(1.00000000000005) == 1000000.0
  {
    assert Round(1000000.00000005) == 1000000;
    assert Exact(1.00000000000005) == 1000000.00000005;
  }
}
