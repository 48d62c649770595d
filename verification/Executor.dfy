/**
  One pass of the executor over a step tree: what it may spend, by how its context fares and by how
  it ends, and the most it can spend.

  Leaves choose how they end; everything else follows from atc/exec.  The rules are written once,
  over an algebra of alternatives and sums, and read twice: as the set of all amounts a pass may
  spend, and as the largest of them.
 */
module Executor {
  import opened Prelude
  import opened Reals
  import opened Budget

  /** No pass, a pass that spends nothing, one that spends up to a bound, alternatives, and one after the other. */
  datatype Algebra<!T> = Algebra(none: T, nothing: T, upTo: real -> T, either: (T, T) -> T, both: (T, T) -> T)

  // ----- contexts -----

  /** Why a context ends: an abort or a sibling that failed fast, or a timeout. */
  datatype End = Cancellation | Deadline

  /** A context during a step: it does not end, it ends before the step does, or it had ended before the step began. */
  datatype Span = Calm | Caught(end: End) | Late(end: End)

  function Reported(e: End): Outcome { if e == Cancellation then Aborted else TimedOut }

  /** The ends a leaf may choose: its own, or to report that its context has ended. */
  predicate LeafMayEnd(x: Span, o: Outcome) {
    o in {Succeeded, Failed, Errored} || (x != Calm && o == Reported(x.end))
  }

  // ----- the rules -----

  /** Passes over a step whose context fares so, ending so. */
  function Passes<T>(a: Algebra<T>, s: Step, x: Span, o: Outcome): T
    decreases s, 1
  {
    match s
    case Agent(slice) =>
      if !LeafMayEnd(x, o) then a.none else if x.Late? then a.nothing else a.upTo(Exact(slice))
    case PublishSnapshot => if LeafMayEnd(x, o) then a.nothing else a.none
    case Plain => if LeafMayEnd(x, o) then a.nothing else a.none
    case Try(step) =>
      if o == Aborted then Passes(a, step, x, Aborted)
      else if o == Succeeded then a.either(Settled(a, step, x), Passes(a, step, x, TimedOut))
      else a.none
    case Timeout(step) =>
      if x.Late? then Timed(a, step, x, o)
      else a.either(Timed(a, step, x, o), Timed(a, step, Caught(Deadline), o))
    case Do(steps) => Sequenced(a, steps, x, o)
    case InParallel(steps, limit, failFast) =>
      Parallel(a, steps, if limit < 1 then |steps| else limit, failFast, x, o)
    case Across(_) => a.none                             // refused by the analysis, like attempts
    case Retry(_) => a.none
    case Hooked(hook, step, after) =>
      match hook
      case OnSuccess =>
        if o == Succeeded then Chained(a, s, Succeeded, x, o)
        else a.either(Passes(a, step, x, o), Chained(a, s, Succeeded, x, o))
      case OnFailure =>
        if o == Succeeded then Passes(a, step, x, o)
        else if o == Failed then a.either(Chained(a, s, Failed, x, Succeeded), Chained(a, s, Failed, x, Failed))
        else a.either(Passes(a, step, x, o), Chained(a, s, Failed, x, o))
      case OnAbort =>
        if o == Aborted then a.both(Passes(a, step, x, o), Settled(a, after, Calm)) else Passes(a, step, x, o)
      case OnError =>
        if o == Errored || o == TimedOut then a.both(Passes(a, step, x, o), Settled(a, after, Calm))
        else Passes(a, step, x, o)
      case Ensure => Ensured(a, s, x, o)
  }

  /** A step that ends by itself. */
  function Settled<T>(a: Algebra<T>, s: Step, x: Span): T
    decreases s, 2
  {
    a.either(Passes(a, s, x, Succeeded), a.either(Passes(a, s, x, Failed), Passes(a, s, x, Errored)))
  }

  /** A step that ends in any way. */
  function Whatever<T>(a: Algebra<T>, s: Step, x: Span): T
    decreases s, 3
  {
    a.either(Settled(a, s, x), a.either(Passes(a, s, x, Aborted), Passes(a, s, x, TimedOut)))
  }

  /** Under a timeout an exceeded deadline is a failure. */
  function Timed<T>(a: Algebra<T>, s: Step, x: Span, o: Outcome): T
    decreases s, 2
  {
    if o == TimedOut then a.none
    else if o == Failed then a.either(Passes(a, s, x, Failed), Passes(a, s, x, TimedOut))
    else Passes(a, s, x, o)
  }

  /** The step ends so and its hook, in the same context, so. */
  function Chained<T>(a: Algebra<T>, s: Step, first: Outcome, x: Span, o: Outcome): T
    requires s.Hooked?
    decreases s, 0
  {
    if x.Caught? then
      a.either(a.both(Passes(a, s.step, Calm, first), Passes(a, s.after, x, o)),
               a.both(Passes(a, s.step, x, first), Passes(a, s.after, Late(x.end), o)))
    else a.both(Passes(a, s.step, x, first), Passes(a, s.after, x, o))
  }

  /** The hook always runs, in a context of its own if the step's has ended, which is then what is reported. */
  function Ensured<T>(a: Algebra<T>, s: Step, x: Span, o: Outcome): T
    requires s.Hooked?
    decreases s, 0
  {
    match x
    case Calm => EnsuredCalmly(a, s, o)
    case Caught(e) =>
      if o != Reported(e) then EnsuredCalmly(a, s, o)
      else a.either(a.both(Whatever(a, s.step, x), Settled(a, s.after, Calm)),
                    a.both(Settled(a, s.step, Calm), Whatever(a, s.after, x)))
    case Late(e) =>
      if o != Reported(e) then a.none else a.both(Whatever(a, s.step, x), Settled(a, s.after, Calm))
  }

  function EnsuredCalmly<T>(a: Algebra<T>, s: Step, o: Outcome): T
    requires s.Hooked?
    decreases s, 0, 0
  {
    var step, after := s.step, s.after;
    match o
    case Succeeded => a.both(Passes(a, step, Calm, Succeeded), Passes(a, after, Calm, Succeeded))
    case Failed =>
      a.either(a.both(Passes(a, step, Calm, Failed), a.either(Passes(a, after, Calm, Succeeded), Passes(a, after, Calm, Failed))),
               a.both(Passes(a, step, Calm, Succeeded), Passes(a, after, Calm, Failed)))
    case Errored =>
      a.either(a.both(Passes(a, step, Calm, Errored), Settled(a, after, Calm)),
               a.both(a.either(Passes(a, step, Calm, Succeeded), Passes(a, step, Calm, Failed)), Passes(a, after, Calm, Errored)))
    case _ => a.none
  }

  /** Each step runs if the one before it succeeded. */
  function Sequenced<T>(a: Algebra<T>, steps: seq<Step>, x: Span, o: Outcome): T
    decreases steps, 0
  {
    if steps == [] then if o == Succeeded then a.nothing else a.none
    else
      var first, rest := steps[0], steps[1..];
      var stops := if o == Succeeded then a.none else Passes(a, first, x, o);
      a.either(stops,
        if x.Caught? then
          a.either(a.both(Passes(a, first, Calm, Succeeded), Sequenced(a, rest, x, o)),
                   a.both(Passes(a, first, x, Succeeded), Sequenced(a, rest, Late(x.end), o)))
        else a.both(Passes(a, first, x, Succeeded), Sequenced(a, rest, x, o)))
  }

  // ----- branches -----

  /** A branch whose end counts as at most this: a success, a failure or abort, an error. */
  function AtMost<T>(a: Algebra<T>, s: Step, x: Span, worst: Outcome): T
    decreases s, 4
  {
    if worst == Succeeded then Passes(a, s, x, Succeeded)
    else if worst == Failed then
      a.either(Passes(a, s, x, Succeeded), a.either(Passes(a, s, x, Failed), Passes(a, s, x, Aborted)))
    else Whatever(a, s, x)
  }

  function Exactly<T>(a: Algebra<T>, s: Step, x: Span, worst: Outcome): T
    decreases s, 4
  {
    if worst == Succeeded then Passes(a, s, x, Succeeded)
    else if worst == Failed then a.either(Passes(a, s, x, Failed), Passes(a, s, x, Aborted))
    else a.either(Passes(a, s, x, Errored), Passes(a, s, x, TimedOut))
  }

  /** All branches run to their ends undisturbed; `due` while the worst is still to come. */
  function AllRun<T>(a: Algebra<T>, steps: seq<Step>, worst: Outcome, due: bool): T
    decreases steps, 0
  {
    if steps == [] then if due then a.none else a.nothing
    else
      var first, rest := steps[0], steps[1..];
      var goesOn := a.both(AtMost(a, first, Calm, worst), AllRun(a, rest, worst, due));
      if due then a.either(goesOn, a.both(Exactly(a, first, Calm, worst), AllRun(a, rest, worst, false))) else goesOn
  }

  /**
    How branches fare when their context ends: the slots still free, why it ended, whether they fail
    fast, whether the branch that failed is still to come, the worst end among them, and whether it
    is still due.
   */
  datatype Cut = Cut(slots: nat, end: End, failFast: bool, failing: bool, worst: Outcome, due: bool)

  /**
    The branches' context ends.  Branches start in order while slots are free.  Each has ended by
    then, or is caught in its slot; the rest never starts.  When branches fail fast, those that
    ended succeeded, but for the one that ended the context, which holds its slot too.
   */
  function CutShort<T>(a: Algebra<T>, steps: seq<Step>, c: Cut): T
    decreases steps, 1
  {
    var stop := if c.failing || c.due then a.none else a.nothing;
    if steps == [] || c.slots == 0 then stop
    else a.either(a.either(stop, FirstEnded(a, steps, c)), a.either(FirstCaught(a, steps, c), FirstFailed(a, steps, c)))
  }

  function FirstEnded<T>(a: Algebra<T>, steps: seq<Step>, c: Cut): T
    requires steps != [] && c.slots > 0
    decreases steps, 0
  {
    a.both(AtMost(a, steps[0], Calm, if c.failFast then Succeeded else c.worst), CutShort(a, steps[1..], c))
  }

  function FirstCaught<T>(a: Algebra<T>, steps: seq<Step>, c: Cut): T
    requires steps != [] && c.slots > 0
    decreases steps, 0
  {
    var fewer := c.(slots := c.slots - 1);
    var anyhow := a.both(AtMost(a, steps[0], Caught(c.end), c.worst), CutShort(a, steps[1..], fewer));
    if !c.due then anyhow
    else a.either(anyhow, a.both(Exactly(a, steps[0], Caught(c.end), c.worst), CutShort(a, steps[1..], fewer.(due := false))))
  }

  function FirstFailed<T>(a: Algebra<T>, steps: seq<Step>, c: Cut): T
    requires steps != [] && c.slots > 0
    decreases steps, 0
  {
    var others := c.(slots := c.slots - 1, failing := false);
    if !c.failing then a.none
    else
      a.either(a.both(Passes(a, steps[0], Calm, Failed), CutShort(a, steps[1..], others)),
               if c.worst != Errored then a.none
               else a.both(Passes(a, steps[0], Calm, Errored), CutShort(a, steps[1..], others.(due := false))))
  }

  /** Branches whose context is not ended from outside. */
  function Together<T>(a: Algebra<T>, steps: seq<Step>, slots: nat, failFast: bool, o: Outcome): T
    decreases steps, 2
  {
    match o
    case Succeeded => AllRun(a, steps, Succeeded, false)
    case Failed =>
      if failFast then CutShort(a, steps, Cut(slots, Cancellation, true, true, Failed, false))
      else AllRun(a, steps, Failed, true)
    case Errored =>
      if failFast then CutShort(a, steps, Cut(slots, Cancellation, true, true, Errored, true))
      else AllRun(a, steps, Errored, true)
    case _ => a.none
  }

  /** An ended context is what is reported, whatever the branches did. */
  function Parallel<T>(a: Algebra<T>, steps: seq<Step>, slots: nat, failFast: bool, x: Span, o: Outcome): T
    decreases steps, 3
  {
    match x
    case Calm => Together(a, steps, slots, failFast, o)
    case Caught(e) =>
      if o != Reported(e) then Together(a, steps, slots, failFast, o)
      else
        var cut := CutShort(a, steps, Cut(slots, e, failFast, false, Errored, false));
        if failFast then a.either(cut, CutShort(a, steps, Cut(slots, Cancellation, true, true, Errored, false))) else cut
    case Late(e) => if o == Reported(e) then a.nothing else a.none
  }

  // ----- builds and cells -----

  /** One build of a job; an abort may end its context at any time. */
  function Built<T>(a: Algebra<T>, job: Step, ok: bool): T {
    var x := Caught(Cancellation);
    var late := Late(Cancellation);
    if ok then a.either(Passes(a, job, Calm, Succeeded), a.either(Passes(a, job, x, Succeeded), Passes(a, job, late, Succeeded)))
    else a.either(Lost(a, job, Calm), a.either(Lost(a, job, x), Lost(a, job, late)))
  }

  function Lost<T>(a: Algebra<T>, job: Step, x: Span): T {
    a.either(Passes(a, job, x, Failed), a.either(Passes(a, job, x, Errored), Passes(a, job, x, Aborted)))
  }

  /** A run builds every job, and succeeds if all builds do. */
  function Ran<T>(a: Algebra<T>, jobs: Config, ok: bool): T {
    if jobs == [] then if ok then a.nothing else a.none
    else
      var first, rest := jobs[0], jobs[1..];
      if ok then a.both(Built(a, first, true), Ran(a, rest, true))
      else a.either(a.both(Built(a, first, false), a.either(Ran(a, rest, true), Ran(a, rest, false))),
                    a.both(Built(a, first, true), Ran(a, rest, false)))
  }

  /** The evaluator may run once the candidate's run has succeeded. */
  function CellRuns<T>(a: Algebra<T>, candidate: Config, evaluator: Config): T {
    a.either(Ran(a, candidate, false), a.both(Ran(a, candidate, true), Evaluated(a, evaluator)))
  }

  function Evaluated<T>(a: Algebra<T>, evaluator: Config): T {
    a.either(a.nothing, a.either(Ran(a, evaluator, true), Ran(a, evaluator, false)))
  }

  // ----- the two readings -----

  ghost function Sums(a: iset<real>, b: iset<real>): iset<real> { iset m, n | m in a && n in b :: m + n }

  predicate Affords(limit: real, m: real) { 0.0 <= m <= limit }

  ghost function UpTo(limit: real): iset<real> { iset m: real | Affords(limit, m) }

  /** All amounts. */
  ghost function Amounts(): Algebra<iset<real>> {
    Algebra(iset{}, iset{0.0}, limit => UpTo(limit), (a, b) => a + b, (a, b) => Sums(a, b))
  }

  function Larger(a: Option<real>, b: Option<real>): Option<real> {
    if a.None? then b else if b.None? then a else if a.value < b.value then b else a
  }

  function Plus(a: Option<real>, b: Option<real>): Option<real> {
    if a.None? || b.None? then None else Some(a.value + b.value)
  }

  /** The largest amount, if there is any. */
  function Largest(): Algebra<Option<real>> {
    Algebra(None, Some(0.0), (limit: real) => if limit < 0.0 then None else Some(limit), Larger, Plus)
  }

  // ----- the largest amount is the largest of all amounts -----

  /** The amount is the greatest element of the set, none of the empty set. */
  ghost predicate IsMaximum(all: iset<real>, most: Option<real>) {
    && (forall m :: m in all ==> most.Some? && m <= most.value)
    && (most.Some? ==> most.value in all)
  }

  /** Operations that keep a relation between what two algebras compute. */
  ghost predicate Agree<T(!new), U(!new)>(r: (T, U) -> bool, a: Algebra<T>, b: Algebra<U>) {
    && r(a.none, b.none) && r(a.nothing, b.nothing)
    && (forall limit :: r(a.upTo(limit), b.upTo(limit)))
    && (forall t, u, v, w {:trigger a.either(t, v), b.either(u, w)} :: r(t, u) && r(v, w) ==> r(a.either(t, v), b.either(u, w)))
    && (forall t, u, v, w {:trigger a.both(t, v), b.both(u, w)} :: r(t, u) && r(v, w) ==> r(a.both(t, v), b.both(u, w)))
  }

  /** The passes over a step are related throughout. */
  ghost predicate Alike<T(!new), U(!new)>(r: (T, U) -> bool, a: Algebra<T>, b: Algebra<U>, s: Step) {
    forall x, o :: r(Passes(a, s, x, o), Passes(b, s, x, o))
  }

  lemma {:induction false} PassesAlike<T(!new), U(!new)>(r: (T, U) -> bool, a: Algebra<T>, b: Algebra<U>, s: Step)
    requires Agree(r, a, b)
    ensures Alike(r, a, b, s)
    decreases s
  {
    match s
    case Agent(_) => LeafAlike(r, a, b, s);
    case PublishSnapshot => LeafAlike(r, a, b, s);
    case Plain => LeafAlike(r, a, b, s);
    case Try(step) => PassesAlike(r, a, b, step); TryAlike(r, a, b, step);
    case Timeout(step) => PassesAlike(r, a, b, step); TimeoutAlike(r, a, b, step);
    case Do(steps) => SequencedAlike(r, a, b, steps);
    case InParallel(steps, limit, failFast) => BranchesAlike(r, a, b, s);
    case Across(_) =>
    case Retry(_) =>
    case Hooked(_, step, after) =>
      PassesAlike(r, a, b, step);
      PassesAlike(r, a, b, after);
      HookedAlike(r, a, b, s);
  }

  lemma LeafAlike<T(!new), U(!new)>(r: (T, U) -> bool, a: Algebra<T>, b: Algebra<U>, s: Step)
    requires Agree(r, a, b) && (s.Agent? || s.PublishSnapshot? || s.Plain?)
    ensures Alike(r, a, b, s)
  {
  }

  lemma SettledAlike<T(!new), U(!new)>(r: (T, U) -> bool, a: Algebra<T>, b: Algebra<U>, s: Step, x: Span)
    requires Agree(r, a, b) && Alike(r, a, b, s)
    ensures r(Settled(a, s, x), Settled(b, s, x)) && r(Whatever(a, s, x), Whatever(b, s, x))
  {
  }

  lemma TryAlike<T(!new), U(!new)>(r: (T, U) -> bool, a: Algebra<T>, b: Algebra<U>, step: Step)
    requires Agree(r, a, b) && Alike(r, a, b, step)
    ensures Alike(r, a, b, Try(step))
  {
    forall x, o
      ensures r(Passes(a, Try(step), x, o), Passes(b, Try(step), x, o))
    {
      SettledAlike(r, a, b, step, x);
    }
  }

  lemma TimedAlike<T(!new), U(!new)>(r: (T, U) -> bool, a: Algebra<T>, b: Algebra<U>, s: Step, x: Span, o: Outcome)
    requires Agree(r, a, b) && Alike(r, a, b, s)
    ensures r(Timed(a, s, x, o), Timed(b, s, x, o))
  {
  }

  lemma TimeoutAlike<T(!new), U(!new)>(r: (T, U) -> bool, a: Algebra<T>, b: Algebra<U>, step: Step)
    requires Agree(r, a, b) && Alike(r, a, b, step)
    ensures Alike(r, a, b, Timeout(step))
  {
    forall x, o
      ensures r(Passes(a, Timeout(step), x, o), Passes(b, Timeout(step), x, o))
    {
      TimedAlike(r, a, b, step, x, o);
      TimedAlike(r, a, b, step, Caught(Deadline), o);
    }
  }

  lemma HookedAlike<T(!new), U(!new)>(r: (T, U) -> bool, a: Algebra<T>, b: Algebra<U>, s: Step)
    requires Agree(r, a, b) && s.Hooked? && Alike(r, a, b, s.step) && Alike(r, a, b, s.after)
    ensures Alike(r, a, b, s)
  {
    forall x, o
      ensures r(Passes(a, s, x, o), Passes(b, s, x, o))
    {
      if s.hook == OnAbort || s.hook == OnError {
        SettledAlike(r, a, b, s.after, Calm);
      } else if s.hook == Ensure {
        EnsuredAlike(r, a, b, s, x, o);
      } else {
        ChainedAlike(r, a, b, s, x);
      }
    }
  }

  lemma ChainedAlike<T(!new), U(!new)>(r: (T, U) -> bool, a: Algebra<T>, b: Algebra<U>, s: Step, x: Span)
    requires Agree(r, a, b) && s.Hooked? && Alike(r, a, b, s.step) && Alike(r, a, b, s.after)
    ensures forall first, o :: r(Chained(a, s, first, x, o), Chained(b, s, first, x, o))
  {
  }

  lemma EnsuredAlike<T(!new), U(!new)>(r: (T, U) -> bool, a: Algebra<T>, b: Algebra<U>, s: Step, x: Span, o: Outcome)
    requires Agree(r, a, b) && s.Hooked? && Alike(r, a, b, s.step) && Alike(r, a, b, s.after)
    ensures r(Ensured(a, s, x, o), Ensured(b, s, x, o))
  {
    SettledAlike(r, a, b, s.step, x);
    SettledAlike(r, a, b, s.step, Calm);
    SettledAlike(r, a, b, s.after, x);
    SettledAlike(r, a, b, s.after, Calm);
    EnsuredCalmlyAlike(r, a, b, s, o);
  }

  lemma EnsuredCalmlyAlike<T(!new), U(!new)>(r: (T, U) -> bool, a: Algebra<T>, b: Algebra<U>, s: Step, o: Outcome)
    requires Agree(r, a, b) && s.Hooked? && Alike(r, a, b, s.step) && Alike(r, a, b, s.after)
    ensures r(EnsuredCalmly(a, s, o), EnsuredCalmly(b, s, o))
  {
    SettledAlike(r, a, b, s.after, Calm);
  }

  lemma {:induction false} SequencedAlike<T(!new), U(!new)>(r: (T, U) -> bool, a: Algebra<T>, b: Algebra<U>, steps: seq<Step>)
    requires Agree(r, a, b)
    ensures forall x, o :: r(Sequenced(a, steps, x, o), Sequenced(b, steps, x, o))
    decreases steps
  {
    if steps != [] {
      PassesAlike(r, a, b, steps[0]);
      SequencedAlike(r, a, b, steps[1..]);
      forall x, o
        ensures r(Sequenced(a, steps, x, o), Sequenced(b, steps, x, o))
      {
        SequencedStepAlike(r, a, b, steps, x, o);
      }
    }
  }

  lemma SequencedStepAlike<T(!new), U(!new)>(r: (T, U) -> bool, a: Algebra<T>, b: Algebra<U>, steps: seq<Step>, x: Span,
      o: Outcome)
    requires Agree(r, a, b) && steps != [] && Alike(r, a, b, steps[0])
    requires forall y, p :: r(Sequenced(a, steps[1..], y, p), Sequenced(b, steps[1..], y, p))
    ensures r(Sequenced(a, steps, x, o), Sequenced(b, steps, x, o))
  {
  }

  lemma {:induction false} BranchesAlike<T(!new), U(!new)>(r: (T, U) -> bool, a: Algebra<T>, b: Algebra<U>, s: Step)
    requires Agree(r, a, b) && s.InParallel?
    ensures Alike(r, a, b, s)
    decreases s, 0
  {
    AllRunAlike(r, a, b, s.steps);
    CutShortAlike(r, a, b, s.steps);
    var slots := if s.limit < 1 then |s.steps| else s.limit;
    forall x, o
      ensures r(Passes(a, s, x, o), Passes(b, s, x, o))
    {
      ParallelAlike(r, a, b, s.steps, slots, s.failFast, x, o);
    }
  }

  ghost predicate AllAlike<T(!new), U(!new)>(r: (T, U) -> bool, a: Algebra<T>, b: Algebra<U>, steps: seq<Step>) {
    forall worst, due :: r(AllRun(a, steps, worst, due), AllRun(b, steps, worst, due))
  }

  lemma TogetherAlike<T(!new), U(!new)>(r: (T, U) -> bool, a: Algebra<T>, b: Algebra<U>, steps: seq<Step>, slots: nat,
      failFast: bool, o: Outcome)
    requires Agree(r, a, b) && AllAlike(r, a, b, steps) && CutAlike(r, a, b, steps)
    ensures r(Together(a, steps, slots, failFast, o), Together(b, steps, slots, failFast, o))
  {
  }

  lemma ParallelAlike<T(!new), U(!new)>(r: (T, U) -> bool, a: Algebra<T>, b: Algebra<U>, steps: seq<Step>, slots: nat,
      failFast: bool, x: Span, o: Outcome)
    requires Agree(r, a, b) && AllAlike(r, a, b, steps) && CutAlike(r, a, b, steps)
    ensures r(Parallel(a, steps, slots, failFast, x, o), Parallel(b, steps, slots, failFast, x, o))
  {
    TogetherAlike(r, a, b, steps, slots, failFast, o);
  }

  lemma BranchAlike<T(!new), U(!new)>(r: (T, U) -> bool, a: Algebra<T>, b: Algebra<U>, s: Step, x: Span, worst: Outcome)
    requires Agree(r, a, b) && Alike(r, a, b, s)
    ensures r(AtMost(a, s, x, worst), AtMost(b, s, x, worst)) && r(Exactly(a, s, x, worst), Exactly(b, s, x, worst))
  {
    SettledAlike(r, a, b, s, x);
    ExactlyAlike(r, a, b, s, x, worst);
  }

  lemma ExactlyAlike<T(!new), U(!new)>(r: (T, U) -> bool, a: Algebra<T>, b: Algebra<U>, s: Step, x: Span, worst: Outcome)
    requires Agree(r, a, b) && Alike(r, a, b, s)
    ensures r(Exactly(a, s, x, worst), Exactly(b, s, x, worst))
  {
  }

  lemma {:induction false} AllRunAlike<T(!new), U(!new)>(r: (T, U) -> bool, a: Algebra<T>, b: Algebra<U>, steps: seq<Step>)
    requires Agree(r, a, b)
    ensures AllAlike(r, a, b, steps)
    decreases steps
  {
    if steps != [] {
      PassesAlike(r, a, b, steps[0]);
      AllRunAlike(r, a, b, steps[1..]);
      forall worst, due
        ensures r(AllRun(a, steps, worst, due), AllRun(b, steps, worst, due))
      {
        BranchAlike(r, a, b, steps[0], Calm, worst);
      }
    }
  }

  ghost predicate CutAlike<T(!new), U(!new)>(r: (T, U) -> bool, a: Algebra<T>, b: Algebra<U>, steps: seq<Step>) {
    forall c :: r(CutShort(a, steps, c), CutShort(b, steps, c))
  }

  lemma {:induction false} CutShortAlike<T(!new), U(!new)>(r: (T, U) -> bool, a: Algebra<T>, b: Algebra<U>, steps: seq<Step>)
    requires Agree(r, a, b)
    ensures CutAlike(r, a, b, steps)
    decreases steps
  {
    if steps != [] {
      PassesAlike(r, a, b, steps[0]);
      CutShortAlike(r, a, b, steps[1..]);
      forall c
        ensures r(CutShort(a, steps, c), CutShort(b, steps, c))
      {
        if c.slots > 0 {
          FirstEndedAlike(r, a, b, steps, c);
          FirstCaughtAlike(r, a, b, steps, c);
          FirstFailedAlike(r, a, b, steps, c);
        }
      }
    }
  }

  lemma FirstEndedAlike<T(!new), U(!new)>(r: (T, U) -> bool, a: Algebra<T>, b: Algebra<U>, steps: seq<Step>, c: Cut)
    requires Agree(r, a, b) && steps != [] && c.slots > 0 && Alike(r, a, b, steps[0]) && CutAlike(r, a, b, steps[1..])
    ensures r(FirstEnded(a, steps, c), FirstEnded(b, steps, c))
  {
    BranchAlike(r, a, b, steps[0], Calm, if c.failFast then Succeeded else c.worst);
  }

  lemma FirstCaughtAlike<T(!new), U(!new)>(r: (T, U) -> bool, a: Algebra<T>, b: Algebra<U>, steps: seq<Step>, c: Cut)
    requires Agree(r, a, b) && steps != [] && c.slots > 0 && Alike(r, a, b, steps[0]) && CutAlike(r, a, b, steps[1..])
    ensures r(FirstCaught(a, steps, c), FirstCaught(b, steps, c))
  {
    BranchAlike(r, a, b, steps[0], Caught(c.end), c.worst);
  }

  lemma FirstFailedAlike<T(!new), U(!new)>(r: (T, U) -> bool, a: Algebra<T>, b: Algebra<U>, steps: seq<Step>, c: Cut)
    requires Agree(r, a, b) && steps != [] && c.slots > 0 && Alike(r, a, b, steps[0]) && CutAlike(r, a, b, steps[1..])
    ensures r(FirstFailed(a, steps, c), FirstFailed(b, steps, c))
  {
  }

  lemma BuiltAlike<T(!new), U(!new)>(r: (T, U) -> bool, a: Algebra<T>, b: Algebra<U>, job: Step, ok: bool)
    requires Agree(r, a, b)
    ensures r(Built(a, job, ok), Built(b, job, ok))
  {
    PassesAlike(r, a, b, job);
    LostAlike(r, a, b, job, Calm);
    LostAlike(r, a, b, job, Caught(Cancellation));
    LostAlike(r, a, b, job, Late(Cancellation));
  }

  lemma LostAlike<T(!new), U(!new)>(r: (T, U) -> bool, a: Algebra<T>, b: Algebra<U>, job: Step, x: Span)
    requires Agree(r, a, b) && Alike(r, a, b, job)
    ensures r(Lost(a, job, x), Lost(b, job, x))
  {
  }

  lemma {:induction false} RanAlike<T(!new), U(!new)>(r: (T, U) -> bool, a: Algebra<T>, b: Algebra<U>, jobs: Config, ok: bool)
    requires Agree(r, a, b)
    ensures r(Ran(a, jobs, ok), Ran(b, jobs, ok))
  {
    if jobs != [] {
      BuiltAlike(r, a, b, jobs[0], true);
      BuiltAlike(r, a, b, jobs[0], false);
      RanAlike(r, a, b, jobs[1..], true);
      RanAlike(r, a, b, jobs[1..], false);
    }
  }

  lemma CellAlike<T(!new), U(!new)>(r: (T, U) -> bool, a: Algebra<T>, b: Algebra<U>, candidate: Config, evaluator: Config)
    requires Agree(r, a, b)
    ensures r(CellRuns(a, candidate, evaluator), CellRuns(b, candidate, evaluator))
  {
    RanAlike(r, a, b, candidate, true);
    RanAlike(r, a, b, candidate, false);
    RanAlike(r, a, b, evaluator, true);
    RanAlike(r, a, b, evaluator, false);
  }

  // ----- the two readings agree -----

  lemma MaximumOfEither(a: iset<real>, b: iset<real>, m: Option<real>, n: Option<real>)
    requires IsMaximum(a, m) && IsMaximum(b, n)
    ensures IsMaximum(a + b, Larger(m, n))
  {
  }

  lemma MaximumOfSums(a: iset<real>, b: iset<real>, m: Option<real>, n: Option<real>)
    requires IsMaximum(a, m) && IsMaximum(b, n)
    ensures IsMaximum(Sums(a, b), Plus(m, n))
  {
  }

  lemma ReadingsAgree()
    ensures Agree(IsMaximum, Amounts(), Largest())
  {
    var r, a, b := IsMaximum, Amounts(), Largest();
    forall limit: real
      ensures r(a.upTo(limit), b.upTo(limit))
    {
      if limit >= 0.0 { assert Affords(limit, limit); }
    }
    forall t, u, v, w | r(t, u) && r(v, w)
      ensures r(a.either(t, v), b.either(u, w)) && r(a.both(t, v), b.both(u, w))
    {
      MaximumOfEither(t, v, u, w);
      MaximumOfSums(t, v, u, w);
    }
  }

  /** What passes over a step may spend. */
  ghost function Spends(s: Step, x: Span, o: Outcome): iset<real> { Passes(Amounts(), s, x, o) }

  /** The most one can spend, if it can end so. */
  function Most(s: Step, x: Span, o: Outcome): Option<real> { Passes(Largest(), s, x, o) }

  ghost function CellSpends(candidate: Config, evaluator: Config): iset<real> { CellRuns(Amounts(), candidate, evaluator) }

  function MostOfCell(candidate: Config, evaluator: Config): Option<real> { CellRuns(Largest(), candidate, evaluator) }

  /** No pass spends more than the most, and one spends just that. */
  lemma MostIsAttained(s: Step, x: Span, o: Outcome)
    ensures IsMaximum(Spends(s, x, o), Most(s, x, o))
  {
    ReadingsAgree();
    PassesAlike(IsMaximum, Amounts(), Largest(), s);
  }

  lemma MostOfCellIsAttained(candidate: Config, evaluator: Config)
    ensures IsMaximum(CellSpends(candidate, evaluator), MostOfCell(candidate, evaluator))
  {
    ReadingsAgree();
    CellAlike(IsMaximum, Amounts(), Largest(), candidate, evaluator);
  }

  // ----- a context may end at any moment -----

  /** An order that the operations of an algebra keep. */
  ghost predicate Ordered<T(!new)>(r: (T, T) -> bool, a: Algebra<T>) {
    && (forall t {:trigger r(t, t)} :: r(t, t))
    && (forall t {:trigger r(a.none, t)} :: r(a.none, t))
    && (forall limit {:trigger a.upTo(limit)} :: 0.0 <= limit ==> r(a.nothing, a.upTo(limit)))
    && (forall t, u, v {:trigger r(t, a.either(u, v))} :: r(t, u) || r(t, v) ==> r(t, a.either(u, v)))
    && (forall t, u, v, w {:trigger r(a.either(t, v), a.either(u, w))} :: r(t, u) && r(v, w) ==> r(a.either(t, v), a.either(u, w)))
    && (forall t, u, v, w {:trigger r(a.both(t, v), a.both(u, w))} :: r(t, u) && r(v, w) ==> r(a.both(t, v), a.both(u, w)))
  }

  /** Passes whose context ends after the step, or had ended before it, are among those whose context ends within. */
  ghost predicate EndsWithin<T(!new)>(r: (T, T) -> bool, a: Algebra<T>, s: Step, e: End) {
    forall o :: OutcomeWithin(r, a, s, e, o)
  }

  ghost predicate OutcomeWithin<T(!new)>(r: (T, T) -> bool, a: Algebra<T>, s: Step, e: End, o: Outcome) {
    r(Passes(a, s, Calm, o), Passes(a, s, Caught(e), o)) && r(Passes(a, s, Late(e), o), Passes(a, s, Caught(e), o))
  }

  lemma {:induction false} PassesWithin<T(!new)>(r: (T, T) -> bool, a: Algebra<T>, s: Step, e: End)
    requires Ordered(r, a) && Tame(Visits(s))
    ensures EndsWithin(r, a, s, e)
    decreases s
  {
    RepeatsAreNotTame(s);
    match s
    case Agent(slice) =>
      assert Visits(s)[0] == OnAgent(slice);
      LeafWithin(r, a, s, e);
    case PublishSnapshot => LeafWithin(r, a, s, e);
    case Plain => LeafWithin(r, a, s, e);
    case Try(step) => PassesWithin(r, a, step, e); TryWithin(r, a, step, e);
    case Timeout(step) => PassesWithin(r, a, step, e); TimeoutWithin(r, a, step, e);
    case Do(steps) => SequenceWithin(r, a, steps, e); DoWithin(r, a, steps, e);
    case InParallel(steps, _, _) => ParallelWithin(r, a, s, e);
    case Hooked(hook, step, after) =>
      TameConcat(Visits(step), Visits(after));
      PassesWithin(r, a, step, e);
      PassesWithin(r, a, after, e);
      HookedWithin(r, a, s, e);
  }

  lemma LeafWithin<T(!new)>(r: (T, T) -> bool, a: Algebra<T>, s: Step, e: End)
    requires Ordered(r, a) && (s.Agent? || s.PublishSnapshot? || s.Plain?) && (s.Agent? ==> Exact(s.sliceUSD) >= 0.0)
    ensures EndsWithin(r, a, s, e)
  {
  }

  lemma EitherWithin<T(!new)>(r: (T, T) -> bool, a: Algebra<T>, t: T, u: T, v: T, w: T)
    requires Ordered(r, a) && r(t, u) && r(v, w)
    ensures r(a.either(t, v), a.either(u, w))
  {
  }

  lemma TryWithin<T(!new)>(r: (T, T) -> bool, a: Algebra<T>, step: Step, e: End)
    requires Ordered(r, a) && EndsWithin(r, a, step, e)
    ensures EndsWithin(r, a, Try(step), e)
  {
    SettledWithin(r, a, step, e);
    assert OutcomeWithin(r, a, step, e, TimedOut) && OutcomeWithin(r, a, step, e, Aborted) && r(a.none, a.none);
    var caught, late := Caught(e), Late(e);
    EitherWithin(r, a, Settled(a, step, Calm), Settled(a, step, caught), Passes(a, step, Calm, TimedOut), Passes(a, step, caught, TimedOut));
    EitherWithin(r, a, Settled(a, step, late), Settled(a, step, caught), Passes(a, step, late, TimedOut), Passes(a, step, caught, TimedOut));
    TryOutcomesWithin(r, a, step, e);
  }

  lemma TryOutcomesWithin<T(!new)>(r: (T, T) -> bool, a: Algebra<T>, step: Step, e: End)
    requires OutcomeWithin(r, a, step, e, Aborted) && r(a.none, a.none)
    requires r(Passes(a, Try(step), Calm, Succeeded), Passes(a, Try(step), Caught(e), Succeeded))
    requires r(Passes(a, Try(step), Late(e), Succeeded), Passes(a, Try(step), Caught(e), Succeeded))
    ensures EndsWithin(r, a, Try(step), e)
  {
  }

  lemma SettledWithin<T(!new)>(r: (T, T) -> bool, a: Algebra<T>, s: Step, e: End)
    requires Ordered(r, a) && EndsWithin(r, a, s, e)
    ensures r(Settled(a, s, Calm), Settled(a, s, Caught(e))) && r(Settled(a, s, Late(e)), Settled(a, s, Caught(e)))
    ensures r(Whatever(a, s, Late(e)), Whatever(a, s, Caught(e)))
  {
    assert OutcomeWithin(r, a, s, e, Succeeded) && OutcomeWithin(r, a, s, e, Failed) && OutcomeWithin(r, a, s, e, Errored);
    assert OutcomeWithin(r, a, s, e, Aborted) && OutcomeWithin(r, a, s, e, TimedOut);
  }

  lemma TimeoutWithin<T(!new)>(r: (T, T) -> bool, a: Algebra<T>, step: Step, e: End)
    requires Ordered(r, a) && EndsWithin(r, a, step, e)
    ensures EndsWithin(r, a, Timeout(step), e)
  {
    forall o
      ensures OutcomeWithin(r, a, Timeout(step), e, o)
    {
      assert OutcomeWithin(r, a, step, e, o) && OutcomeWithin(r, a, step, e, TimedOut);
      assert r(Timed(a, step, Calm, o), Timed(a, step, Caught(e), o));
      assert r(Timed(a, step, Late(e), o), Timed(a, step, Caught(e), o));
    }
  }

  lemma HookedWithin<T(!new)>(r: (T, T) -> bool, a: Algebra<T>, s: Step, e: End)
    requires Ordered(r, a) && s.Hooked? && EndsWithin(r, a, s.step, e) && EndsWithin(r, a, s.after, e)
    ensures EndsWithin(r, a, s, e)
  {
    forall o
      ensures OutcomeWithin(r, a, s, e, o)
    {
      assert OutcomeWithin(r, a, s.step, e, o);
      if s.hook == Ensure {
        EnsuredWithin(r, a, s, e, o);
      } else if s.hook == OnSuccess {
        ChainedWithin(r, a, s, e, Succeeded, o);
      } else if s.hook == OnFailure {
        ChainedWithin(r, a, s, e, Failed, o);
        ChainedWithin(r, a, s, e, Failed, Succeeded);
      }
    }
  }

  lemma ChainedWithin<T(!new)>(r: (T, T) -> bool, a: Algebra<T>, s: Step, e: End, first: Outcome, o: Outcome)
    requires Ordered(r, a) && s.Hooked? && EndsWithin(r, a, s.step, e) && EndsWithin(r, a, s.after, e)
    ensures r(Chained(a, s, first, Calm, o), Chained(a, s, first, Caught(e), o))
    ensures r(Chained(a, s, first, Late(e), o), Chained(a, s, first, Caught(e), o))
  {
    assert OutcomeWithin(r, a, s.step, e, first) && OutcomeWithin(r, a, s.after, e, o);
  }

  lemma EnsuredWithin<T(!new)>(r: (T, T) -> bool, a: Algebra<T>, s: Step, e: End, o: Outcome)
    requires Ordered(r, a) && s.Hooked? && EndsWithin(r, a, s.step, e)
    ensures r(Ensured(a, s, Calm, o), Ensured(a, s, Caught(e), o))
    ensures r(Ensured(a, s, Late(e), o), Ensured(a, s, Caught(e), o))
  {
    SettledWithin(r, a, s.step, e);
  }

  ghost predicate SequencedWithin<T(!new)>(r: (T, T) -> bool, a: Algebra<T>, steps: seq<Step>, e: End, o: Outcome) {
    && r(Sequenced(a, steps, Calm, o), Sequenced(a, steps, Caught(e), o))
    && r(Sequenced(a, steps, Late(e), o), Sequenced(a, steps, Caught(e), o))
  }

  lemma {:induction false} SequenceWithin<T(!new)>(r: (T, T) -> bool, a: Algebra<T>, steps: seq<Step>, e: End)
    requires Ordered(r, a) && Tame(VisitsAll(steps))
    ensures forall o :: SequencedWithin(r, a, steps, e, o)
    decreases steps
  {
    if steps != [] {
      FirstIsTame(steps);
      PassesWithin(r, a, steps[0], e);
      SequenceWithin(r, a, steps[1..], e);
      forall o
        ensures SequencedWithin(r, a, steps, e, o)
      {
        SequencedStepWithin(r, a, steps, e, o);
      }
    }
  }

  lemma SequencedStepWithin<T(!new)>(r: (T, T) -> bool, a: Algebra<T>, steps: seq<Step>, e: End, o: Outcome)
    requires Ordered(r, a) && steps != [] && EndsWithin(r, a, steps[0], e) && SequencedWithin(r, a, steps[1..], e, o)
    ensures SequencedWithin(r, a, steps, e, o)
  {
    assert OutcomeWithin(r, a, steps[0], e, o) && OutcomeWithin(r, a, steps[0], e, Succeeded);
  }

  lemma DoWithin<T(!new)>(r: (T, T) -> bool, a: Algebra<T>, steps: seq<Step>, e: End)
    requires forall o :: SequencedWithin(r, a, steps, e, o)
    ensures EndsWithin(r, a, Do(steps), e)
  {
    forall o
      ensures OutcomeWithin(r, a, Do(steps), e, o)
    {
      assert SequencedWithin(r, a, steps, e, o);
    }
  }

  lemma ParallelWithin<T(!new)>(r: (T, T) -> bool, a: Algebra<T>, s: Step, e: End)
    requires Ordered(r, a) && s.InParallel?
    ensures EndsWithin(r, a, s, e)
  {
    var slots := if s.limit < 1 then |s.steps| else s.limit;
    forall o
      ensures OutcomeWithin(r, a, s, e, o)
    {
      BranchesWithin(r, a, s.steps, slots, s.failFast, e, o);
    }
  }

  lemma BranchesWithin<T(!new)>(r: (T, T) -> bool, a: Algebra<T>, steps: seq<Step>, slots: nat, failFast: bool, e: End, o: Outcome)
    requires Ordered(r, a)
    ensures r(Parallel(a, steps, slots, failFast, Calm, o), Parallel(a, steps, slots, failFast, Caught(e), o))
    ensures r(Parallel(a, steps, slots, failFast, Late(e), o), Parallel(a, steps, slots, failFast, Caught(e), o))
  {
    NoneStarts(r, a, steps, Cut(slots, e, failFast, false, Errored, false));
  }

  lemma NoneStarts<T(!new)>(r: (T, T) -> bool, a: Algebra<T>, steps: seq<Step>, c: Cut)
    requires Ordered(r, a) && !c.failing && !c.due
    ensures r(a.nothing, CutShort(a, steps, c))
  {
  }

  /** Whenever the context ends, the amounts are among those of a context that ends within the step. */
  lemma EndMayComeAnytime(s: Step, e: End, o: Outcome)
    requires Tame(Visits(s))
    ensures Spends(s, Calm, o) <= Spends(s, Caught(e), o) && Spends(s, Late(e), o) <= Spends(s, Caught(e), o)
  {
    var r := (a: iset<real>, b: iset<real>) => a <= b;
    AmountsAreOrdered(r);
    PassesWithin(r, Amounts(), s, e);
    assert OutcomeWithin(r, Amounts(), s, e, o);
  }

  lemma AmountsAreOrdered(r: (iset<real>, iset<real>) -> bool)
    requires forall a, b :: r(a, b) == (a <= b)
    ensures Ordered(r, Amounts())
  {
    forall limit | 0.0 <= limit
      ensures r(Amounts().nothing, Amounts().upTo(limit))
    {
      assert Affords(limit, 0.0);
    }
  }

  // ----- every pass is an execution -----

  lemma InEither(a: iset<real>, b: iset<real>, m: real)
    ensures m in Amounts().either(a, b) <==> m in a || m in b
  {
  }

  lemma OfBoth(a: iset<real>, b: iset<real>, m: real) returns (p: real, q: real)
    requires m in Amounts().both(a, b)
    ensures p in a && q in b && m == p + q
  {
    p, q :| p in a && q in b && m == p + q;
  }

  lemma OfSettled(s: Step, x: Span, m: real) returns (o: Outcome)
    requires m in Settled(Amounts(), s, x)
    ensures m in Spends(s, x, o)
  {
    o := if m in Spends(s, x, Succeeded) then Succeeded else if m in Spends(s, x, Failed) then Failed else Errored;
  }

  lemma OfWhatever(s: Step, x: Span, m: real) returns (o: Outcome)
    requires m in Whatever(Amounts(), s, x)
    ensures m in Spends(s, x, o)
  {
    if m in Settled(Amounts(), s, x) {
      o := OfSettled(s, x, m);
    } else {
      o := if m in Spends(s, x, Aborted) then Aborted else TimedOut;
    }
  }

  lemma AgentCanSpend(slice: real, m: real, o: Outcome)
    requires 0.0 <= m <= Exact(slice)
    ensures CanSpend(Waiting(Agent(slice)), Finished(o), m)
  {
    var left := Exact(slice);
    CanStep(Waiting(Agent(slice)), Spending(left), Quiet);
    CanStep(Spending(left), Spending(left - m), Spend(m));
    CanChain(Waiting(Agent(slice)), Spending(left), Spending(left - m), 0.0, m);
    CanCut(Spending(left - m), o);
    CanChain(Waiting(Agent(slice)), Spending(left - m), Finished(o), m, 0.0);
  }

  lemma WrappedCanSpend(s: Step, step: Step, inner: Outcome, m: real, o: Outcome)
    requires (s == Try(step) || s == Timeout(step)) && CanSpend(Waiting(step), Finished(inner), m)
    ensures CanSpend(Waiting(s), Finished(o), m)
  {
    ContextsCarry([], Ensure, Plain);
    CanFinishInside(InWrapped(), Waiting(step), inner, m, o);
    CanStep(Waiting(s), Wrapped(Waiting(step)), Quiet);
    CanChain(Waiting(s), Wrapped(Waiting(step)), Finished(o), 0.0, m);
  }

  lemma SequenceStops(first: Step, rest: seq<Step>, inner: Outcome, m: real, o: Outcome)
    requires CanSpend(Waiting(first), Finished(inner), m)
    ensures CanSpend(Sequence(Waiting(first), rest), Finished(o), m)
  {
    ContextsCarry(rest, Ensure, Plain);
    CanFinishInside(InSequence(rest), Waiting(first), inner, m, o);
  }

  lemma SequenceMovesOn(first: Step, rest: seq<Step>, m: real)
    requires CanSpend(Waiting(first), Finished(Succeeded), m)
    ensures CanSpend(Sequence(Waiting(first), rest), Started(rest), m)
  {
    var done := Sequence(Finished(Succeeded), rest);
    ContextsCarry(rest, Ensure, Plain);
    CanSpendInside(InSequence(rest), Waiting(first), Finished(Succeeded), m);
    CanStep(done, Started(rest), Quiet);
    CanChain(Sequence(Waiting(first), rest), done, Started(rest), m, 0.0);
  }

  lemma HookSkipped(s: Step, inner: Outcome, m: real, o: Outcome)
    requires s.Hooked? && CanSpend(Waiting(s.step), Finished(inner), m)
    ensures CanSpend(Waiting(s), Finished(o), m)
  {
    var guarded := Guarded(s.hook, Waiting(s.step), s.after);
    ContextsCarry([], s.hook, s.after);
    CanFinishInside(InGuarded(s.hook, s.after), Waiting(s.step), inner, m, o);
    CanStep(Waiting(s), guarded, Quiet);
    CanChain(Waiting(s), guarded, Finished(o), 0.0, m);
  }

  lemma HookFires(s: Step, inner: Outcome, m: real)
    requires s.Hooked? && Fires(s.hook, inner) && CanSpend(Waiting(s.step), Finished(inner), m)
    ensures CanSpend(Waiting(s), Hooking(Waiting(s.after)), m)
  {
    var guarded, fired := Guarded(s.hook, Waiting(s.step), s.after), Guarded(s.hook, Finished(inner), s.after);
    CanStep(Waiting(s), guarded, Quiet);
    ContextsCarry([], s.hook, s.after);
    CanSpendInside(InGuarded(s.hook, s.after), Waiting(s.step), Finished(inner), m);
    CanChain(Waiting(s), guarded, fired, 0.0, m);
    CanStep(fired, Hooking(Waiting(s.after)), Quiet);
    CanChain(Waiting(s), fired, Hooking(Waiting(s.after)), m, 0.0);
  }

  lemma HookRuns(s: Step, first: Outcome, m: real, second: Outcome, n: real, o: Outcome)
    requires s.Hooked? && Fires(s.hook, first)
    requires CanSpend(Waiting(s.step), Finished(first), m) && CanSpend(Waiting(s.after), Finished(second), n)
    ensures CanSpend(Waiting(s), Finished(o), m + n)
  {
    HookFires(s, first, m);
    ContextsCarry([], s.hook, s.after);
    CanFinishInside(InHooking(), Waiting(s.after), second, n, o);
    CanChain(Waiting(s), Hooking(Waiting(s.after)), Finished(o), m, n);
  }

  /** Whatever a pass spends, some execution of the budget's semantics spends too, with the same end. */
  lemma {:induction false} PassIsExecution(s: Step, x: Span, o: Outcome, m: real)
    requires m in Spends(s, x, o)
    ensures CanSpend(Waiting(s), Finished(o), m)
    decreases s, 1
  {
    match s
    case Agent(slice) =>
      if x.Late? { CanCut(Waiting(s), o); } else { AgentCanSpend(slice, m, o); }
    case PublishSnapshot => CanCut(Waiting(s), o);
    case Plain => CanCut(Waiting(s), o);
    case Try(step) => TryIsExecution(step, x, o, m);
    case Timeout(step) => TimeoutIsExecution(step, x, o, m);
    case Do(steps) =>
      SequencedIsExecution(steps, x, o, m);
      CanStep(Waiting(s), Started(steps), Quiet);
      CanChain(Waiting(s), Started(steps), Finished(o), 0.0, m);
    case InParallel(steps, limit, failFast) =>
      ParallelIsExecution(s, x, o, m);
    case Hooked(hook, step, after) =>
      if hook == Ensure { EnsuredIsExecution(s, x, o, m); } else { HookedIsExecution(s, x, o, m); }
  }

  lemma {:induction false} TryIsExecution(step: Step, x: Span, o: Outcome, m: real)
    requires m in Spends(Try(step), x, o)
    ensures CanSpend(Waiting(Try(step)), Finished(o), m)
    decreases step, 2
  {
    var inner := Aborted;
    if o == Succeeded {
      InEither(Settled(Amounts(), step, x), Spends(step, x, TimedOut), m);
      if m in Spends(step, x, TimedOut) { inner := TimedOut; } else { inner := OfSettled(step, x, m); }
    }
    PassIsExecution(step, x, inner, m);
    WrappedCanSpend(Try(step), step, inner, m, o);
  }

  lemma {:induction false} TimedIsExecution(step: Step, x: Span, o: Outcome, m: real)
    requires m in Timed(Amounts(), step, x, o)
    ensures CanSpend(Waiting(Timeout(step)), Finished(o), m)
    decreases step, 2
  {
    var inner := if m in Spends(step, x, o) then o else TimedOut;
    PassIsExecution(step, x, inner, m);
    WrappedCanSpend(Timeout(step), step, inner, m, o);
  }

  lemma {:induction false} TimeoutIsExecution(step: Step, x: Span, o: Outcome, m: real)
    requires m in Spends(Timeout(step), x, o)
    ensures CanSpend(Waiting(Timeout(step)), Finished(o), m)
    decreases step, 3
  {
    InEither(Timed(Amounts(), step, x, o), Timed(Amounts(), step, Caught(Deadline), o), m);
    if m in Timed(Amounts(), step, x, o) { TimedIsExecution(step, x, o, m); }
    else { TimedIsExecution(step, Caught(Deadline), o, m); }
  }

  lemma {:induction false} SequencedIsExecution(steps: seq<Step>, x: Span, o: Outcome, m: real)
    requires m in Sequenced(Amounts(), steps, x, o)
    ensures CanSpend(Started(steps), Finished(o), m)
    decreases steps, 0
  {
    if steps == [] {
      CanStay(Finished(Succeeded));
    } else {
      var first, rest := steps[0], steps[1..];
      assert Started(steps) == Sequence(Waiting(first), rest);
      if o != Succeeded && m in Spends(first, x, o) {
        PassIsExecution(first, x, o, m);
        SequenceStops(first, rest, o, m, o);
      } else {
        var y, z, p, q := OfSequenced(steps, x, o, m);
        PassIsExecution(first, y, Succeeded, p);
        SequenceMovesOn(first, rest, p);
        SequencedIsExecution(rest, z, o, q);
        CanChain(Started(steps), Started(rest), Finished(o), p, q);
      }
    }
  }

  lemma OfSequenced(steps: seq<Step>, x: Span, o: Outcome, m: real) returns (y: Span, z: Span, p: real, q: real)
    requires steps != [] && m in Sequenced(Amounts(), steps, x, o)
    requires o == Succeeded || m !in Spends(steps[0], x, o)
    ensures p in Spends(steps[0], y, Succeeded) && q in Sequenced(Amounts(), steps[1..], z, o) && m == p + q
  {
    var a, first, rest := Amounts(), steps[0], steps[1..];
    if !x.Caught? {
      y, z := x, x;
    } else if m in a.both(Passes(a, first, Calm, Succeeded), Sequenced(a, rest, x, o)) {
      y, z := Calm, x;
    } else {
      y, z := x, Late(x.end);
    }
    p, q := OfBoth(Passes(a, first, y, Succeeded), Sequenced(a, rest, z, o), m);
  }

  lemma {:induction false} ChainedIsExecution(s: Step, first: Outcome, x: Span, second: Outcome, m: real, o: Outcome)
    requires s.Hooked? && Fires(s.hook, first) && m in Chained(Amounts(), s, first, x, second)
    ensures CanSpend(Waiting(s), Finished(o), m)
    decreases s, 0, 0
  {
    var a, y, z := Amounts(), x, x;
    if x.Caught? {
      if m in a.both(Passes(a, s.step, Calm, first), Passes(a, s.after, x, second)) { y := Calm; } else { z := Late(x.end); }
    }
    var p, q := OfBoth(Spends(s.step, y, first), Spends(s.after, z, second), m);
    PassIsExecution(s.step, y, first, p);
    PassIsExecution(s.after, z, second, q);
    HookRuns(s, first, p, second, q, o);
  }

  /** The hook runs in a context of its own. */
  lemma {:induction false} DetachedIsExecution(s: Step, first: Outcome, x: Span, m: real, o: Outcome)
    requires s.Hooked? && Fires(s.hook, first)
    requires m in Amounts().both(Spends(s.step, x, first), Settled(Amounts(), s.after, Calm))
    ensures CanSpend(Waiting(s), Finished(o), m)
    decreases s, 0, 0
  {
    var p, q := OfBoth(Spends(s.step, x, first), Settled(Amounts(), s.after, Calm), m);
    var second := OfSettled(s.after, Calm, q);
    PassIsExecution(s.step, x, first, p);
    PassIsExecution(s.after, Calm, second, q);
    HookRuns(s, first, p, second, q, o);
  }

  lemma {:induction false} HookedIsExecution(s: Step, x: Span, o: Outcome, m: real)
    requires s.Hooked? && s.hook != Ensure && m in Spends(s, x, o)
    ensures CanSpend(Waiting(s), Finished(o), m)
    decreases s, 0, 1
  {
    if (s.hook == OnAbort && o == Aborted) || (s.hook == OnError && (o == Errored || o == TimedOut)) {
      DetachedIsExecution(s, o, x, m, o);
    } else if s.hook == OnSuccess && m in Chained(Amounts(), s, Succeeded, x, o) {
      ChainedIsExecution(s, Succeeded, x, o, m, o);
    } else if s.hook == OnFailure && o == Failed {
      if m in Chained(Amounts(), s, Failed, x, Succeeded) { ChainedIsExecution(s, Failed, x, Succeeded, m, o); }
      else { ChainedIsExecution(s, Failed, x, Failed, m, o); }
    } else if s.hook == OnFailure && o != Succeeded && m in Chained(Amounts(), s, Failed, x, o) {
      ChainedIsExecution(s, Failed, x, o, m, o);
    } else {
      PassIsExecution(s.step, x, o, m);
      HookSkipped(s, o, m, o);
    }
  }

  /** The step and its ensure hook, each ending in some way. */
  lemma {:induction false} TwoAreExecution(s: Step, y: Span, first: Outcome, p: real, z: Span, second: Outcome, q: real, o: Outcome)
    requires s.Hooked? && s.hook == Ensure && p in Spends(s.step, y, first) && q in Spends(s.after, z, second)
    ensures CanSpend(Waiting(s), Finished(o), p + q)
    decreases s, 0, 0
  {
    PassIsExecution(s.step, y, first, p);
    PassIsExecution(s.after, z, second, q);
    HookRuns(s, first, p, second, q, o);
  }

  lemma {:induction false} EnsuredIsExecution(s: Step, x: Span, o: Outcome, m: real)
    requires s.Hooked? && s.hook == Ensure && m in Spends(s, x, o)
    ensures CanSpend(Waiting(s), Finished(o), m)
    decreases s, 0, 1
  {
    var y, first, p, z, second, q := OfEnsured(s, x, o, m);
    TwoAreExecution(s, y, first, p, z, second, q, o);
  }

  lemma OfEnsured(s: Step, x: Span, o: Outcome, m: real)
    returns (y: Span, first: Outcome, p: real, z: Span, second: Outcome, q: real)
    requires s.Hooked? && m in Ensured(Amounts(), s, x, o)
    ensures p in Spends(s.step, y, first) && q in Spends(s.after, z, second) && m == p + q
  {
    var a := Amounts();
    if x == Calm || o != Reported(x.end) {
      y, z := Calm, Calm;
      first, p, second, q := OfEnsuredCalmly(s, o, m);
    } else if m in a.both(Whatever(a, s.step, x), Settled(a, s.after, Calm)) {
      y, z := x, Calm;
      p, q := OfBoth(Whatever(a, s.step, x), Settled(a, s.after, Calm), m);
      first := OfWhatever(s.step, x, p);
      second := OfSettled(s.after, Calm, q);
    } else {
      y, z := Calm, x;
      p, q := OfBoth(Settled(a, s.step, Calm), Whatever(a, s.after, x), m);
      first := OfSettled(s.step, Calm, p);
      second := OfWhatever(s.after, x, q);
    }
  }

  lemma OfEnsuredCalmly(s: Step, o: Outcome, m: real) returns (first: Outcome, p: real, second: Outcome, q: real)
    requires s.Hooked? && m in EnsuredCalmly(Amounts(), s, o)
    ensures p in Spends(s.step, Calm, first) && q in Spends(s.after, Calm, second) && m == p + q
  {
    var a, step, after := Amounts(), s.step, s.after;
    if o == Succeeded {
      first, second := Succeeded, Succeeded;
      p, q := OfBoth(Spends(step, Calm, Succeeded), Spends(after, Calm, Succeeded), m);
    } else if o == Failed {
      var ok := a.either(Passes(a, after, Calm, Succeeded), Passes(a, after, Calm, Failed));
      if m in a.both(Passes(a, step, Calm, Failed), ok) {
        p, q := OfBoth(Spends(step, Calm, Failed), ok, m);
        first, second := Failed, if q in Spends(after, Calm, Succeeded) then Succeeded else Failed;
      } else {
        first, second := Succeeded, Failed;
        p, q := OfBoth(Spends(step, Calm, Succeeded), Spends(after, Calm, Failed), m);
      }
    } else {
      var ok := a.either(Passes(a, step, Calm, Succeeded), Passes(a, step, Calm, Failed));
      if m in a.both(Passes(a, step, Calm, Errored), Settled(a, after, Calm)) {
        p, q := OfBoth(Spends(step, Calm, Errored), Settled(a, after, Calm), m);
        first := Errored;
        second := OfSettled(after, Calm, q);
      } else {
        p, q := OfBoth(ok, Spends(after, Calm, Errored), m);
        first, second := if p in Spends(step, Calm, Succeeded) then Succeeded else Failed, Errored;
      }
    }
  }

  // ----- branches -----

  /** The first waiting branch runs to its end. */
  lemma BranchRuns(done: seq<Run>, first: Step, rest: seq<Step>, o: Outcome, m: real)
    requires CanSpend(Waiting(first), Finished(o), m)
    ensures CanSpend(Branches(done + WaitingAll([first] + rest)), Branches((done + [Finished(o)]) + WaitingAll(rest)), m)
  {
    BranchCarries(done, WaitingAll(rest));
    CanSpendInside(InBranch(done, WaitingAll(rest)), Waiting(first), Finished(o), m);
    assert done + [Waiting(first)] + WaitingAll(rest) == done + WaitingAll([first] + rest);
  }

  lemma FirstBranchRuns(done: seq<Run>, steps: seq<Step>, o: Outcome, m: real)
    requires steps != [] && CanSpend(Waiting(steps[0]), Finished(o), m)
    ensures CanSpend(Branches(done + WaitingAll(steps)), Branches((done + [Finished(o)]) + WaitingAll(steps[1..])), m)
  {
    BranchRuns(done, steps[0], steps[1..], o, m);
    assert [steps[0]] + steps[1..] == steps;
  }

  lemma {:induction false} ParallelIsExecution(s: Step, x: Span, o: Outcome, m: real)
    requires s.InParallel? && m in Spends(s, x, o)
    ensures CanSpend(Waiting(s), Finished(o), m)
    decreases s, 0
  {
    var all := Branches(WaitingAll(s.steps));
    var end := BranchesAreExecution(s.steps, if s.limit < 1 then |s.steps| else s.limit, s.failFast, x, o, m);
    CanStep(Waiting(s), all, Quiet);
    CanChain(Waiting(s), all, end, 0.0, m);
    CanCut(end, o);
    CanChain(Waiting(s), end, Finished(o), m, 0.0);
  }

  lemma {:induction false} BranchesAreExecution(steps: seq<Step>, slots: nat, failFast: bool, x: Span, o: Outcome, m: real)
    returns (end: Run)
    requires m in Parallel(Amounts(), steps, slots, failFast, x, o)
    ensures end.Branches? && CanSpend(Branches(WaitingAll(steps)), end, m)
    decreases steps, 2
  {
    assert [] + WaitingAll(steps) == WaitingAll(steps);
    if x.Late? {
      end := Branches(WaitingAll(steps));
      CanStay(end);
    } else if x == Calm || o != Reported(x.end) {
      if o == Succeeded || !failFast {
        end := AllRunIsExecution([], steps, o, o != Succeeded, m);
      } else {
        end := CutShortIsExecution([], steps, Cut(slots, Cancellation, true, true, o, o == Errored), m);
      }
    } else if m in CutShort(Amounts(), steps, Cut(slots, x.end, failFast, false, Errored, false)) {
      end := CutShortIsExecution([], steps, Cut(slots, x.end, failFast, false, Errored, false), m);
    } else {
      end := CutShortIsExecution([], steps, Cut(slots, Cancellation, true, true, Errored, false), m);
    }
  }

  lemma OfAtMost(s: Step, x: Span, worst: Outcome, m: real) returns (o: Outcome)
    requires m in AtMost(Amounts(), s, x, worst)
    ensures m in Spends(s, x, o)
  {
    if worst == Succeeded {
      o := Succeeded;
    } else if worst == Failed {
      o := if m in Spends(s, x, Succeeded) then Succeeded else if m in Spends(s, x, Failed) then Failed else Aborted;
    } else {
      o := OfWhatever(s, x, m);
    }
  }

  lemma OfExactly(s: Step, x: Span, worst: Outcome, m: real) returns (o: Outcome)
    requires m in Exactly(Amounts(), s, x, worst)
    ensures m in Spends(s, x, o)
  {
    if worst == Succeeded {
      o := Succeeded;
    } else if worst == Failed {
      o := if m in Spends(s, x, Failed) then Failed else Aborted;
    } else {
      o := if m in Spends(s, x, Errored) then Errored else TimedOut;
    }
  }

  lemma {:induction false} AllRunIsExecution(done: seq<Run>, steps: seq<Step>, worst: Outcome, due: bool, m: real)
    returns (end: Run)
    requires m in AllRun(Amounts(), steps, worst, due)
    ensures end.Branches? && CanSpend(Branches(done + WaitingAll(steps)), end, m)
    decreases steps, 0
  {
    if steps == [] {
      end := Branches(done + WaitingAll(steps));
      CanStay(end);
    } else {
      var a, first, rest := Amounts(), steps[0], steps[1..];
      var o, p, q, later;
      if m in a.both(AtMost(a, first, Calm, worst), AllRun(a, rest, worst, due)) {
        p, q := OfBoth(AtMost(a, first, Calm, worst), AllRun(a, rest, worst, due), m);
        o := OfAtMost(first, Calm, worst, p);
        later := due;
      } else {
        p, q := OfBoth(Exactly(a, first, Calm, worst), AllRun(a, rest, worst, false), m);
        o := OfExactly(first, Calm, worst, p);
        later := false;
      }
      PassIsExecution(first, Calm, o, p);
      FirstBranchRuns(done, steps, o, p);
      end := AllRunIsExecution(done + [Finished(o)], rest, worst, later, q);
      CanChain(Branches(done + WaitingAll(steps)), Branches((done + [Finished(o)]) + WaitingAll(rest)), end, p, q);
    }
  }

  /** How the first branch fared, and how the others go on. */
  lemma OfCutShort(steps: seq<Step>, c: Cut, m: real) returns (y: Span, o: Outcome, p: real, q: real, next: Cut)
    requires steps != [] && c.slots > 0 && m in CutShort(Amounts(), steps, c)
    requires c.failing || c.due || m != 0.0
    ensures p in Spends(steps[0], y, o) && q in CutShort(Amounts(), steps[1..], next) && m == p + q
  {
    if m in FirstEnded(Amounts(), steps, c) {
      y, next := Calm, c;
      o, p, q := OfFirstEnded(steps, c, m);
    } else if m in FirstCaught(Amounts(), steps, c) {
      y := Caught(c.end);
      o, p, q, next := OfFirstCaught(steps, c, m);
    } else {
      y := Calm;
      o, p, q, next := OfFirstFailed(steps, c, m);
    }
  }

  lemma OfFirstEnded(steps: seq<Step>, c: Cut, m: real) returns (o: Outcome, p: real, q: real)
    requires steps != [] && c.slots > 0 && m in FirstEnded(Amounts(), steps, c)
    ensures p in Spends(steps[0], Calm, o) && q in CutShort(Amounts(), steps[1..], c) && m == p + q
  {
    var worst := if c.failFast then Succeeded else c.worst;
    p, q := OfBoth(AtMost(Amounts(), steps[0], Calm, worst), CutShort(Amounts(), steps[1..], c), m);
    o := OfAtMost(steps[0], Calm, worst, p);
  }

  lemma OfFirstCaught(steps: seq<Step>, c: Cut, m: real) returns (o: Outcome, p: real, q: real, next: Cut)
    requires steps != [] && c.slots > 0 && m in FirstCaught(Amounts(), steps, c)
    ensures p in Spends(steps[0], Caught(c.end), o) && q in CutShort(Amounts(), steps[1..], next) && m == p + q
  {
    var a, first, rest, y := Amounts(), steps[0], steps[1..], Caught(c.end);
    next := c.(slots := c.slots - 1);
    if m in a.both(AtMost(a, first, y, c.worst), CutShort(a, rest, next)) {
      p, q := OfBoth(AtMost(a, first, y, c.worst), CutShort(a, rest, next), m);
      o := OfAtMost(first, y, c.worst, p);
    } else {
      next := next.(due := false);
      p, q := OfBoth(Exactly(a, first, y, c.worst), CutShort(a, rest, next), m);
      o := OfExactly(first, y, c.worst, p);
    }
  }

  lemma OfFirstFailed(steps: seq<Step>, c: Cut, m: real) returns (o: Outcome, p: real, q: real, next: Cut)
    requires steps != [] && c.slots > 0 && m in FirstFailed(Amounts(), steps, c)
    ensures p in Spends(steps[0], Calm, o) && q in CutShort(Amounts(), steps[1..], next) && m == p + q
  {
    var a, first, rest := Amounts(), steps[0], steps[1..];
    o, next := Failed, c.(slots := c.slots - 1, failing := false);
    if m !in a.both(Passes(a, first, Calm, Failed), CutShort(a, rest, next)) {
      o, next := Errored, next.(due := false);
    }
    p, q := OfBoth(Spends(first, Calm, o), CutShort(a, rest, next), m);
  }

  lemma {:induction false} CutShortIsExecution(done: seq<Run>, steps: seq<Step>, c: Cut, m: real) returns (end: Run)
    requires m in CutShort(Amounts(), steps, c)
    ensures end.Branches? && CanSpend(Branches(done + WaitingAll(steps)), end, m)
    decreases steps, 0
  {
    if steps == [] || c.slots == 0 || (!c.failing && !c.due && m == 0.0) {
      end := Branches(done + WaitingAll(steps));
      CanStay(end);
    } else {
      var first, rest := steps[0], steps[1..];
      var y, o, p, q, next := OfCutShort(steps, c, m);
      PassIsExecution(first, y, o, p);
      FirstBranchRuns(done, steps, o, p);
      end := CutShortIsExecution(done + [Finished(o)], rest, next, q);
      CanChain(Branches(done + WaitingAll(steps)), Branches((done + [Finished(o)]) + WaitingAll(rest)), end, p, q);
    }
  }

  // ----- cells -----

  lemma OfBuilt(job: Step, ok: bool, m: real) returns (x: Span, o: Outcome)
    requires m in Built(Amounts(), job, ok)
    ensures m in Spends(job, x, o)
  {
    var caught, late := Caught(Cancellation), Late(Cancellation);
    if ok {
      o := Succeeded;
      x := if m in Spends(job, Calm, o) then Calm else if m in Spends(job, caught, o) then caught else late;
    } else {
      x := if m in Lost(Amounts(), job, Calm) then Calm else if m in Lost(Amounts(), job, caught) then caught else late;
      o := OfLost(job, x, m);
    }
  }

  lemma OfLost(job: Step, x: Span, m: real) returns (o: Outcome)
    requires m in Lost(Amounts(), job, x)
    ensures m in Spends(job, x, o)
  {
    o := if m in Spends(job, x, Failed) then Failed else if m in Spends(job, x, Errored) then Errored else Aborted;
  }

  lemma OfRan(jobs: Config, ok: bool, m: real) returns (x: Span, o: Outcome, p: real, q: real, rest: bool)
    requires jobs != [] && m in Ran(Amounts(), jobs, ok)
    ensures p in Spends(jobs[0], x, o) && q in Ran(Amounts(), jobs[1..], rest) && m == p + q
  {
    var a, first, jobs1 := Amounts(), jobs[0], jobs[1..];
    if ok || m in a.both(Built(a, first, true), Ran(a, jobs1, false)) {
      rest := ok;
      p, q := OfBoth(Built(a, first, true), Ran(a, jobs1, ok), m);
      x, o := OfBuilt(first, true, p);
    } else {
      p, q := OfBoth(Built(a, first, false), a.either(Ran(a, jobs1, true), Ran(a, jobs1, false)), m);
      rest := q in Ran(a, jobs1, true);
      x, o := OfBuilt(first, false, p);
    }
  }

  lemma FirstJobRuns(done: seq<Run>, jobs: Config, others: Config, o: Outcome, m: real)
    requires jobs != [] && CanSpend(Waiting(jobs[0]), Finished(o), m)
    ensures CanSpend(Branches(done + WaitingAll(jobs + others)),
                     Branches((done + [Finished(o)]) + WaitingAll(jobs[1..] + others)), m)
  {
    BranchRuns(done, jobs[0], jobs[1..] + others, o, m);
    assert [jobs[0]] + (jobs[1..] + others) == jobs + others;
  }

  lemma {:induction false} RanIsExecution(done: seq<Run>, jobs: Config, others: Config, ok: bool, m: real)
    returns (more: seq<Run>)
    requires m in Ran(Amounts(), jobs, ok)
    ensures CanSpend(Branches(done + WaitingAll(jobs + others)), Branches(more + WaitingAll(others)), m)
    decreases jobs
  {
    if jobs == [] {
      more := done;
      assert jobs + others == others;
      CanStay(Branches(done + WaitingAll(others)));
    } else {
      var first, rest := jobs[0], jobs[1..];
      var x, o, p, q, ok1 := OfRan(jobs, ok, m);
      PassIsExecution(first, x, o, p);
      FirstJobRuns(done, jobs, others, o, p);
      more := RanIsExecution(done + [Finished(o)], rest, others, ok1, q);
      CanChain(Branches(done + WaitingAll(jobs + others)), Branches((done + [Finished(o)]) + WaitingAll(rest + others)),
               Branches(more + WaitingAll(others)), p, q);
    }
  }

  lemma EvaluatorIsExecution(done: seq<Run>, evaluator: Config, m: real) returns (end: Run)
    requires m in Evaluated(Amounts(), evaluator)
    ensures CanSpend(Branches(done + WaitingAll(evaluator)), end, m)
  {
    if m == 0.0 {
      end := Branches(done + WaitingAll(evaluator));
      CanStay(end);
    } else {
      var more := RanIsExecution(done, evaluator, [], m in Ran(Amounts(), evaluator, true), m);
      assert evaluator + [] == evaluator;
      end := Branches(more + WaitingAll([]));
    }
  }

  /** Whatever a cell's runs spend, some execution of the cell in the budget's semantics spends too. */
  lemma CellIsExecution(candidate: Config, evaluator: Config, m: real) returns (end: Run)
    requires m in CellSpends(candidate, evaluator)
    ensures CanSpend(Cell(candidate, evaluator), end, m)
  {
    var a, start := Amounts(), Cell(candidate, evaluator);
    assert [] + WaitingAll(candidate + evaluator) == WaitingAll(candidate + evaluator);
    if m in Ran(a, candidate, false) {
      var more := RanIsExecution([], candidate, evaluator, false, m);
      end := Branches(more + WaitingAll(evaluator));
    } else {
      var p, q := OfBoth(Ran(a, candidate, true), Evaluated(a, evaluator), m);
      var more := RanIsExecution([], candidate, evaluator, true, p);
      end := EvaluatorIsExecution(more, evaluator, q);
      CanChain(start, Branches(more + WaitingAll(evaluator)), end, p, q);
    }
  }

  /** No cell spends more than its agents were authored to. */
  lemma CellSpendsAtMostAuthored(candidate: Config, evaluator: Config, m: real)
    requires Fits(candidate) && Fits(evaluator) && m in CellSpends(candidate, evaluator)
    ensures m <= Authored(candidate, evaluator)
  {
    var end := CellIsExecution(candidate, evaluator, m);
    var runs, acts :| IsExecution(runs, acts, Cell(candidate, evaluator), end) && Spent(acts) == m;
    CellConserves(candidate, evaluator, runs, acts);
  }

  // ----- passes that succeed -----

  /** What a pass spends when everything succeeds and every agent spends its slice. */
  function Successful(s: Step): real {
    match s
    case Agent(slice) => Exact(slice)
    case Try(step) => Successful(step)
    case Timeout(step) => Successful(step)
    case Do(steps) => SuccessfulAll(steps)
    case InParallel(steps, _, _) => SuccessfulAll(steps)
    case Hooked(hook, step, after) =>
      if hook == OnSuccess || hook == Ensure then Successful(step) + Successful(after) else Successful(step)
    case _ => 0.0
  }

  function SuccessfulAll(steps: seq<Step>): real {
    if steps == [] then 0.0 else Successful(steps[0]) + SuccessfulAll(steps[1..])
  }

  ghost predicate AtLeast(most: Option<real>, m: real) { most.Some? && m <= most.value }

  lemma BothAtLeast(a: Option<real>, b: Option<real>, m: real, n: real)
    requires AtLeast(a, m) && AtLeast(b, n)
    ensures AtLeast(Largest().both(a, b), m + n)
  {
  }

  lemma EitherAtLeast(a: Option<real>, b: Option<real>, m: real)
    requires AtLeast(a, m) || AtLeast(b, m)
    ensures AtLeast(Largest().either(a, b), m)
  {
  }

  /** A step without repeats can succeed and spend that much. */
  lemma {:induction false} SuccessSpends(s: Step)
    requires Tame(Visits(s))
    ensures AtLeast(Most(s, Calm, Succeeded), Successful(s))
    decreases s
  {
    RepeatsAreNotTame(s);
    match s
    case Agent(slice) => assert Visits(s)[0] == OnAgent(slice);
    case PublishSnapshot =>
    case Plain =>
    case Try(step) => SuccessSpends(step); WrappedSucceeds(step, Successful(step));
    case Timeout(step) => SuccessSpends(step); WrappedSucceeds(step, Successful(step));
    case Do(steps) => SequenceSucceeds(steps);
    case InParallel(steps, _, _) =>
      BranchesSucceed(steps);
      ParallelSucceeds(s);
    case Hooked(hook, step, after) =>
      TameConcat(Visits(step), Visits(after));
      SuccessSpends(step);
      SuccessSpends(after);
      HookedSucceeds(s, Successful(step), Successful(after));
  }

  lemma HookedSucceeds(s: Step, m: real, n: real)
    requires s.Hooked? && AtLeast(Most(s.step, Calm, Succeeded), m) && AtLeast(Most(s.after, Calm, Succeeded), n)
    ensures AtLeast(Most(s, Calm, Succeeded), if s.hook == OnSuccess || s.hook == Ensure then m + n else m)
  {
    BothAtLeast(Most(s.step, Calm, Succeeded), Most(s.after, Calm, Succeeded), m, n);
    if s.hook == Ensure {
      assert Most(s, Calm, Succeeded) == Ensured(Largest(), s, Calm, Succeeded);
      assert Ensured(Largest(), s, Calm, Succeeded) == EnsuredCalmly(Largest(), s, Succeeded);
    } else if s.hook == OnSuccess {
      assert Most(s, Calm, Succeeded) == Chained(Largest(), s, Succeeded, Calm, Succeeded);
    }
  }

  lemma WrappedSucceeds(step: Step, m: real)
    requires AtLeast(Most(step, Calm, Succeeded), m)
    ensures AtLeast(Most(Try(step), Calm, Succeeded), m) && AtLeast(Most(Timeout(step), Calm, Succeeded), m)
  {
    var a := Largest();
    EitherAtLeast(Most(step, Calm, Succeeded), a.either(Most(step, Calm, Failed), Most(step, Calm, Errored)), m);
    EitherAtLeast(Settled(a, step, Calm), Most(step, Calm, TimedOut), m);
    EitherAtLeast(Timed(a, step, Calm, Succeeded), Timed(a, step, Caught(Deadline), Succeeded), m);
  }

  lemma ParallelSucceeds(s: Step)
    requires s.InParallel?
    ensures Most(s, Calm, Succeeded) == AllRun(Largest(), s.steps, Succeeded, false)
  {
    var slots := if s.limit < 1 then |s.steps| else s.limit;
    assert Most(s, Calm, Succeeded) == Parallel(Largest(), s.steps, slots, s.failFast, Calm, Succeeded);
    assert Parallel(Largest(), s.steps, slots, s.failFast, Calm, Succeeded)
        == Together(Largest(), s.steps, slots, s.failFast, Succeeded);
  }

  lemma {:induction false} SequenceSucceeds(steps: seq<Step>)
    requires Tame(VisitsAll(steps))
    ensures AtLeast(Sequenced(Largest(), steps, Calm, Succeeded), SuccessfulAll(steps))
    decreases steps
  {
    if steps != [] {
      FirstIsTame(steps);
      SuccessSpends(steps[0]);
      SequenceSucceeds(steps[1..]);
      BothAtLeast(Most(steps[0], Calm, Succeeded), Sequenced(Largest(), steps[1..], Calm, Succeeded),
                  Successful(steps[0]), SuccessfulAll(steps[1..]));
    }
  }

  lemma {:induction false} BranchesSucceed(steps: seq<Step>)
    requires Tame(VisitsAll(steps))
    ensures AtLeast(AllRun(Largest(), steps, Succeeded, false), SuccessfulAll(steps))
    decreases steps
  {
    if steps != [] {
      FirstIsTame(steps);
      SuccessSpends(steps[0]);
      BranchesSucceed(steps[1..]);
      BothAtLeast(Most(steps[0], Calm, Succeeded), AllRun(Largest(), steps[1..], Succeeded, false),
                  Successful(steps[0]), SuccessfulAll(steps[1..]));
    }
  }

  lemma FirstIsTame(steps: seq<Step>)
    requires steps != [] && Tame(VisitsAll(steps))
    ensures Tame(Visits(steps[0])) && Tame(VisitsAll(steps[1..]))
  {
    VisitsFirst(steps);
    TameConcat(Visits(steps[0]), VisitsAll(steps[1..]));
  }

  lemma {:induction false} RunSucceeds(jobs: Config)
    requires Tame(VisitsAll(jobs))
    ensures AtLeast(Ran(Largest(), jobs, true), SuccessfulAll(jobs))
  {
    if jobs != [] {
      FirstIsTame(jobs);
      SuccessSpends(jobs[0]);
      RunSucceeds(jobs[1..]);
      BuildSucceeds(jobs[0], Successful(jobs[0]));
      BothAtLeast(Built(Largest(), jobs[0], true), Ran(Largest(), jobs[1..], true), Successful(jobs[0]), SuccessfulAll(jobs[1..]));
    }
  }

  lemma BuildSucceeds(job: Step, m: real)
    requires AtLeast(Most(job, Calm, Succeeded), m)
    ensures AtLeast(Built(Largest(), job, true), m)
  {
  }

  /** A cell whose runs both succeed can spend all its slices on the way of success. */
  lemma CellSucceeds(candidate: Config, evaluator: Config)
    requires Tame(VisitsAll(candidate)) && Tame(VisitsAll(evaluator))
    ensures AtLeast(MostOfCell(candidate, evaluator), SuccessfulAll(candidate) + SuccessfulAll(evaluator))
  {
    var a := Largest();
    RunSucceeds(candidate);
    RunSucceeds(evaluator);
    EitherAtLeast(Ran(a, evaluator, true), Ran(a, evaluator, false), SuccessfulAll(evaluator));
    EitherAtLeast(a.nothing, a.either(Ran(a, evaluator, true), Ran(a, evaluator, false)), SuccessfulAll(evaluator));
    BothAtLeast(Ran(a, candidate, true), Evaluated(a, evaluator), SuccessfulAll(candidate), SuccessfulAll(evaluator));
  }

  /** No agent stands under a hook for failures, aborts or errors. */
  predicate Unconditional(s: Step) {
    match s
    case Try(step) => Unconditional(step)
    case Timeout(step) => Unconditional(step)
    case Do(steps) => AllUnconditional(steps)
    case InParallel(steps, _, _) => AllUnconditional(steps)
    case Hooked(hook, step, after) =>
      && Unconditional(step)
      && if hook == OnSuccess || hook == Ensure then Unconditional(after) else Free(Visits(after), Agents)
    case _ => true
  }

  predicate AllUnconditional(steps: seq<Step>) {
    steps == [] || (Unconditional(steps[0]) && AllUnconditional(steps[1..]))
  }

  lemma {:induction false} FreeSumsToNothing(vs: seq<Visit>)
    requires Free(vs, Agents)
    ensures Sum(vs, Exact) == 0.0
  {
    if vs != [] { FreeSumsToNothing(vs[..|vs| - 1]); }
  }

  lemma {:induction false} UnconditionalSpendsAll(s: Step)
    requires Unconditional(s) && Tame(Visits(s))
    ensures Successful(s) == Sum(Visits(s), Exact)
    decreases s
  {
    RepeatsAreNotTame(s);
    match s
    case Agent(slice) => assert Sum([OnAgent(slice)], Exact) == Exact(slice);
    case PublishSnapshot => assert Sum([OnPublish], Exact) == 0.0;
    case Plain =>
    case Try(step) => UnconditionalSpendsAll(step);
    case Timeout(step) => UnconditionalSpendsAll(step);
    case Do(steps) => AllUnconditionalSpend(steps);
    case InParallel(steps, _, _) => AllUnconditionalSpend(steps);
    case Hooked(hook, step, after) =>
      TameConcat(Visits(step), Visits(after));
      SumConcat(Visits(step), Visits(after), Exact);
      UnconditionalSpendsAll(step);
      if hook == OnSuccess || hook == Ensure { UnconditionalSpendsAll(after); } else { FreeSumsToNothing(Visits(after)); }
  }

  lemma {:induction false} AllUnconditionalSpend(steps: seq<Step>)
    requires AllUnconditional(steps) && Tame(VisitsAll(steps))
    ensures SuccessfulAll(steps) == Sum(VisitsAll(steps), Exact)
    decreases steps
  {
    if steps != [] {
      FirstIsTame(steps);
      VisitsFirst(steps);
      SumConcat(Visits(steps[0]), VisitsAll(steps[1..]), Exact);
      UnconditionalSpendsAll(steps[0]);
      AllUnconditionalSpend(steps[1..]);
    }
  }

  // ----- the exact condition -----

  /** No pass over a cell's builds spends more than this. */
  ghost predicate NeverOverspends(candidate: Config, evaluator: Config, limit: real) {
    forall m :: m in CellSpends(candidate, evaluator) ==> m <= limit
  }

  /**
    An accepted cell never overspends its reservation iff the most it can spend is within it.  That
    is at most what its agents were authored to spend, and just that without agents under hooks for
    failures, aborts or errors.
   */
  lemma AcceptedCellStaysWithinLimitIff(b: Limits, cells: int, candidates: seq<Config>, evaluator: Config, capped: bool,
                                        k: nat)
    requires Accepted(b, cells, candidates, evaluator, capped) && !Unbudgeted(b) && k < |candidates|
    ensures
      var candidate, limit := candidates[k], CellLimit(b, cells) as real;
      var most := MostOfCell(candidate, evaluator);
      && most.Some? && most.value <= Authored(candidate, evaluator)
      && (AllUnconditional(candidate) && AllUnconditional(evaluator) ==> most.value == Authored(candidate, evaluator))
      && (NeverOverspends(candidate, evaluator, limit) <==> most.value <= limit)
  {
    var candidate := candidates[k];
    assert CellFits(candidate, evaluator, CellLimit(b, cells));
    MostOfCellIsAttained(candidate, evaluator);
    CellSucceeds(candidate, evaluator);
    CellSpendsAtMostAuthored(candidate, evaluator, MostOfCell(candidate, evaluator).value);
    if AllUnconditional(candidate) && AllUnconditional(evaluator) {
      AllUnconditionalSpend(candidate);
      AllUnconditionalSpend(evaluator);
    }
  }

  /** For every slice a cell can reserve that is rounded down some accepted cell overspends: one agent, reserved as counted. */
  lemma RoundedDownSliceOverspends(slice: real) returns (b: Limits)
    requires ValidSlice(slice) && Round(Exact(slice)) < 1000000000000000000 && RoundedDown(slice)
    ensures Accepted(b, 1, [[Agent(slice)]], [], false) && !Unbudgeted(b)
    ensures !NeverOverspends([Agent(slice)], [], CellLimit(b, 1) as real)
  {
    b := LoneAgentIsAccepted(slice);
    LoneAgentVisits(slice);
    assert Sum([OnAgent(slice)], Exact) == Exact(slice) && Sum(VisitsAll([]), Exact) == 0.0;
    assert AllUnconditional([Agent(slice)][1..]);
    AcceptedCellStaysWithinLimitIff(b, 1, [[Agent(slice)]], [], false, 0);
  }

  // ----- slices that exclude each other -----

  /** An agent for the case that the first step fails, and one for the case that it does not. */
  function Exclusive(slice: real): Step { Do([Hooked(OnFailure, Plain, Agent(slice)), Agent(slice)]) }

  lemma AgentSpendsAtMost(slice: real, x: Span, o: Outcome, m: real)
    requires m in Spends(Agent(slice), x, o) && Exact(slice) >= 0.0
    ensures 0.0 <= m <= Exact(slice)
  {
  }

  /** The hook's agent runs only where the step does not succeed. */
  lemma FailureSpends(slice: real, x: Span, o: Outcome, m: real)
    requires m in Spends(Hooked(OnFailure, Plain, Agent(slice)), x, o) && Exact(slice) >= 0.0
    ensures m <= if o == Succeeded then 0.0 else Exact(slice)
  {
    var s := Hooked(OnFailure, Plain, Agent(slice));
    if o == Failed {
      if m in Chained(Amounts(), s, Failed, x, Succeeded) { ChainSpends(slice, x, Succeeded, m); }
      else { ChainSpends(slice, x, Failed, m); }
    } else if o != Succeeded && m in Chained(Amounts(), s, Failed, x, o) {
      ChainSpends(slice, x, o, m);
    } else {
      assert m in Spends(Plain, x, o);
    }
  }

  lemma ChainSpends(slice: real, x: Span, o: Outcome, m: real)
    requires m in Chained(Amounts(), Hooked(OnFailure, Plain, Agent(slice)), Failed, x, o) && Exact(slice) >= 0.0
    ensures m <= Exact(slice)
  {
    var a, y, z := Amounts(), x, x;
    if x.Caught? {
      if m in a.both(Passes(a, Plain, Calm, Failed), Passes(a, Agent(slice), x, o)) { y := Calm; } else { z := Late(x.end); }
    }
    var p, q := OfBoth(Spends(Plain, y, Failed), Spends(Agent(slice), z, o), m);
    AgentSpendsAtMost(slice, z, o, q);
  }

  lemma ExclusiveSpends(slice: real, x: Span, o: Outcome, m: real)
    requires m in Spends(Exclusive(slice), x, o) && Exact(slice) >= 0.0
    ensures m <= Exact(slice)
  {
    var steps := [Hooked(OnFailure, Plain, Agent(slice)), Agent(slice)];
    assert m in Sequenced(Amounts(), steps, x, o);
    if o != Succeeded && m in Spends(steps[0], x, o) {
      FailureSpends(slice, x, o, m);
    } else {
      var y, z, p, q := OfSequenced(steps, x, o, m);
      FailureSpends(slice, y, Succeeded, p);
      assert steps[1..] == [Agent(slice)];
      LastSpends(slice, z, o, q);
    }
  }

  lemma LastSpends(slice: real, x: Span, o: Outcome, m: real)
    requires m in Sequenced(Amounts(), [Agent(slice)], x, o) && Exact(slice) >= 0.0
    ensures m <= Exact(slice)
  {
    var steps := [Agent(slice)];
    if o != Succeeded && m in Spends(steps[0], x, o) {
      AgentSpendsAtMost(slice, x, o, m);
    } else {
      var y, z, p, q := OfSequenced(steps, x, o, m);
      AgentSpendsAtMost(slice, y, Succeeded, p);
      assert steps[1..] == [];
    }
  }

  lemma LoneJobSpends(job: Step, ok: bool, m: real) returns (x: Span, o: Outcome)
    requires m in Ran(Amounts(), [job], ok)
    ensures m in Spends(job, x, o)
  {
    var p, q, rest;
    x, o, p, q, rest := OfRan([job], ok, m);
    assert [job][1..] == [];
    assert q == 0.0;
  }

  lemma LoneCellSpends(job: Step, m: real) returns (x: Span, o: Outcome)
    requires m in CellSpends([job], [])
    ensures m in Spends(job, x, o)
  {
    var a := Amounts();
    if m in Ran(a, [job], false) {
      x, o := LoneJobSpends(job, false, m);
    } else {
      var p, q := OfBoth(Ran(a, [job], true), Evaluated(a, []), m);
      assert q == 0.0;
      x, o := LoneJobSpends(job, true, p);
    }
  }

  lemma LoneVisits(s: Step)
    ensures VisitsAll([s]) == Visits(s)
  {
    VisitsFirst([s]);
    assert [s][1..] == [];
    assert Visits(s) + [] == Visits(s);
  }

  lemma PairVisits(s: Step, t: Step)
    ensures VisitsAll([s, t]) == Visits(s) + Visits(t)
  {
    VisitsFirst([s, t]);
    assert [s, t][1..] == [t];
    LoneVisits(t);
  }

  lemma ExclusiveVisits(slice: real)
    ensures VisitsAll([Exclusive(slice)]) == [OnAgent(slice), OnAgent(slice)]
  {
    var first := Hooked(OnFailure, Plain, Agent(slice));
    LoneVisits(Exclusive(slice));
    PairVisits(first, Agent(slice));
    assert Visits(first) == [] + [OnAgent(slice)];
  }

  lemma PairSums(slice: real, f: real -> real)
    ensures Sum([OnAgent(slice), OnAgent(slice)], f) == f(slice) + f(slice)
  {
    assert [OnAgent(slice), OnAgent(slice)] == [OnAgent(slice)] + [OnAgent(slice)];
    SumConcat([OnAgent(slice)], [OnAgent(slice)], f);
    assert Sum([OnAgent(slice)], f) == f(slice);
  }

  lemma ExclusiveIsAccepted(slice: real) returns (b: Limits)
    requires ValidSlice(slice) && 2 * Round(Exact(slice)) < 1000000000000000000
    ensures Accepted(b, 1, [[Exclusive(slice)]], [], false) && !Unbudgeted(b)
    ensures CellLimit(b, 1) as real == 2.0 * Counted(slice)
  {
    var micro := 2 * Round(Exact(slice));
    b := Limits(micro as real / MICRO, 0.0, 0);
    WholeAmountIsValid(micro);
    WholeAmountIsValid(0);
    ExclusiveVisits(slice);
    PairSums(slice, Counted);
    assert b.perCellUSD > 0.0;
    assert VisitsAll([]) == [] && Sum([], Counted) == 0.0;
    assert CellFits([Exclusive(slice)], [], CellLimit(b, 1));
  }

  /** The sum of the slices is not the measure: reserved as counted, such a cell stays within, however its slices are rounded. */
  lemma ExclusiveSlicesStayWithin(slice: real) returns (b: Limits)
    requires ValidSlice(slice) && 2 * Round(Exact(slice)) < 1000000000000000000
    ensures Accepted(b, 1, [[Exclusive(slice)]], [], false) && !Unbudgeted(b)
    ensures NeverOverspends([Exclusive(slice)], [], CellLimit(b, 1) as real)
    ensures RoundedDown(slice) ==> Authored([Exclusive(slice)], []) > CellLimit(b, 1) as real
  {
    b := ExclusiveIsAccepted(slice);
    ExclusiveVisits(slice);
    PairSums(slice, Exact);
    assert Sum(VisitsAll([]), Exact) == 0.0;
    forall m | m in CellSpends([Exclusive(slice)], [])
      ensures m <= CellLimit(b, 1) as real
    {
      var x, o := LoneCellSpends(Exclusive(slice), m);
      ExclusiveSpends(slice, x, o, m);
    }
  }
}
