/**
  The broker's child executions: an engine that reports phases and terminal states to an
  authority, against the authority's transition table.

  Every dependency is an arbitrary oracle, the script.  A report may be refused, and it may be
  recorded although its reply is lost; the authority refuses what its table does not allow.
 */
module Broker {
  import opened Prelude

  // ----- the transition table -----

  datatype State =
    | Pending | Admitted | Capturing | Running | Validating | Sealing | Succeeded | Errored | Cancelled | TimedOut

  predicate Terminal(s: State) { s in {Succeeded, Errored, Cancelled, TimedOut} }

  function Forward(s: State): set<State> {
    match s
    case Pending => {Admitted, Errored, Cancelled}
    case Admitted => {Capturing, Running, Errored, Cancelled, TimedOut}
    case Capturing => {Running, Errored, Cancelled, TimedOut}
    case Running => {Validating, Errored, Cancelled, TimedOut}
    case Validating => {Sealing, Errored, Cancelled, TimedOut}
    case Sealing => {Succeeded, Errored, TimedOut}
    case _ => {}
  }

  /** Whether the authority accepts a transition; a live state may be reported again. */
  predicate Valid(from: State, to: State) {
    if from == to then !Terminal(from) else to in Forward(from)
  }

  ghost predicate Accepted(path: seq<State>) {
    forall i :: 0 <= i < |path| - 1 ==> Valid(path[i], path[i + 1])
  }

  function Changes(path: seq<State>): nat {
    if |path| < 2 then 0
    else Changes(path[..|path| - 1]) + if path[|path| - 1] == path[|path| - 2] then 0 else 1
  }

  function Progress(s: State): nat {
    match s
    case Pending => 0 case Admitted => 1 case Capturing => 2 case Running => 3 case Validating => 4 case Sealing => 5
    case _ => 6
  }

  /** Every change of an accepted path moves forward, so there are at most six. */
  lemma {:induction false} AtMostSixChanges(path: seq<State>)
    requires Accepted(path) && path != []
    ensures Changes(path) + Progress(path[0]) <= Progress(path[|path| - 1]) <= 6
  {
    if |path| >= 2 {
      AtMostSixChanges(path[..|path| - 1]);
      assert Valid(path[|path| - 2], path[|path| - 1]);
    }
  }

  /** A state a path reaches after its start was entered from another. */
  lemma {:induction false} Entered(path: seq<State>, n: nat) returns (m: nat)
    requires Accepted(path) && n < |path| && path[0] != path[n]
    ensures m < n && path[m] != path[n] && path[m + 1] == path[n] && path[n] in Forward(path[m])
  {
    m := n - 1;
    assert Valid(path[n - 1], path[n]);
    if path[m] == path[n] {
      m := Entered(path, n - 1);
    }
  }

  /** An accepted path reaches succeeded only through running, validating and sealing, in that order. */
  lemma SucceededIsEarned(path: seq<State>, n: nat) returns (running: nat, validating: nat, sealing: nat)
    requires Accepted(path) && n < |path| && path[n] == Succeeded && (path[0] == Pending || path[0] == Admitted)
    ensures running < validating < sealing < n
    ensures path[running] == Running && path[validating] == Validating && path[sealing] == Sealing
  {
    sealing := Entered(path, n);
    validating := Entered(path, sealing);
    running := Entered(path, validating);
  }

  /** Nothing follows a terminal state. */
  lemma TerminalIsFinal(path: seq<State>)
    requires Accepted(path)
    ensures forall i :: 0 <= i < |path| - 1 ==> !Terminal(path[i])
  {
    forall i | 0 <= i < |path| - 1
      ensures !Terminal(path[i])
    {
      assert Valid(path[i], path[i + 1]);
    }
  }

  // ----- one execution -----

  datatype Tool = RequestReview | ConsultAgent

  datatype Reply = Done | Refused | Lost                 // lost: recorded, but the engine sees an error

  datatype Context = Live | DeadlineExceeded | Canceled

  datatype Admission = NotAdmitted | Fresh | ReplaySucceeded(decodes: bool) | ReplayTerminal(code: string)

  /** What every dependency answers, at each point the engine asks. */
  datatype Script = Script(
    admission: Admission,
    phase: State -> Reply, phaseContext: State -> Context,
    capturesLocally: bool, captureReply: Reply, captureAgain: Reply, captureFailure: Reply,
    attachments: bool, attachmentsContext: Context,
    credential: bool, credentialContext: Context,
    runs: bool, eventsNormal: bool, updates: bool, runContext: Context,
    decodes: bool, marshals: bool,
    seal: Reply, sealContext: Context,
    terminal: Reply)

  /** The terminal failures, by their codes. */
  datatype Failure =
    | AttachmentUnknown | CredentialUnavailable | ProviderRejected | DeadlinePassed | WasCancelled | OutputInvalid
    | SealingFailed | WorkspaceCaptureFailed

  function StateOf(f: Failure): State {
    match f
    case DeadlinePassed => TimedOut
    case WasCancelled => Cancelled
    case _ => Errored
  }

  function ClassifyRunFailure(c: Context): Failure {
    match c
    case DeadlineExceeded => DeadlinePassed
    case Canceled => WasCancelled
    case Live => ProviderRejected
  }

  function FailureForContext(c: Context, fallback: Failure): Failure {
    if c.Live? then fallback else ClassifyRunFailure(c)
  }

  datatype Result =
    | Sealed                                             // a new sealed result
    | Replayed                                           // the sealed result of an earlier admission
    | Failed(failure: Failure)                           // a recorded terminal failure
    | ReplayedFailure(code: string)
    | Unrecorded                                         // an error with no terminal report recorded

  datatype Report = Report(from: State, to: State)       // from: the authority's state when it arrives

  predicate SealingRequested(reports: seq<Report>) {
    exists i :: 0 <= i < |reports| && reports[i].to == Sealing
  }

  /**
    Before sealing is requested every report is legal.  From then on a report is legal unless the
    execution has already succeeded, or sealing was recorded and the report is a cancellation.
   */
  ghost predicate Lawful(reports: seq<Report>) {
    forall i :: 0 <= i < |reports| ==> LawfulReport(reports, i)
  }

  ghost predicate LawfulReport(reports: seq<Report>, i: nat)
    requires i < |reports|
  {
    var r := reports[i];
    if !SealingRequested(reports[..i]) then Valid(r.from, r.to)
    else Valid(r.from, r.to) <==> r.from != Succeeded && !(r.from == Sealing && r.to == Cancelled)
  }

  /** The phases an undisturbed execution reports. */
  function Route(tool: Tool): seq<State> {
    (if tool == RequestReview then [Capturing] else []) + [Running, Validating, Sealing, Succeeded]
  }

  function Targets(reports: seq<Report>): seq<State> {
    seq(|reports|, i requires 0 <= i < |reports| => reports[i].to)
  }

  /** The reports follow the route, and a failure ends them. */
  ghost predicate OnRoute(tool: Tool, reports: seq<Report>) {
    || Targets(reports) <= Route(tool)
    || (reports != [] && Targets(reports)[..|reports| - 1] <= Route(tool) && Failing(reports[|reports| - 1].to))
  }

  predicate Failing(s: State) { s in {Errored, Cancelled, TimedOut} }

  class Engine {
    const tool: Tool
    var state: State                                     // as the authority records it
    var reports: seq<Report>
    var starts: nat                                      // how often the runner was started
    ghost var path: seq<State>                           // every state recorded, the first first

    ghost predicate Recorded()
      reads this
    {
      path != [] && path[|path| - 1] == state && path[0] == Pending && Accepted(path)
    }

    constructor (tool: Tool)
      ensures this.tool == tool && state == Pending && reports == [] && starts == 0 && Recorded()
    {
      this.tool := tool;
      state, reports, starts, path := Pending, [], 0, [Pending];
    }

    /** The authority's side of a report. */
    method Submit(to: State, reply: Reply) returns (ok: bool)
      requires Recorded()
      modifies this
      ensures Recorded() && starts == old(starts)
      ensures reports == old(reports) + [Report(old(state), to)]
      ensures ok == (Valid(old(state), to) && reply.Done?)
      ensures state == if Valid(old(state), to) && !reply.Refused? then to else old(state)
    {
      reports := reports + [Report(state, to)];
      ok := Valid(state, to) && reply.Done?;
      if Valid(state, to) && !reply.Refused? {
        path := path + [to];
        state := to;
      }
    }

    /** The state recorded once k phases of the route are. */
    ghost function Reached(k: nat): State
      requires k <= |Route(tool)|
    {
      if k == 0 then Admitted else Route(tool)[k - 1]
    }

    /** Between reports: k phases were requested, and all of them, or all but the last, recorded. */
    ghost predicate Requested(k: nat)
      reads this
    {
      && Recorded() && Lawful(reports)
      && k <= |Route(tool)|
      && Targets(reports) == Route(tool)[..k]
      && (state == Reached(k) || (k > 0 && state == Reached(k - 1)))
    }

    /** The same with every requested phase recorded. */
    ghost predicate At(k: nat)
      reads this
    {
      Requested(k) && state == Reached(k)
    }

    /** What holds when the engine gives its result. */
    ghost predicate Ended(r: Result)
      reads this
    {
      && Recorded() && Lawful(reports) && OnRoute(tool, reports)
      && (r.Failed? ==> state == StateOf(r.failure))
      && (r.Sealed? ==> state == Succeeded && Targets(reports) == Route(tool))
    }

    /** The last report is the failure that follows a seal not acknowledged. */
    predicate EndsUnsealed(script: Script)
      reads this
    {
      reports != [] && reports[|reports| - 1] ==
        Report(if script.seal.Lost? then Succeeded else Sealing, StateOf(FailureForContext(script.sealContext, SealingFailed)))
    }

    lemma RouteIsValid(k: nat)
      requires k < |Route(tool)|
      ensures Valid(Reached(k), Route(tool)[k])
      ensures Route(tool)[k] == Succeeded <==> k == |Route(tool)| - 1
    {
    }

    /**
      Any failure may be reported before sealing is requested.  From sealing all but a cancellation
      may, and once the seal is recorded none may.
     */
    lemma FailureIsLawful(k: nat, to: State)
      requires Requested(k) && Failing(to)
      ensures Lawful(reports + [Report(state, to)])
    {
      var more := reports + [Report(state, to)];
      forall i | 0 <= i < |more|
        ensures LawfulReport(more, i)
      {
        assert more[..i] == reports[..i];
        if i < |reports| {
          assert LawfulReport(reports, i);
        } else {
          assert more[..i] == reports;
          assert forall n :: 0 <= n < |reports| ==> reports[n].to == Targets(reports)[n];
          assert SealingRequested(reports) ==> k >= |Route(tool)| - 1;
          assert k >= |Route(tool)| - 1 ==> reports[|Route(tool)| - 2].to == Sealing;
        }
      }
    }

    lemma PhaseIsLawful(k: nat)
      requires At(k) && k < |Route(tool)|
      ensures Lawful(reports + [Report(state, Route(tool)[k])])
    {
      var more := reports + [Report(state, Route(tool)[k])];
      RouteIsValid(k);
      forall i | 0 <= i < |more|
        ensures LawfulReport(more, i)
      {
        assert more[..i] == reports[..i];
        if i < |reports| { assert LawfulReport(reports, i); }
      }
    }

    /** Reports a terminal failure; the caller is told of it only once it is recorded. */
    method Fail(failure: Failure, reply: Reply, ghost k: nat) returns (r: Result)
      requires Requested(k)
      modifies this
      ensures Ended(r) && starts == old(starts)
      ensures r == Failed(failure) || r == Unrecorded
      ensures reports == old(reports) + [Report(old(state), StateOf(failure))]
      ensures r == Failed(failure) <==> Valid(old(state), StateOf(failure)) && reply.Done?
    {
      FailureIsLawful(k, StateOf(failure));
      ghost var before := reports;
      var ok := Submit(StateOf(failure), reply);
      assert Targets(reports)[..|reports| - 1] == Targets(before);
      r := if ok then Failed(failure) else Unrecorded;
    }

    /** Reports the next state of the route. */
    method Advance(to: State, reply: Reply, ghost k: nat) returns (ok: bool)
      requires At(k) && k < |Route(tool)| && to == Route(tool)[k]
      modifies this
      ensures starts == old(starts)
      ensures ok == reply.Done?
      ensures Requested(k + 1) && (ok ==> At(k + 1))
      ensures state == if reply.Refused? then old(state) else to
    {
      PhaseIsLawful(k);
      RouteIsValid(k);
      ghost var before := reports;
      ok := Submit(to, reply);
      assert Targets(reports) == Targets(before) + [to];
      assert Route(tool)[..k + 1] == Route(tool)[..k] + [to];
    }

    /** Reports the next phase; None means it was recorded and acknowledged. */
    method Phase(to: State, script: Script, ghost k: nat) returns (stop: Option<Result>)
      requires At(k) && k < |Route(tool)| - 1 && to == Route(tool)[k]
      modifies this
      ensures starts == old(starts)
      ensures stop.None? <==> script.phase(to).Done?
      ensures stop.None? ==> At(k + 1)
      ensures stop.Some? ==> Ended(stop.value) && stop.value == PhaseFault(script, to)
    {
      var ok := Advance(to, script.phase(to), k);
      if ok { return None; }
      if script.phaseContext(to).Live? { return Some(Unrecorded); }
      var r := Fail(ClassifyRunFailure(script.phaseContext(to)), script.terminal, k + 1);
      return Some(r);
    }

    /** Admission, and the replay of an earlier one. */
    method Admit(script: Script) returns (stop: Option<Result>)
      requires state == Pending && reports == [] && starts == 0 && Recorded()
      modifies this
      ensures reports == [] && starts == 0
      ensures stop.None? <==> script.admission.Fresh?
      ensures stop.None? ==> At(0)
      ensures stop.Some? ==> Ended(stop.value) && stop.value == Replay(script.admission)
    {
      match script.admission {
        case NotAdmitted => return Some(Unrecorded);
        case ReplaySucceeded(decodes) => return Some(if decodes then Replayed else Unrecorded);
        case ReplayTerminal(code) => return Some(ReplayedFailure(code));
        case Fresh =>
          path, state := path + [Admitted], Admitted;
          return None;
      }
    }

    /** Captures the workspace for a review, replaying a capture whose reply was lost once. */
    method CaptureWorkspace(script: Script) returns (stop: Option<Result>)
      requires tool == RequestReview && At(0)
      modifies this
      ensures starts == old(starts)
      ensures stop.None? <==> script.phase(Capturing).Done? && Captures(script)
      ensures stop.None? ==> At(1)
      ensures stop.Some? ==> Ended(stop.value) && stop.value == CaptureFault(script)
    {
      stop := Phase(Capturing, script, 0);
      if stop.Some? { return; }
      var captured := false;
      if script.capturesLocally {
        captured := script.captureReply.Done?;
        if !captured { captured := script.captureAgain.Done?; }
      }
      if !captured {
        var r := Fail(WorkspaceCaptureFailed, script.captureFailure, 1);
        return Some(r);
      }
    }

    /** Everything that must be in place before the runner may start. */
    method Prepare(script: Script, ghost k: nat) returns (stop: Option<Result>)
      requires At(k) && k == |Route(tool)| - 4
      modifies this
      ensures starts == old(starts)
      ensures stop.None? <==> Prepared(script)
      ensures stop.None? ==> At(k + 1)
      ensures stop.Some? ==> Ended(stop.value) && stop.value == PrepareFault(script)
    {
      if !script.attachments {
        var r := Fail(FailureForContext(script.attachmentsContext, AttachmentUnknown), script.terminal, k);
        return Some(r);
      }
      if !script.credential {
        var r := Fail(FailureForContext(script.credentialContext, CredentialUnavailable), script.terminal, k);
        return Some(r);
      }
      stop := Phase(Running, script, k);
    }

    /** Starts the runner and records what it did. */
    method RunChild(script: Script, ghost k: nat) returns (stop: Option<Result>)
      requires At(k) && k == |Route(tool)| - 3
      modifies this
      ensures starts == old(starts) + 1
      ensures stop.None? <==> script.eventsNormal && script.updates && script.runs && script.phase(Validating).Done?
      ensures stop.None? ==> At(k + 1)
      ensures stop.Some? ==> Ended(stop.value) && stop.value == RunFault(script)
    {
      starts := starts + 1;
      if !script.eventsNormal {
        var r := Fail(ProviderRejected, script.terminal, k);
        return Some(r);
      }
      if !script.updates { return Some(Unrecorded); }
      if !script.runs {
        var r := Fail(ClassifyRunFailure(script.runContext), script.terminal, k);
        return Some(r);
      }
      stop := Phase(Validating, script, k);
    }

    /** Decodes the output and seals it. */
    method SealOutput(script: Script, ghost k: nat) returns (r: Result)
      requires At(k) && k == |Route(tool)| - 2
      modifies this
      ensures starts == old(starts)
      ensures Ended(r) && r == OutputResult(script)
      ensures script.decodes && script.phase(Sealing).Done? && script.marshals && !script.seal.Done? ==>
        EndsUnsealed(script)
    {
      if !script.decodes {
        r := Fail(OutputInvalid, script.terminal, k);
        return;
      }
      var stop := Phase(Sealing, script, k);
      if stop.Some? { return stop.value; }
      if !script.marshals {
        r := Fail(OutputInvalid, script.terminal, k + 1);
        return;
      }
      r := Seal(script, k + 1);
    }

    method Seal(script: Script, ghost k: nat) returns (r: Result)
      requires At(k) && k == |Route(tool)| - 1
      modifies this
      ensures starts == old(starts)
      ensures Ended(r) && r == SealResult(script)
      ensures !script.seal.Done? ==> EndsUnsealed(script)
    {
      var ok := Advance(Succeeded, script.seal, k);
      if ok { return Sealed; }
      r := Fail(FailureForContext(script.sealContext, SealingFailed), script.terminal, k + 1);
    }

    /**
      One call of the engine, whatever its dependencies answer.  The reports follow the route and
      are lawful, the runner starts at most once and only once everything before it succeeded, and
      the result is the one the first fault calls for, told as a failure only when recorded.
     */
    method Execute(script: Script) returns (r: Result)
      requires state == Pending && reports == [] && starts == 0 && Recorded()
      modifies this
      ensures Ended(r) && r == ResultOf(tool, script)
      ensures ReachesSeal(tool, script) && !script.seal.Done? ==> EndsUnsealed(script)
      ensures starts == if RunnerMayStart(tool, script) then 1 else 0
      ensures !script.admission.Fresh? ==> reports == []
    {
      var stop := Admit(script);
      if stop.Some? { return stop.value; }
      if tool == RequestReview {
        stop := CaptureWorkspace(script);
        if stop.Some? { return stop.value; }
      }
      r := Proceed(script, |Route(tool)| - 4);
    }

    /** Prepare, run and seal. */
    method Proceed(script: Script, ghost k: nat) returns (r: Result)
      requires At(k) && k == |Route(tool)| - 4
      modifies this
      ensures Ended(r) && r == RestResult(script)
      ensures Prepared(script) && ReachesSealFrom(script) && !script.seal.Done? ==> EndsUnsealed(script)
      ensures starts == old(starts) + if Prepared(script) then 1 else 0
    {
      var stop := Prepare(script, k);
      if stop.Some? { return stop.value; }
      stop := RunChild(script, k + 1);
      if stop.Some? { return stop.value; }
      r := SealOutput(script, k + 2);
    }
  }

  /** The failing case: a call cancelled while its seal is refused reports a cancellation the table has no way for. */
  method CancelledWhileSealing(tool: Tool) returns (reports: seq<Report>, r: Result)
    ensures reports != [] && reports[|reports| - 1] == Report(Sealing, Cancelled) && !Valid(Sealing, Cancelled)
    ensures r == Unrecorded
  {
    var engine := new Engine(tool);
    var script := Script(Fresh, _ => Done, _ => Live, true, Done, Done, Done, true, Live, true, Live,
                         true, true, true, Live, true, true, Refused, Canceled, Done);
    r := engine.Execute(script);
    reports := engine.reports;
  }

  function Replay(admission: Admission): Result {
    match admission
    case ReplaySucceeded(true) => Replayed
    case ReplayTerminal(code) => ReplayedFailure(code)
    case _ => Unrecorded
  }

  predicate RunnerMayStart(tool: Tool, script: Script) {
    && script.admission.Fresh?
    && (tool == RequestReview ==> script.phase(Capturing).Done? && Captures(script))
    && Prepared(script)
  }

  predicate Prepared(script: Script) { script.attachments && script.credential && script.phase(Running).Done? }

  /** Nothing failed before the seal. */
  predicate ReachesSeal(tool: Tool, script: Script) {
    RunnerMayStart(tool, script) && ReachesSealFrom(script)
  }

  /** Nothing failed from the start of the runner to the seal. */
  predicate ReachesSealFrom(script: Script) {
    && script.eventsNormal && script.updates && script.runs && script.phase(Validating).Done?
    && script.decodes && script.phase(Sealing).Done? && script.marshals
  }

  /** A failure the table allows: the caller hears of it once it is recorded. */
  function Told(f: Failure, reply: Reply): Result { if reply.Done? then Failed(f) else Unrecorded }

  /** A phase that was not acknowledged.  With sealing recorded, a cancellation no longer is. */
  function PhaseFault(script: Script, to: State): Result {
    var context := script.phaseContext(to);
    if context.Live? || (to == Sealing && script.phase(to).Lost? && context.Canceled?) then Unrecorded
    else Told(ClassifyRunFailure(context), script.terminal)
  }

  function CaptureFault(script: Script): Result {
    if !script.phase(Capturing).Done? then PhaseFault(script, Capturing)
    else Told(WorkspaceCaptureFailed, script.captureFailure)
  }

  function PrepareFault(script: Script): Result {
    if !script.attachments then Told(FailureForContext(script.attachmentsContext, AttachmentUnknown), script.terminal)
    else if !script.credential then
      Told(FailureForContext(script.credentialContext, CredentialUnavailable), script.terminal)
    else PhaseFault(script, Running)
  }

  function RunFault(script: Script): Result {
    if !script.eventsNormal then Told(ProviderRejected, script.terminal)
    else if !script.updates then Unrecorded
    else if !script.runs then Told(ClassifyRunFailure(script.runContext), script.terminal)
    else PhaseFault(script, Validating)
  }

  function OutputResult(script: Script): Result {
    if !script.decodes || (script.phase(Sealing).Done? && !script.marshals) then Told(OutputInvalid, script.terminal)
    else if !script.phase(Sealing).Done? then PhaseFault(script, Sealing)
    else SealResult(script)
  }

  /**
    How the seal ends.  A failure is recorded only if the seal was not, and a cancellation never is:
    from sealing the table has no way to cancelled.
   */
  function SealResult(script: Script): Result {
    match script.seal
    case Done => Sealed
    case Lost => Unrecorded
    case Refused =>
      if script.sealContext.Canceled? then Unrecorded
      else Told(FailureForContext(script.sealContext, SealingFailed), script.terminal)
  }

  /** The result of an execution: what its first fault calls for. */
  function ResultOf(tool: Tool, script: Script): Result {
    if !script.admission.Fresh? then Replay(script.admission)
    else if tool == RequestReview && !(script.phase(Capturing).Done? && Captures(script)) then CaptureFault(script)
    else RestResult(script)
  }

  function RestResult(script: Script): Result {
    if !Prepared(script) then PrepareFault(script)
    else if !(script.eventsNormal && script.updates && script.runs && script.phase(Validating).Done?) then RunFault(script)
    else OutputResult(script)
  }

  /** An execution is sealed exactly when nothing failed, and a recorded failure names what went wrong. */
  lemma ResultIsExplained(tool: Tool, script: Script)
    ensures ResultOf(tool, script).Sealed? <==> ReachesSeal(tool, script) && script.seal.Done?
    ensures Explains(tool, script, ResultOf(tool, script))
  {
  }

  /** With sealing recorded no result is a cancellation. */
  lemma SealedIsNotCancelled(tool: Tool, script: Script)
    requires RunnerMayStart(tool, script) && script.decodes && script.phase(Validating).Done?
    requires script.eventsNormal && script.updates && script.runs && !script.phase(Sealing).Refused?
    ensures ResultOf(tool, script) != Failed(WasCancelled)
  {
  }

  /** A recorded failure names what went wrong. */
  ghost predicate Explains(tool: Tool, script: Script, r: Result) {
    match r
    case Failed(f) =>
      && (f == AttachmentUnknown ==> !script.attachments)
      && (f == CredentialUnavailable ==> !script.credential)
      && (f == ProviderRejected ==> !script.eventsNormal || !script.runs)
      && (f == OutputInvalid ==> !script.decodes || !script.marshals)
      && (f == SealingFailed ==> !script.seal.Done?)
      && (f == WorkspaceCaptureFailed ==> tool == RequestReview && !Captures(script))
      && (f == DeadlinePassed ==> Meets(script, DeadlineExceeded))
      && (f == WasCancelled ==> Meets(script, Canceled))
    case _ => true
  }

  /** Some context the engine looks at has ended this way. */
  ghost predicate Meets(script: Script, c: Context) {
    || (exists s :: script.phaseContext(s) == c)
    || script.attachmentsContext == c || script.credentialContext == c
    || script.runContext == c || script.sealContext == c
  }

  /** The workspace is captured: locally, and by the authority at the first or the second attempt. */
  predicate Captures(script: Script) {
    script.capturesLocally && (script.captureReply.Done? || script.captureAgain.Done?)
  }
}
