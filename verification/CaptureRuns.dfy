/**
  The durable store of capture executions: under an operation's lock, each call returns the
  newest generation or creates one.

  Calls, completions and reopenings of runs interleave freely.  The database gives each new run
  an identifier above every earlier one; a run may be created although the reply is lost.
 */
module CaptureRuns {
  import opened Prelude

  // ----- runs and calls -----

  datatype Status = Running | Succeeded | Failed | Errored | Aborted

  /** A generation; token is the retry identifier whose call created it. */
  datatype Run = Run(id: int, status: Status, instance: int, token: int)

  datatype Reply = Done | Refused | Lost

  /** What a call meets: its context and request, the listing, and the creation it may attempt. */
  datatype Script = Script(live: bool, valid: bool, liveWhenLocked: bool, lists: bool, nextID: int, instance: int, reply: Reply)

  datatype Error =
    | ContextEnded | InvalidRequest | ListFailed | Mismatch | ConcurrentRunning | OlderRunning | RetryAbsent | RetryAhead
    | CreateFailed

  datatype Outcome = Execution(run: Run, created: bool) | Failure(error: Error)

  predicate Convertible(r: Run) { r.id > 0 && r.instance > 0 }

  /** The newest two generations, the newest first. */
  function Listed(runs: seq<Run>): seq<Run> {
    var n := |runs|;
    if n == 0 then [] else if n == 1 then [runs[0]] else [runs[n - 1], runs[n - 2]]
  }

  function RunningIn(listed: seq<Run>): nat {
    if listed == [] then 0
    else RunningIn(listed[..|listed| - 1]) + if listed[|listed| - 1].status == Running then 1 else 0
  }

  datatype Decision = Create | Return(run: Run) | Refuse(error: Error)

  /** What the whole history calls for. */
  function Choose(runs: seq<Run>, retry: int): Decision {
    if runs == [] then if retry > 0 then Refuse(RetryAbsent) else Create
    else
      var newest := runs[|runs| - 1];
      if retry > newest.id then Refuse(RetryAhead)
      else if retry == newest.id && newest.status != Running then Create
      else Return(newest)
  }

  /** What a call decides from the two runs it lists. */
  function Decide(runs: seq<Run>, retry: int, s: Script): Decision {
    var listed := Listed(runs);
    if !s.live then Refuse(ContextEnded)
    else if !s.valid || retry < 0 then Refuse(InvalidRequest)
    else if !s.liveWhenLocked then Refuse(ContextEnded)
    else if !s.lists then Refuse(ListFailed)
    else if exists r :: r in listed && !Convertible(r) then Refuse(Mismatch)
    else if RunningIn(listed) > 1 then Refuse(ConcurrentRunning)
    else if RunningIn(listed) == 1 && listed[0].status != Running then Refuse(OlderRunning)
    else Choose(runs, retry)
  }

  /** A call whose context is alive, whose request is valid and whose listing succeeds. */
  predicate Healthy(retry: int, s: Script) { s.live && s.valid && s.liveWhenLocked && s.lists && retry >= 0 }

  function NewRun(retry: int, s: Script): Run { Run(s.nextID, Running, s.instance, retry) }

  class ExecutionStore {
    var runs: seq<Run>

    constructor ()
      ensures runs == []
    {
      runs := [];
    }

    /** Under the lock: list, guard, choose, create. */
    method StartOrGet(retry: int, s: Script) returns (r: Outcome)
      modifies this
      ensures runs == AfterCall(old(runs), retry, s)
      ensures match Decide(old(runs), retry, s)
              case Refuse(error) => r == Failure(error)
              case Return(run) => r == Execution(run, false)
              case Create => r == CreateOutcome(retry, s)
    {
      if !s.live { return Failure(ContextEnded); }
      if !s.valid || retry < 0 { return Failure(InvalidRequest); }
      if !s.liveWhenLocked { return Failure(ContextEnded); }
      if !s.lists { return Failure(ListFailed); }
      var listed := Listed(runs);
      var running, newest := 0, None;
      for i := 0 to |listed|
        invariant running == RunningIn(listed[..i])
        invariant forall k :: 0 <= k < i ==> Convertible(listed[k])
        invariant newest == if i == 0 then None else Some(listed[0])
      {
        if !Convertible(listed[i]) { return Failure(Mismatch); }
        assert listed[..i + 1][..i] == listed[..i];
        if listed[i].status == Running { running := running + 1; }
        if newest.None? { newest := Some(listed[i]); }
      }
      assert listed[..|listed|] == listed;
      if running > 1 { return Failure(ConcurrentRunning); }
      if running == 1 && newest.value.status != Running { return Failure(OlderRunning); }
      var create := |listed| == 0;
      if create && retry > 0 { return Failure(RetryAbsent); }
      if !create {
        if retry > newest.value.id { return Failure(RetryAhead); }
        create := retry == newest.value.id && newest.value.status != Running;
        if !create { return Execution(listed[0], false); }
      }
      r := CreateRun(retry, s);
    }

    method CreateRun(retry: int, s: Script) returns (r: Outcome)
      modifies this
      ensures runs == if s.reply.Refused? then old(runs) else old(runs) + [NewRun(retry, s)]
      ensures r == CreateOutcome(retry, s)
    {
      var run := NewRun(retry, s);
      if !s.reply.Refused? { runs := runs + [run]; }
      if !s.reply.Done? { return Failure(CreateFailed); }
      if !Convertible(run) { return Failure(Mismatch); }
      return Execution(run, true);
    }
  }

  function CreateOutcome(retry: int, s: Script): Outcome {
    if !s.reply.Done? then Failure(CreateFailed)
    else if !Convertible(NewRun(retry, s)) then Failure(Mismatch)
    else Execution(NewRun(retry, s), true)
  }

  function AfterCall(runs: seq<Run>, retry: int, s: Script): seq<Run> {
    if Decide(runs, retry, s) == Create && !s.reply.Refused? then runs + [NewRun(retry, s)] else runs
  }

  // ----- every sequence of events -----

  datatype Event = Call(retry: int, script: Script) | Finish(k: nat, status: Status) | Reopen(k: nat)

  /** The database's side: a fresh identifier for each call, and completions of running runs. */
  predicate Possible(runs: seq<Run>, e: Event) {
    match e
    case Call(_, s) => s.nextID > 0 && forall i :: 0 <= i < |runs| ==> runs[i].id < s.nextID
    case Finish(k, status) => k < |runs| && runs[k].status == Running && status != Running
    case Reopen(k) => k < |runs| && runs[k].status != Running
  }

  function Apply(runs: seq<Run>, e: Event): seq<Run> {
    match e
    case Call(retry, s) => AfterCall(runs, retry, s)
    case Finish(k, status) => if k < |runs| then runs[k := runs[k].(status := status)] else runs
    case Reopen(k) => if k < |runs| then runs[k := runs[k].(status := Running)] else runs
  }

  /** The generations after a sequence of events, None if one of them could not happen. */
  function History(events: seq<Event>): Option<seq<Run>> {
    if events == [] then Some([])
    else
      var runs := History(events[..|events| - 1]);
      var e := events[|events| - 1];
      if runs.None? || !Possible(runs.value, e) then None else Some(Apply(runs.value, e))
  }

  /** Each generation was created by a retry of the one just before it, the first by none. */
  ghost predicate Chained(runs: seq<Run>) {
    forall i :: 0 <= i < |runs| ==> Link(runs, i)
  }

  predicate Link(runs: seq<Run>, i: nat)
    requires i < |runs|
  {
    && runs[i].id > 0
    && if i == 0 then runs[i].token == 0 else runs[i].token == runs[i - 1].id < runs[i].id
  }

  /** Only the newest generation may be running. */
  ghost predicate NewestRuns(runs: seq<Run>) {
    forall i :: 0 <= i < |runs| - 1 ==> runs[i].status != Running
  }

  lemma EventKeepsChain(runs: seq<Run>, e: Event)
    requires Chained(runs) && Possible(runs, e)
    ensures Chained(Apply(runs, e))
  {
    var after := Apply(runs, e);
    if e.Call? && |after| > |runs| {
      assert Choose(runs, e.retry) == Create && (runs == [] ==> e.retry == 0);
    }
    forall i | 0 <= i < |after|
      ensures Link(after, i)
    {
      if i < |runs| {
        assert Link(runs, i);
      }
    }
  }

  lemma {:induction false} HistoryIsChained(events: seq<Event>)
    requires History(events).Some?
    ensures Chained(History(events).value)
  {
    if events != [] {
      HistoryIsChained(events[..|events| - 1]);
      EventKeepsChain(History(events[..|events| - 1]).value, events[|events| - 1]);
    }
  }

  lemma {:induction false} IdsGrow(runs: seq<Run>, i: nat, j: nat)
    requires Chained(runs) && i < j < |runs|
    ensures 0 < runs[i].id < runs[j].id && runs[j].token == runs[j - 1].id
  {
    assert Link(runs, i) && Link(runs, j);
    if i + 1 < j {
      IdsGrow(runs, i, j - 1);
    }
  }

  /** In every history, reopened runs included, a retry token creates at most one generation. */
  lemma EachTokenCreatesOnce(events: seq<Event>, i: nat, j: nat)
    requires History(events).Some? && i < j < |History(events).value|
    ensures History(events).value[i].token != History(events).value[j].token
    ensures History(events).value[i].id < History(events).value[j].id
  {
    var runs := History(events).value;
    HistoryIsChained(events);
    IdsGrow(runs, i, j);
    assert Link(runs, i) && Link(runs, j - 1);
    if 0 < i {
      IdsGrow(runs, i - 1, j - 1);
    }
  }

  ghost predicate NoReopenings(events: seq<Event>) {
    forall i :: 0 <= i < |events| ==> !events[i].Reopen?
  }

  function One(r: Run): nat { if r.status == Running then 1 else 0 }

  lemma RunningInListed(runs: seq<Run>)
    ensures |runs| == 1 ==> RunningIn(Listed(runs)) == One(runs[0])
    ensures |runs| >= 2 ==> RunningIn(Listed(runs)) == One(runs[|runs| - 1]) + One(runs[|runs| - 2])
  {
    var listed := Listed(runs);
    if |runs| == 1 {
      assert listed[..0] == [];
    } else if |runs| >= 2 {
      assert listed[..1] == [listed[0]] && [listed[0]][..0] == [];
      assert RunningIn([listed[0]]) == One(listed[0]);
    }
  }

  /** The guards cannot fire while only the newest generation may run. */
  lemma GuardsAreSilent(runs: seq<Run>, retry: int, s: Script)
    requires NewestRuns(runs)
    ensures Decide(runs, retry, s) != Refuse(ConcurrentRunning)
    ensures Decide(runs, retry, s) != Refuse(OlderRunning)
  {
    RunningInListed(runs);
  }

  lemma {:induction false} OnlyNewestRuns(events: seq<Event>)
    requires History(events).Some? && NoReopenings(events)
    ensures NewestRuns(History(events).value)
  {
    if events != [] {
      var front := events[..|events| - 1];
      OnlyNewestRuns(front);
      var runs, e := History(front).value, events[|events| - 1];
      if e.Call? && Decide(runs, e.retry, e.script) == Create {
        assert Choose(runs, e.retry) == Create;
      }
    }
  }

  /**
    Over every sequence of calls and completions at most one generation is running and it is the
    newest, and no call is ever refused for concurrent or older running generations.
   */
  lemma CallsAreNeverGuarded(events: seq<Event>, retry: int, s: Script)
    requires History(events).Some? && NoReopenings(events)
    ensures NewestRuns(History(events).value)
    ensures Decide(History(events).value, retry, s) !in {Refuse(ConcurrentRunning), Refuse(OlderRunning)}
  {
    OnlyNewestRuns(events);
    GuardsAreSilent(History(events).value, retry, s);
  }

  lemma ListedConvert(events: seq<Event>)
    requires History(events).Some? && forall r :: r in Listed(History(events).value) ==> r.instance > 0
    ensures forall r :: r in Listed(History(events).value) ==> Convertible(r)
  {
    var runs := History(events).value;
    HistoryIsChained(events);
    forall r | r in Listed(runs)
      ensures Convertible(r)
    {
      var i :| 0 <= i < |runs| && runs[i] == r;
      assert Link(runs, i);
    }
  }

  /** A call on a healthy store answers as the whole history calls for, though it lists two runs. */
  lemma TwoRunsSuffice(events: seq<Event>, retry: int, s: Script)
    requires History(events).Some? && NoReopenings(events)
    requires Healthy(retry, s)
    requires forall r :: r in History(events).value ==> r.instance > 0
    ensures Decide(History(events).value, retry, s) == Choose(History(events).value, retry)
  {
    var runs := History(events).value;
    CallsAreNeverGuarded(events, retry, s);
    ListedConvert(events);
  }

  // ----- reopened runs -----

  /** The listing shows an older generation running. */
  predicate OlderListedRuns(runs: seq<Run>) { |runs| >= 2 && runs[|runs| - 2].status == Running }

  /** With reopenings, the guards fire on exactly the histories whose last but one generation runs again. */
  lemma GuardsFireIff(runs: seq<Run>, retry: int, s: Script)
    requires Healthy(retry, s)
    requires forall r :: r in Listed(runs) ==> Convertible(r)
    ensures Decide(runs, retry, s) in {Refuse(ConcurrentRunning), Refuse(OlderRunning)} <==> OlderListedRuns(runs)
    ensures !OlderListedRuns(runs) ==> Decide(runs, retry, s) == Choose(runs, retry)
  {
    RunningInListed(runs);
  }

  predicate SomeRuns(runs: seq<Run>, n: int)
    requires n <= |runs|
  {
    exists i :: 0 <= i < n && runs[i].status == Running
  }

  predicate BesideRunning(runs: seq<Run>, retry: int, s: Script) {
    && Choose(runs, retry) == Create
    && !s.reply.Refused?
    && !OlderListedRuns(runs)
    && SomeRuns(runs, |runs| - 2)
  }

  lemma BesideRunningIff(runs: seq<Run>, retry: int, s: Script)
    requires Healthy(retry, s) && forall r :: r in Listed(runs) ==> Convertible(r)
    ensures |AfterCall(runs, retry, s)| > |runs| && SomeRuns(runs, |runs|) <==> BesideRunning(runs, retry, s)
  {
    GuardsFireIff(runs, retry, s);
    if Choose(runs, retry) == Create && !OlderListedRuns(runs) {
      assert forall i :: |runs| - 2 <= i < |runs| && 0 <= i ==> runs[i].status != Running;
    }
  }

  /**
    In any history a healthy call starts a run beside a running one exactly when a generation is
    called for and stored, the two listed ones do not run, and one further back does.
   */
  lemma StartsBesideRunningIff(events: seq<Event>, retry: int, s: Script)
    requires History(events).Some? && Healthy(retry, s)
    requires forall r :: r in Listed(History(events).value) ==> r.instance > 0
    ensures
      var runs := History(events).value;
      |AfterCall(runs, retry, s)| > |runs| && SomeRuns(runs, |runs|) <==> BesideRunning(runs, retry, s)
  {
    var runs := History(events).value;
    ListedConvert(events);
    BesideRunningIff(runs, retry, s);
  }

  lemma EventFollows(events: seq<Event>, runs: seq<Run>, e: Event)
    requires History(events) == Some(runs) && Possible(runs, e)
    ensures History(events + [e]) == Some(Apply(runs, e))
  {
    assert (events + [e])[..|events|] == events;
  }

  function Starts(id: int): Script { Script(true, true, true, true, id, 1, Done) }

  function OneRun(retry: int, id: int, k: nat): seq<Event> { [Call(retry, Starts(id)), Finish(k, Succeeded)] }

  /** A generation is started and completes. */
  lemma RunOnce(events: seq<Event>, runs: seq<Run>, retry: int, id: int)
    requires History(events) == Some(runs) && retry >= 0 && Choose(runs, retry) == Create
    requires forall r :: r in runs ==> Convertible(r) && r.status != Running && r.id < id
    requires id > 0
    ensures History(events + OneRun(retry, id, |runs|)) == Some(runs + [Run(id, Succeeded, 1, retry)])
  {
    var call, finish := Call(retry, Starts(id)), Finish(|runs|, Succeeded);
    var begun := runs + [NewRun(retry, Starts(id))];
    GuardsFireIff(runs, retry, Starts(id));
    EventFollows(events, runs, call);
    EventFollows(events + [call], begun, finish);
    assert events + [call] + [finish] == events + [call, finish];
    assert begun[|runs| := Run(id, Succeeded, 1, retry)] == runs + [Run(id, Succeeded, 1, retry)];
  }

  /** Three generations run one after the other. */
  const THREE_RUNS: seq<Event> := OneRun(0, 1, 0) + OneRun(1, 2, 1) + OneRun(2, 3, 2)

  const COMPLETED: seq<Run> := [Run(1, Succeeded, 1, 0), Run(2, Succeeded, 1, 1), Run(3, Succeeded, 1, 2)]

  lemma ThreeRuns()
    ensures History(THREE_RUNS) == Some(COMPLETED)
  {
    var first, second := COMPLETED[0], COMPLETED[1];
    RunOnce([], [], 0, 1);
    assert [] + OneRun(0, 1, 0) == OneRun(0, 1, 0) && [] + [first] == [first];
    RunOnce(OneRun(0, 1, 0), [first], 1, 2);
    assert [first] + [second] == [first, second];
    RunOnce(OneRun(0, 1, 0) + OneRun(1, 2, 1), [first, second], 2, 3);
    assert [first, second] + [COMPLETED[2]] == COMPLETED;
  }

  /** Once the first of the three is reopened, a retry of the third starts a fourth beside it. */
  lemma ReopenedRunGoesUnnoticed(s: Script)
    requires Healthy(3, s) && !s.reply.Refused?
    ensures
      var runs := COMPLETED[0 := Run(1, Running, 1, 0)];
      && History(THREE_RUNS + [Reopen(0)]) == Some(runs)
      && AfterCall(runs, 3, s) == runs + [NewRun(3, s)]
  {
    ThreeRuns();
    EventFollows(THREE_RUNS, COMPLETED, Reopen(0));
    GuardsFireIff(COMPLETED[0 := Run(1, Running, 1, 0)], 3, s);
  }
}
