/**
  Publication of a repository change: a leased, retried external side effect.

  One operation key is followed through every interleaving of attempts, lease
  reclaims, crashes, lost replies and moves of the destination branch.  The
  durable record behaves as the database store does; the Git provider is held
  only to the contract its interface states: a lookup sees every committed
  effect, and a "destination changed" refusal committed nothing.  Publishing is
  NOT assumed idempotent, so "at most one effect" is earned by the protocol.
 */
module Publisher {
  import opened Prelude

  type Sha = string

  /** What inspecting the persisted snapshot yields; every attempt re-reads the same value. */
  datatype Change = Change(baseSHA: Sha, resultSHA: Sha)

  datatype Status = Pending | Succeeded | Failed | StaleBase | RebaseRequired {
    predicate Terminal() { !Pending? }
  }

  datatype Outcome = Outcome(status: Status, headSHA: Sha)

  /** The durable publication row. */
  datatype Record = Record(status: Status, attempt: nat, result: Option<Outcome>)

  /** Where one leased attempt stands; the last durable or provider reply it holds. */
  datatype Phase =
    | Leased                      // lease taken; nothing asked of the provider
    | NotFound                    // the provider reported no prior effect
    | BaseMatches                 // the destination still stands at the change's base
    | Finishing(result: Outcome)  // a terminal result is about to be recorded
    | Over                        // crashed, failed or finished

  datatype State = State(
    record: Option<Record>,
    effects: seq<Sha>,       // heads of the effects committed under this operation key
    base: Sha,               // the destination branch
    phases: map<nat, Phase>  // by lease number
  )

  datatype Event =
    | Acquire                                       // insert the row, or reclaim an expired lease
    | Lookup(n: nat)
    | ReadBase(n: nat)
    | PublishCommits(n: nat, head: Sha, replied: bool)
    | PublishRefused(n: nat)                        // destination changed, nothing committed
    | Complete(n: nat)
    | Stop(n: nat)                                  // crash, error or timeout of an attempt
    | BaseMoves(sha: Sha)

  function Init(base: Sha): State {
    State(None, [], base, map[])
  }

  /** The lease numbered n is the one the record names. */
  predicate LeaseCurrent(s: State, n: nat) {
    s.record.Some? && s.record.value.attempt == n
  }

  /** May attempt n, standing at p, talk to the provider?  When `exclusive`, only while its lease is current. */
  predicate MayCall(s: State, n: nat, p: Phase, exclusive: bool) {
    n in s.phases && s.phases[n] == p && (exclusive ==> LeaseCurrent(s, n))
  }

  function Move(s: State, n: nat, p: Phase): State {
    s.(phases := s.phases[n := p])
  }

  /** Whether the store hands out the lease: a missing row, or a pending row whose lease ran out. */
  function AcquireStep(s: State): Option<State> {
    match s.record
    case None => Some(s.(record := Some(Record(Pending, 1, None)), phases := s.phases[1 := Leased]))
    case Some(r) =>
      if r.status.Terminal() then None
      else Some(s.(record := Some(r.(attempt := r.attempt + 1)), phases := s.phases[r.attempt + 1 := Leased]))
  }

  /** A recovered effect is trusted only if it is this change's result. */
  function LookupStep(c: Change, s: State, n: nat): State {
    if s.effects == [] then Move(s, n, NotFound)
    else
      var head := s.effects[|s.effects| - 1];
      Move(s, n, if head == c.resultSHA then Finishing(Outcome(Succeeded, head)) else Over)
  }

  /** Recording a result is fenced by the lease number; a late or repeated call changes nothing. */
  function CompleteStep(s: State, n: nat, result: Outcome): State {
    var done := Move(s, n, Over);
    if s.record.Some? && s.record.value.attempt == n && !s.record.value.status.Terminal()
    then done.(record := Some(Record(result.status, n, Some(result))))
    else done
  }

  /** One atomic step; None when the event cannot happen in s. */
  function Step(c: Change, s: State, e: Event, exclusive: bool): Option<State> {
    match e
    case Acquire => AcquireStep(s)
    case Lookup(n) =>
      if MayCall(s, n, Leased, exclusive) then Some(LookupStep(c, s, n)) else None
    case ReadBase(n) =>
      if MayCall(s, n, NotFound, exclusive) then
        Some(Move(s, n, if s.base == c.baseSHA then BaseMatches else Finishing(Outcome(RebaseRequired, c.resultSHA))))
      else None
    case PublishCommits(n, head, replied) =>
      if MayCall(s, n, BaseMatches, exclusive) then
        var p := if replied && head == c.resultSHA then Finishing(Outcome(Succeeded, head)) else Over;
        Some(Move(s, n, p).(effects := s.effects + [head]))
      else None
    case PublishRefused(n) =>
      if MayCall(s, n, BaseMatches, exclusive)
      then Some(Move(s, n, Finishing(Outcome(RebaseRequired, c.resultSHA)))) else None
    case Complete(n) =>
      if n in s.phases && s.phases[n].Finishing? then Some(CompleteStep(s, n, s.phases[n].result)) else None
    case Stop(n) => if n in s.phases then Some(Move(s, n, Over)) else None
    case BaseMoves(sha) => Some(s.(base := sha))
  }

  function Run(c: Change, s: State, events: seq<Event>, exclusive: bool): Option<State> {
    if events == [] then Some(s)
    else
      match Run(c, s, events[..|events| - 1], exclusive)
      case None => None
      case Some(mid) => Step(c, mid, events[|events| - 1], exclusive)
  }

  /** What the record may claim about the outside world. */
  ghost predicate Safe(c: Change, s: State) {
    && |s.effects| <= 1
    && (s.record.Some? ==>
      var r := s.record.value;
      && (r.status == Succeeded ==> s.effects == [c.resultSHA] && r.result == Some(Outcome(Succeeded, c.resultSHA)))
      && (r.status == RebaseRequired ==> s.effects == [])
      && (r.status in {Pending, Succeeded, RebaseRequired}))
  }

  /** A phase in which the attempt's knowledge says "no effect exists". */
  predicate BelievesNone(p: Phase) {
    p.NotFound? || p.BaseMatches? || (p.Finishing? && p.result.status == RebaseRequired)
  }

  ghost predicate PhaseInv(c: Change, s: State, n: nat)
    requires n in s.phases
  {
    var p := s.phases[n];
    && s.record.Some? && n <= s.record.value.attempt
    && (s.record.value.status.Terminal() && n == s.record.value.attempt ==> p == Over)
    && (n == s.record.value.attempt && BelievesNone(p) ==> s.effects == [])
    && (p.Finishing? ==>
      || p.result == Outcome(RebaseRequired, c.resultSHA)
      || (p.result == Outcome(Succeeded, c.resultSHA) && s.effects == [c.resultSHA]))
  }

  ghost predicate Inv(c: Change, s: State) {
    && Safe(c, s)
    && (s.record.None? ==> s.effects == [])
    && forall n | n in s.phases :: PhaseInv(c, s, n)
  }

  lemma StepKeepsInv(c: Change, s: State, e: Event)
    requires Inv(c, s) && Step(c, s, e, true).Some?
    ensures Inv(c, Step(c, s, e, true).value)
  {
    var t := Step(c, s, e, true).value;
    forall n | n in t.phases ensures PhaseInv(c, t, n) {
      if n in s.phases { assert PhaseInv(c, s, n); }
    }
  }

  lemma {:induction false} RunKeepsInv(c: Change, base: Sha, events: seq<Event>)
    requires Run(c, Init(base), events, true).Some?
    ensures Inv(c, Run(c, Init(base), events, true).value)
  {
    if events != [] {
      var before := events[..|events| - 1];
      RunKeepsInv(c, base, before);
      StepKeepsInv(c, Run(c, Init(base), before, true).value, events[|events| - 1]);
    }
  }

  /**
    In every run whose attempts stop calling the provider once their lease is reclaimed:
    at most one effect is committed, a recorded success is backed by the change's own
    result, and a recorded rebase means nothing was committed.
   */
  lemma EveryRunIsSafe(c: Change, base: Sha, events: seq<Event>)
    requires Run(c, Init(base), events, true).Some?
    ensures Safe(c, Run(c, Init(base), events, true).value)
  {
    RunKeepsInv(c, base, events);
  }

  /** A terminal record is final, and so is the outside world under this key. */
  lemma {:induction false} TerminalIsFinal(c: Change, base: Sha, before: seq<Event>, after: seq<Event>)
    requires Run(c, Init(base), before + after, true).Some?
    ensures Run(c, Init(base), before, true).Some?
    ensures
      var s := Run(c, Init(base), before, true).value;
      var t := Run(c, Init(base), before + after, true).value;
      s.record.Some? && s.record.value.status.Terminal() ==> t.record == s.record && t.effects == s.effects
  {
    if after == [] {
      assert before + after == before;
    } else {
      var shorter := after[..|after| - 1];
      assert (before + after)[..|before + after| - 1] == before + shorter;
      TerminalIsFinal(c, base, before, shorter);
      RunKeepsInv(c, base, before + shorter);
    }
  }

  lemma RunExtends(c: Change, start: State, events: seq<Event>, s: State, e: Event, exclusive: bool)
    returns (longer: seq<Event>, t: State)
    requires Run(c, start, events, exclusive) == Some(s) && Step(c, s, e, exclusive).Some?
    ensures longer == events + [e] && Run(c, start, longer, exclusive) == Some(t)
    ensures Some(t) == Step(c, s, e, exclusive)
  {
    longer, t := events + [e], Step(c, s, e, exclusive).value;
    assert longer[..|events|] == events;
  }

  /** Two holders of one operation, both told that no effect exists, the first also that the base matches. */
  lemma TwoHolders() returns (c: Change, start: State, events: seq<Event>, s: State)
    ensures c == Change("b", "r") && start == Init("b") && Run(c, start, events, false) == Some(s)
    ensures s == State(Some(Record(Pending, 2, None)), [], "b", map[1 := BaseMatches, 2 := NotFound])
  {
    c, start := Change("b", "r"), Init("b");
    events, s := RunExtends(c, start, [], start, Acquire, false);
    events, s := RunExtends(c, start, events, s, Lookup(1), false);
    events, s := RunExtends(c, start, events, s, ReadBase(1), false);
    events, s := RunExtends(c, start, events, s, Acquire, false);
    events, s := RunExtends(c, start, events, s, Lookup(2), false);
  }

  /**
    The exclusivity assumption cannot be dropped: let the holder of a reclaimed lease go
    on calling the provider, and one run commits two effects, while another records
    "rebase required" over a committed effect.
   */
  lemma OverlappingHoldersBreakSafety()
    ensures exists c, base, events :: var r := Run(c, Init(base), events, false);
      r.Some? && |r.value.effects| == 2
    ensures exists c, base, events :: var r := Run(c, Init(base), events, false);
      r.Some? && r.value.effects == [c.resultSHA] && r.value.record.Some? &&
      r.value.record.value.status == RebaseRequired
  {
    var c, start, events, s := TwoHolders();
    var twice, t := RunExtends(c, start, events, s, ReadBase(2), false);
    twice, t := RunExtends(c, start, twice, t, PublishCommits(1, "r", true), false);
    twice, t := RunExtends(c, start, twice, t, PublishCommits(2, "r", true), false);
    assert Run(c, Init("b"), twice, false).Some?;

    var lied, u := RunExtends(c, start, events, s, BaseMoves("x"), false);
    lied, u := RunExtends(c, start, lied, u, ReadBase(2), false);
    lied, u := RunExtends(c, start, lied, u, PublishCommits(1, "r", true), false);
    lied, u := RunExtends(c, start, lied, u, Complete(2), false);
    assert Run(c, Init("b"), lied, false).Some?;
  }

  /** One pass of the polling loop: what others did first, and how the store call turned out. */
  datatype Poll = Poll(others: seq<Event>, storeFails: bool, leaseExpired: bool, cancelled: bool)

  datatype Acquired = NoLease | Lease(n: nat) | Settled(record: Record)

  datatype PublishReply = Commits(head: Sha, replied: bool) | DestinationChanged | FailsBeforeCommit

  /** Everything Execute does not decide itself: replies, faults, and the events others slip between its calls. */
  datatype Script = Script(
    polls: seq<Poll>,
    authorized: bool,
    inspected: bool,
    assertedBase: Sha,          // the server-derived base parameter, "" when absent
    lookupFails: bool,
    baseReadFails: bool,
    publish: PublishReply,
    crashBeforeComplete: bool,
    others: nat -> seq<Event>   // by gap
  )

  /** No fault, no interference, and a provider that answers with the change's own result. */
  ghost predicate Smooth(c: Change, s: State, script: Script) {
    && script.polls != [] && script.polls[0].others == [] && !script.polls[0].storeFails && script.polls[0].leaseExpired
    && Cleared(c, script)
    && !script.lookupFails && !script.baseReadFails && !script.crashBeforeComplete
    && (script.publish == Commits(c.resultSHA, true) || script.publish == DestinationChanged)
    && (forall gap :: script.others(gap) == [])
    && (s.effects == [] || s.effects == [c.resultSHA])
  }

  /** Authorized, inspected, and not contradicted by the base the server derived. */
  predicate Cleared(c: Change, script: Script) {
    script.authorized && script.inspected && (script.assertedBase == "" || script.assertedBase == c.baseSHA)
  }

  ghost predicate QuietPolls(polls: seq<Poll>) { forall i :: 0 <= i < |polls| ==> polls[i].others == [] }

  /** The status a smooth execution leaves behind. */
  ghost function Verdict(c: Change, s: State, publish: PublishReply): Status {
    if s.record.Some? && s.record.value.status.Terminal() then s.record.value.status
    else if s.effects != [] then Succeeded
    else if s.base != c.baseSHA then RebaseRequired
    else if publish.Commits? then Succeeded
    else RebaseRequired
  }

  predicate ByAttempt(e: Event, n: nat) {
    match e
    case Acquire => false
    case BaseMoves(_) => false
    case _ => e.n == n
  }

  /** The service bound to one operation, with the durable store and the provider it drives. */
  class GitService {
    const change: Change
    var state: State
    ghost const base: Sha
    ghost var history: seq<Event>

    ghost predicate Valid()
      reads this
    {
      Run(change, Init(base), history, true) == Some(state)
    }

    constructor (change: Change, base: Sha)
      ensures Valid() && this.change == change && state == Init(base)
    {
      this.change, this.base := change, base;
      state, history := Init(base), [];
    }

    /** The result attempt n is about to record is true of the provider. */
    ghost predicate Earned(n: nat)
      reads this
    {
      && n in state.phases && state.phases[n].Finishing?
      && (|| (state.phases[n].result == Outcome(Succeeded, change.resultSHA) && state.effects == [change.resultSHA])
          || (state.phases[n].result == Outcome(RebaseRequired, change.resultSHA) && state.effects == []))
    }

    lemma FinishingIsEarned(n: nat)
      requires Valid() && n in state.phases && LeaseCurrent(state, n)
      ensures state.phases[n].Finishing? ==> Earned(n)
    {
      RunKeepsInv(change, base, history);
      assert PhaseInv(change, state, n);
    }

    method Apply(e: Event)
      requires Valid() && Step(change, state, e, true).Some?
      modifies this
      ensures Valid() && history == old(history) + [e]
      ensures Some(state) == Step(change, old(state), e, true)
    {
      state := Step(change, state, e, true).value;
      history := history + [e];
      assert history[..|history| - 1] == old(history);
    }

    /** Other attempts and other writers of the destination act; attempt `me` does not. */
    method Others(events: seq<Event>, me: nat)
      requires Valid() && me in state.phases
      modifies this
      ensures Valid() && old(history) <= history
      ensures me in state.phases && state.phases[me] == old(state).phases[me]
      ensures events == [] ==> state == old(state)
    {
      RunKeepsInv(change, base, history);
      for i := 0 to |events|
        invariant Valid() && old(history) <= history && Inv(change, state)
        invariant me in state.phases && state.phases[me] == old(state).phases[me]
        invariant events == [] ==> state == old(state)
      {
        if !ByAttempt(events[i], me) && Step(change, state, events[i], true).Some? {
          assert PhaseInv(change, state, me);
          Apply(events[i]);
          RunKeepsInv(change, base, history);
        }
      }
    }

    /** Wait behind a lease in flight; return with a lease of our own, or with the settled record. */
    method AcquireForExecution(polls: seq<Poll>) returns (r: Acquired)
      requires Valid()
      modifies this
      ensures Valid() && old(history) <= history
      ensures r.Lease? ==> LeaseCurrent(state, r.n) && r.n in state.phases && state.phases[r.n] == Leased
      ensures r.Lease? ==> Acquire in history[|old(history)|..]
      ensures r.Settled? ==> state.record == Some(r.record) && r.record.status.Terminal()
      ensures polls != [] && polls[0].others == [] && !polls[0].storeFails && polls[0].leaseExpired ==>
        match AcquireStep(old(state))
        case None => r.Settled? && state == old(state)
        case Some(leased) => r.Lease? && state == leased
      ensures QuietPolls(polls) ==> state.effects == old(state).effects && (!r.Lease? ==> state == old(state))
    {
      for i := 0 to |polls|
        invariant Valid() && old(history) <= history
        invariant i == 0 || QuietPolls(polls) ==> state == old(state)
        invariant i > 0 ==> polls[0].others != [] || !polls[0].leaseExpired
      {
        for j := 0 to |polls[i].others|
          invariant Valid() && old(history) <= history
          invariant i == 0 && polls[0].others == [] ==> state == old(state)
          invariant QuietPolls(polls) ==> state == old(state)
        {
          if Step(change, state, polls[i].others[j], true).Some? { Apply(polls[i].others[j]); }
        }
        if polls[i].storeFails { return NoLease; }
        if state.record.Some? && state.record.value.status.Terminal() { return Settled(state.record.value); }
        if state.record.None? || polls[i].leaseExpired {
          Apply(Acquire);
          return Lease(state.record.value.attempt);
        }
        if polls[i].cancelled { return NoLease; }
      }
      return NoLease;
    }

    /** Record a result under lease n; None when the store refuses it or the process dies first. */
    method Finish(n: nat, crash: bool) returns (r: Option<Record>)
      requires Valid() && n in state.phases && state.phases[n].Finishing?
      modifies this
      ensures Valid() && old(history) <= history
      ensures r.Some? ==> state.record == r && r.value.status.Terminal() && r.value.attempt == n
      ensures !crash && LeaseCurrent(old(state), n) ==>
        r.Some? && r.value.status == old(state).phases[n].result.status && state.effects == old(state).effects
    {
      if crash { return None; }
      var accepted := LeaseCurrent(state, n);
      RunKeepsInv(change, base, history);
      assert PhaseInv(change, state, n);
      Apply(Complete(n));
      return if accepted then state.record else None;
    }

    /**
      One execution of the operation, under any interference.  A publication is returned
      only when it is terminal in the store and true of the provider.
     */
    method Execute(script: Script) returns (r: Option<Record>)
      requires Valid()
      modifies this
      ensures Valid() && old(history) <= history
      ensures r.Some? ==> state.record == r && r.value.status.Terminal()
      ensures r.Some? && r.value.status == Succeeded ==> state.effects == [change.resultSHA]
      ensures r.Some? && r.value.status == RebaseRequired ==> state.effects == []
      ensures Safe(change, state)
      ensures Smooth(change, old(state), script) ==>
        r.Some? && r.value.status == Verdict(change, old(state), script.publish)
      ensures !Cleared(change, script) && QuietPolls(script.polls) ==>
        state.effects == old(state).effects && (r.Some? ==> old(state).record == r)
    {
      r := Attempt(script);
      EveryRunIsSafe(change, base, history);
    }

    method Attempt(script: Script) returns (r: Option<Record>)
      requires Valid()
      modifies this
      ensures Valid() && old(history) <= history
      ensures r.Some? ==> state.record == r && r.value.status.Terminal()
      ensures Smooth(change, old(state), script) ==>
        r.Some? && r.value.status == Verdict(change, old(state), script.publish)
      ensures !Cleared(change, script) && QuietPolls(script.polls) ==>
        state.effects == old(state).effects && (r.Some? ==> old(state).record == r)
    {
      var lease := AcquireForExecution(script.polls);
      if lease.NoLease? { return None; }
      if lease.Settled? { return Some(lease.record); }
      if !script.authorized { return None; }
      if !script.inspected { return None; }
      if script.assertedBase != "" && script.assertedBase != change.baseSHA { return None; }
      var ready := Reconcile(lease.n, script);
      if !ready { return None; }
      Others(script.others(3), lease.n);
      r := Finish(lease.n, script.crashBeforeComplete);
    }

    /** Recover a prior effect, or find the base stale, or publish; ready when there is a result to record. */
    method Reconcile(n: nat, script: Script) returns (ready: bool)
      requires Valid() && n in state.phases && state.phases[n] == Leased
      modifies this
      ensures Valid() && old(history) <= history && n in state.phases
      ensures ready ==> LeaseCurrent(state, n) && Earned(n)
      ensures !ready ==>
        || script.lookupFails || script.baseReadFails || script.publish.FailsBeforeCommit?
        || !LeaseCurrent(state, n)
        || (state.phases[n] == Over && state.effects != [])
      ensures Smooth(change, old(state), script) && LeaseCurrent(old(state), n) && !old(state).record.value.status.Terminal() ==>
        && ready && state.record == old(state).record
        && state.phases[n].result.status == Verdict(change, old(state), script.publish)
    {
      Others(script.others(0), n);
      if script.lookupFails || !LeaseCurrent(state, n) { return false; }
      Apply(Lookup(n));
      if !state.phases[n].NotFound? {
        FinishingIsEarned(n);
        return state.phases[n].Finishing?;
      }

      Others(script.others(1), n);
      if script.baseReadFails || !LeaseCurrent(state, n) { return false; }
      Apply(ReadBase(n));
      if !state.phases[n].BaseMatches? {
        FinishingIsEarned(n);
        return true;
      }

      Others(script.others(2), n);
      if !LeaseCurrent(state, n) { return false; }
      ready := Deliver(n, script.publish);
      FinishingIsEarned(n);
    }

    /** Ask the provider to publish; what it answers decides whether there is a result to record. */
    method Deliver(n: nat, reply: PublishReply) returns (ready: bool)
      requires Valid() && MayCall(state, n, BaseMatches, true)
      modifies this
      ensures Valid() && old(history) <= history && n in state.phases && state.record == old(state).record
      ensures state.effects == old(state).effects + if reply.Commits? then [reply.head] else []
      ensures reply.Commits? && !ready ==> state.phases[n] == Over
      ensures ready <==> reply == Commits(change.resultSHA, true) || reply == DestinationChanged
      ensures ready ==>
        && state.phases[n].Finishing?
        && state.phases[n].result.status == (if reply.Commits? then Succeeded else RebaseRequired)
    {
      match reply {
        case FailsBeforeCommit => return false;
        case DestinationChanged => Apply(PublishRefused(n));
        case Commits(head, replied) => Apply(PublishCommits(n, head, replied));
      }
      return state.phases[n].Finishing?;
    }
  }
}
