/**
  Ticket dispatch: reserve, capture, bind, record, transition, with compensation.

  One ticket is followed through any number of concurrent or restarted dispatch
  attempts and through everything people do to it meanwhile.  Each store call may
  fail before it commits, or commit and lose its reply.  The ticket row behaves as
  the database store does: a reservation key is minted from the row's revision, the
  current workflow run is derived from the key, and the queued->running transition
  checks the state but NOT the key.
 */
module Dispatch {
  import opened Prelude

  type RunId = nat
  type PipelineRun = nat

  /** Minted once per reservation: attempt count and revision of the row at that instant. */
  datatype Key = Key(attempt: nat, revision: nat)

  datatype TicketState = Draft | Queued | Running | NeedsReview | Closed | Deleted

  datatype Ticket = Ticket(
    state: TicketState,
    revision: nat,
    attemptCount: nat,
    version: Option<nat>,
    key: Option<Key>,
    workItem: Option<nat>,
    repository: Option<nat>,
    pipeline: Option<PipelineRun>
  )

  /** A run the binder admitted; its execution linkage may appear later, once. */
  datatype Bound = Bound(id: RunId, pipeline: Option<PipelineRun>)

  datatype Local =
    | Fresh
    | Reserved(key: Key, item: Option<nat>)
    | Selected(key: Key)
    | Admitted(key: Key, run: RunId, pipe: PipelineRun)
    | RecordUnsure(key: Key, run: RunId, pipe: PipelineRun)  // the record call returned an error
    | Recorded(key: Key, run: RunId, pipe: PipelineRun)
    | MoveUnsure(key: Key, run: RunId, pipe: PipelineRun)    // the transition call returned an error
    | Orphan(key: Key, run: RunId)                           // decided to cancel the run
    | Failed
    | Dispatched(key: Key, run: RunId, pipe: PipelineRun)    // returned without error

  datatype State = State(
    ticket: Ticket,
    runs: map<Key, Bound>,     // the binder's idempotency table
    cancelled: set<RunId>,
    attempts: map<nat, Local>
  )

  datatype Fault = Fine | LostBefore | LostAfter

  datatype Event =
    | Begin(a: nat)
    | Reserve(a: nat, revision: nat, version: nat, fault: Fault)
    | RecordItem(a: nat, item: nat, revision: nat, fault: Fault)
    | Reread(a: nat)
    | Bind(a: nat, newRun: RunId, pipeline: Option<PipelineRun>, fault: Fault)
    | RecordRun(a: nat, fault: Fault)
    | RereadAfterRecord(a: nat)
    | Transition(a: nat, fault: Fault)
    | RereadAfterMove(a: nat)
    | Cancel(a: nat, fault: Fault)
    | Abandon(a: nat)                        // crash, or a read that fails
    | Person(to: TicketState)                // queue, unqueue, retry, review, close, delete
    | SelectRepository(id: nat)
    | Edit
    | Linkage(key: Key, pipe: PipelineRun)   // an admitted run reaches a pipeline run

  function Init(revision: nat): State {
    State(Ticket(Draft, revision, 0, None, None, None, None, None), map[], {}, map[])
  }

  // ----- the ticket row -----

  predicate Live(t: Ticket) { t.state.Queued? || t.state.Running? }

  predicate Owns(t: Ticket, key: Key) { t.key == Some(key) && Live(t) }

  /** The run a ticket reads back through its reservation, and the linkage written on it. */
  predicate Links(s: State, run: RunId, pipe: PipelineRun) {
    && s.ticket.key.Some? && s.ticket.key.value in s.runs && s.runs[s.ticket.key.value].id == run
    && s.ticket.pipeline == Some(pipe)
  }

  predicate ValidTransition(from: TicketState, to: TicketState) {
    match from
    case Draft => to in {Queued, Closed}
    case Queued => to in {Running, Draft, Closed}
    case Running => to in {Queued, NeedsReview}
    case NeedsReview => to in {Queued, Closed}
    case _ => false
  }

  function Bump(t: Ticket): Ticket { t.(revision := t.revision + 1) }

  function Release(t: Ticket): Ticket { t.(key := None, workItem := None, pipeline := None) }

  /** A state change asked for by anyone but dispatch. */
  function PersonMoves(t: Ticket, to: TicketState): Ticket {
    var moved := Bump(t).(state := to);
    if to.Draft? then Release(moved)
    else if to.Queued? && !t.state.Draft? then
      Release(moved).(attemptCount := if t.state.Running? then t.attemptCount + 1 else t.attemptCount)
    else moved
  }

  /** The reservation this call would return, with the row it leaves; None on conflict. */
  function ReserveRow(t: Ticket, revision: nat, version: nat): Option<(Key, Ticket)> {
    if t.key.Some? then
      if t.version == Some(version) && Live(t) then Some((t.key.value, t)) else None
    else if t.state.Queued? && t.revision == revision then
      var key := Key(t.attemptCount, t.revision);
      Some((key, Bump(t).(version := Some(version), key := Some(key))))
    else None
  }

  function RecordItemRow(t: Ticket, key: Key, item: nat, revision: nat): Option<Ticket> {
    if !Owns(t, key) then None
    else if t.workItem.Some? then if t.workItem.value == item then Some(t) else None
    else if t.revision == revision then Some(Bump(t).(workItem := Some(item)))
    else None
  }

  function RecordRunRow(s: State, key: Key, run: RunId, pipe: PipelineRun): Option<Ticket> {
    var t := s.ticket;
    if !Owns(t, key) || t.workItem.None? || t.repository.None? then None
    else if !(key in s.runs && s.runs[key].id == run) then None
    else if t.pipeline.Some? then if t.pipeline.value == pipe then Some(t) else None
    else Some(Bump(t).(pipeline := Some(pipe)))
  }

  function TransitionRow(t: Ticket, pipe: PipelineRun): Option<Ticket> {
    if t.state.Queued? then Some(Bump(t).(state := Running, pipeline := Some(pipe))) else None
  }

  // ----- one step -----

  function At(s: State, a: nat): Local { if a in s.attempts then s.attempts[a] else Failed }

  function Go(s: State, a: nat, l: Local): State { s.(attempts := s.attempts[a := l]) }

  /** A write under a fault: `row` is what it would leave (None: refused); the caller learns of it only when Fine. */
  function Write(s: State, a: nat, row: Option<Ticket>, fault: Fault, yes: Local, no: Local): State {
    if row.None? || fault.LostBefore? then Go(s, a, no)
    else Go(s.(ticket := row.value), a, if fault.Fine? then yes else no)
  }

  function BindStep(s: State, a: nat, key: Key, newRun: RunId, pipeline: Option<PipelineRun>,
      fault: Fault): Option<State> {
    if fault.LostBefore? then Some(Go(s, a, Failed))
    else if key !in s.runs && exists k | k in s.runs :: s.runs[k].id == newRun then None
    else if key !in s.runs && newRun in s.cancelled then None
    else
      var bound := if key in s.runs then s.runs[key] else Bound(newRun, pipeline);
      var after := s.(runs := s.runs[key := bound]);
      Some(Go(after, a,
              if fault.Fine? && bound.pipeline.Some? then Admitted(key, bound.id, bound.pipeline.value) else Failed))
  }

  /**
    One atomic step; None when it cannot happen.  When `fenced`, dispatch's transition is
    never overtaken by a release and re-queue of the ticket: if it finds the ticket queued,
    the ticket is queued under the attempt's own key.
   */
  function Step(s: State, e: Event, fenced: bool): Option<State> {
    match e
    case Begin(a) => if a in s.attempts then None else Some(Go(s, a, Fresh))
    case Reserve(a, revision, version, fault) =>
      if !At(s, a).Fresh? then None else
      var r := ReserveRow(s.ticket, revision, version);
      if r.None? then Some(Go(s, a, Failed))
      else Some(Write(s, a, Some(r.value.1), fault,
                      if r.value.1.repository.Some? then Reserved(r.value.0, r.value.1.workItem) else Failed, Failed))
    case RecordItem(a, item, revision, fault) =>
      if !(At(s, a).Reserved? && At(s, a).item.None?) then None else
      var key := At(s, a).key;
      Some(Write(s, a, RecordItemRow(s.ticket, key, item, revision), fault, Reserved(key, Some(item)), Failed))
    case Reread(a) =>
      if !(At(s, a).Reserved? && At(s, a).item.Some?) then None else
      var l := At(s, a);
      Some(Go(s, a, if s.ticket.key == Some(l.key) && s.ticket.workItem == l.item && s.ticket.repository.Some? && !s.ticket.state.Deleted?
                    then Selected(l.key) else Failed))
    case Bind(a, newRun, pipeline, fault) =>
      if At(s, a).Selected? then BindStep(s, a, At(s, a).key, newRun, pipeline, fault) else None
    case RecordRun(a, fault) =>
      if !At(s, a).Admitted? then None else
      var l := At(s, a);
      Some(Write(s, a, RecordRunRow(s, l.key, l.run, l.pipe), fault,
                 Recorded(l.key, l.run, l.pipe), RecordUnsure(l.key, l.run, l.pipe)))
    case RereadAfterRecord(a) =>
      if !At(s, a).RecordUnsure? then None else
      var l := At(s, a);
      Some(Go(s, a,
              if !Owns(s.ticket, l.key) then Orphan(l.key, l.run)
              else if s.ticket.pipeline.None? then Failed
              else if !Links(s, l.run, l.pipe) then Orphan(l.key, l.run)
              else Recorded(l.key, l.run, l.pipe)))
    case Transition(a, fault) =>
      if !At(s, a).Recorded? then None else
      var l := At(s, a);
      if fenced && s.ticket.state.Queued? && s.ticket.key != Some(l.key) then None else
      Some(Write(s, a, TransitionRow(s.ticket, l.pipe), fault,
                 Dispatched(l.key, l.run, l.pipe), MoveUnsure(l.key, l.run, l.pipe)))
    case RereadAfterMove(a) =>
      if !At(s, a).MoveUnsure? then None else
      var l := At(s, a);
      Some(Go(s, a,
              if !Owns(s.ticket, l.key) || !Links(s, l.run, l.pipe) then Orphan(l.key, l.run)
              else if !s.ticket.state.Running? then Failed
              else Dispatched(l.key, l.run, l.pipe)))
    case Cancel(a, fault) =>
      if !At(s, a).Orphan? then None
      else if fault.LostBefore? then Some(Go(s, a, Failed))
      else Some(Go(s.(cancelled := s.cancelled + {At(s, a).run}), a, Failed))
    case Abandon(a) =>
      if a !in s.attempts || At(s, a).Dispatched? then None else Some(Go(s, a, Failed))
    case Person(to) =>
      if s.ticket.state.Deleted? || to.Running? then None
      else if to.Deleted? then Some(s.(ticket := s.ticket.(state := Deleted)))
      else if ValidTransition(s.ticket.state, to) then Some(s.(ticket := PersonMoves(s.ticket, to)))
      else None
    case SelectRepository(id) =>
      if s.ticket.key.Some? && s.ticket.repository.Some? && s.ticket.repository != Some(id) then None
      else Some(s.(ticket := Bump(s.ticket).(repository := Some(id))))
    case Edit => Some(s.(ticket := Bump(s.ticket)))
    case Linkage(key, pipe) =>
      if key in s.runs && s.runs[key].pipeline.None?
      then Some(s.(runs := s.runs[key := s.runs[key].(pipeline := Some(pipe))])) else None
  }

  function Run(s: State, events: seq<Event>, fenced: bool): Option<State> {
    if events == [] then Some(s)
    else
      match Run(s, events[..|events| - 1], fenced)
      case None => None
      case Some(mid) => Step(mid, events[|events| - 1], fenced)
  }

  // ----- what every run keeps -----

  /** No cancelled run is ever the run of a ticket that is queued or running. */
  ghost predicate NoLiveRunCancelled(s: State) {
    forall k | k in s.runs && s.runs[k].id in s.cancelled :: !Owns(s.ticket, k)
  }

  /** An attempt that returned no error: the ticket holds its run for as long as it holds its key. */
  ghost predicate Honoured(s: State, l: Local) {
    l.Dispatched? ==>
      && l.key in s.runs && s.runs[l.key] == Bound(l.run, Some(l.pipe))
      && (Owns(s.ticket, l.key) ==> Links(s, l.run, l.pipe))
  }

  /** Keys are minted from a revision that only grows, so a released key never returns. */
  predicate Minted(s: State, k: Key) { k.revision < s.ticket.revision }

  predicate Held(l: Local) {
    l.Reserved? || l.Selected? || l.Admitted? || l.RecordUnsure? || l.Recorded? || l.MoveUnsure? || l.Orphan? || l.Dispatched?
  }

  ghost predicate LocalInv(s: State, l: Local) {
    && (Held(l) ==> Minted(s, l.key))
    && (l.Admitted? || l.RecordUnsure? || l.Recorded? || l.MoveUnsure? || l.Dispatched? ==>
        l.key in s.runs && s.runs[l.key] == Bound(l.run, Some(l.pipe)))
    && (l.Recorded? || l.MoveUnsure? || l.Dispatched? ==>
        (Owns(s.ticket, l.key) ==> s.ticket.pipeline == Some(l.pipe)))
    && (l.Orphan? ==> l.key in s.runs && s.runs[l.key].id == l.run && !Owns(s.ticket, l.key))
  }

  ghost predicate TicketInv(s: State) {
    var t := s.ticket;
    && (t.state.Draft? ==> t.key.None?)
    && (t.key.Some? ==> Minted(s, t.key.value))
    && (t.key.None? ==> t.pipeline.None?)
    && (t.key.Some? && t.pipeline.Some? ==>
        t.key.value in s.runs && s.runs[t.key.value].pipeline == t.pipeline)
  }

  ghost predicate Inv(s: State) {
    && TicketInv(s)
    && (forall k | k in s.runs :: Minted(s, k))
    && (forall j, k | j in s.runs && k in s.runs && s.runs[j].id == s.runs[k].id :: j == k)
    && NoLiveRunCancelled(s)
    && (forall a | a in s.attempts :: LocalInv(s, s.attempts[a]))
  }

  /** What a step may do to the row without disturbing any attempt. */
  ghost predicate RowStep(s: State, t: State) {
    && s.ticket.revision <= t.ticket.revision
    && (t.ticket.key.Some? && t.ticket.key != s.ticket.key ==> t.ticket.key.value.revision == s.ticket.revision)
    && (forall k | k in s.runs :: k in t.runs && t.runs[k].id == s.runs[k].id &&
          (s.runs[k].pipeline.Some? ==> t.runs[k] == s.runs[k]))
    && (forall k: Key | Minted(s, k) && Owns(t.ticket, k) :: Owns(s.ticket, k) &&
          (s.ticket.pipeline.Some? ==> t.ticket.pipeline == s.ticket.pipeline))
  }

  lemma LocalKept(s: State, t: State, l: Local)
    requires LocalInv(s, l) && RowStep(s, t)
    ensures LocalInv(t, l)
  {
    if Held(l) && Owns(t.ticket, l.key) { assert Owns(s.ticket, l.key); }
  }

  predicate Linking(e: Event) { e.RecordRun? || e.Transition? }
  predicate Binding(e: Event) { e.Bind? || e.Linkage? }
  predicate Editing(e: Event) { e.Person? || e.SelectRepository? || e.Edit? }

  lemma ReserveKeepsRow(s: State, e: Event)
    requires Inv(s) && e.Reserve? && Step(s, e, true).Some?
    ensures RowStep(s, Step(s, e, true).value) && TicketInv(Step(s, e, true).value)
  {
  }

  lemma RecordItemKeepsRow(s: State, e: Event)
    requires Inv(s) && e.RecordItem? && Step(s, e, true).Some?
    ensures RowStep(s, Step(s, e, true).value) && TicketInv(Step(s, e, true).value)
  {
  }

  lemma LinkingKeepsRow(s: State, e: Event)
    requires Inv(s) && Linking(e) && Step(s, e, true).Some?
    ensures RowStep(s, Step(s, e, true).value) && TicketInv(Step(s, e, true).value)
  {
    assert LocalInv(s, At(s, e.a));
  }

  lemma BindingKeepsRow(s: State, e: Event)
    requires Inv(s) && Binding(e) && Step(s, e, true).Some?
    ensures RowStep(s, Step(s, e, true).value) && TicketInv(Step(s, e, true).value)
  {
  }

  lemma EditingKeepsRow(s: State, e: Event)
    requires Inv(s) && Editing(e) && Step(s, e, true).Some?
    ensures RowStep(s, Step(s, e, true).value) && TicketInv(Step(s, e, true).value)
  {
  }

  /** The rest only moves an attempt or cancels a run. */
  lemma QuietKeepsRow(s: State, e: Event)
    requires Inv(s) && !e.Reserve? && !e.RecordItem? && !Linking(e) && !Binding(e) && !Editing(e) && Step(s, e, true).Some?
    ensures RowStep(s, Step(s, e, true).value) && TicketInv(Step(s, e, true).value)
  {
  }

  lemma StepKeepsRow(s: State, e: Event)
    requires Inv(s) && Step(s, e, true).Some?
    ensures RowStep(s, Step(s, e, true).value) && TicketInv(Step(s, e, true).value)
  {
    if e.Reserve? { ReserveKeepsRow(s, e); }
    else if e.RecordItem? { RecordItemKeepsRow(s, e); }
    else if Linking(e) { LinkingKeepsRow(s, e); }
    else if Binding(e) { BindingKeepsRow(s, e); }
    else if Editing(e) { EditingKeepsRow(s, e); }
    else { QuietKeepsRow(s, e); }
  }

  lemma StepKeepsRuns(s: State, e: Event)
    requires Inv(s) && Step(s, e, true).Some?
    ensures var t := Step(s, e, true).value;
      && (forall k | k in t.runs :: Minted(t, k))
      && (forall j, k | j in t.runs && k in t.runs && t.runs[j].id == t.runs[k].id :: j == k)
  {
    if e.Bind? { assert LocalInv(s, At(s, e.a)); }
  }

  lemma StepKeepsCancelled(s: State, e: Event)
    requires Inv(s) && Step(s, e, true).Some?
    ensures NoLiveRunCancelled(Step(s, e, true).value)
  {
    StepKeepsRow(s, e);
    var t := Step(s, e, true).value;
    if e.Cancel? || e.Bind? { assert LocalInv(s, At(s, e.a)); }
    forall k | k in t.runs && t.runs[k].id in t.cancelled ensures !Owns(t.ticket, k) {
      if k in s.runs { assert Minted(s, k); }
    }
  }

  /** The attempt that moves: reads and reservations first, then the writes that link. */
  lemma ReaderKept(s: State, e: Event)
    requires Inv(s) && Step(s, e, true).Some?
    requires e.Begin? || e.Reserve? || e.RecordItem? || e.Reread? || e.RereadAfterRecord? || e.RereadAfterMove? || e.Cancel? || e.Abandon?
    ensures var t := Step(s, e, true).value; LocalInv(t, t.attempts[e.a])
  {
    if e.a in s.attempts { assert LocalInv(s, s.attempts[e.a]); }
  }

  lemma WriterKept(s: State, e: Event)
    requires Inv(s) && Step(s, e, true).Some?
    requires e.Bind? || e.RecordRun? || e.Transition?
    ensures var t := Step(s, e, true).value; LocalInv(t, t.attempts[e.a])
  {
    assert LocalInv(s, s.attempts[e.a]);
  }

  lemma StepKeepsLocals(s: State, e: Event, a: nat)
    requires Inv(s) && Step(s, e, true).Some? && a in Step(s, e, true).value.attempts
    ensures var t := Step(s, e, true).value; LocalInv(t, t.attempts[a])
  {
    var t := Step(s, e, true).value;
    if a in s.attempts && s.attempts[a] == t.attempts[a] {
      StepKeepsRow(s, e);
      assert LocalInv(s, s.attempts[a]);
      LocalKept(s, t, s.attempts[a]);
    } else if e.Bind? || e.RecordRun? || e.Transition? {
      WriterKept(s, e);
    } else {
      ReaderKept(s, e);
    }
  }

  lemma StepKeepsInv(s: State, e: Event)
    requires Inv(s) && Step(s, e, true).Some?
    ensures Inv(Step(s, e, true).value)
  {
    StepKeepsRow(s, e);
    StepKeepsRuns(s, e);
    StepKeepsCancelled(s, e);
    var t := Step(s, e, true).value;
    forall a | a in t.attempts ensures LocalInv(t, t.attempts[a]) { StepKeepsLocals(s, e, a); }
  }

  lemma {:induction false} RunKeepsInv(revision: nat, events: seq<Event>)
    requires Run(Init(revision), events, true).Some?
    ensures Inv(Run(Init(revision), events, true).value)
  {
    if events != [] {
      var before := events[..|events| - 1];
      RunKeepsInv(revision, before);
      StepKeepsInv(Run(Init(revision), before, true).value, events[|events| - 1]);
    }
  }

  /**
    Over every run of any number of attempts: no run is cancelled while the ticket is queued
    or running under its key, and whoever returned without error is still honoured.
   */
  lemma EveryRunIsSafe(revision: nat, events: seq<Event>)
    requires Run(Init(revision), events, true).Some?
    ensures var s := Run(Init(revision), events, true).value;
      NoLiveRunCancelled(s) && forall a | a in s.attempts :: Honoured(s, s.attempts[a])
  {
    RunKeepsInv(revision, events);
    var s := Run(Init(revision), events, true).value;
    forall a | a in s.attempts ensures Honoured(s, s.attempts[a]) { assert LocalInv(s, s.attempts[a]); }
  }

  lemma OnlyTheTransitionDispatches(s: State, e: Event, a: nat)
    requires Step(s, e, true).Some? && !At(s, a).Dispatched? && At(Step(s, e, true).value, a).Dispatched?
    ensures e == RereadAfterMove(a) || e == Transition(a, Fine)
  {
  }

  lemma StepLinks(s: State, e: Event, a: nat)
    requires Inv(s) && Step(s, e, true).Some? && Inv(Step(s, e, true).value)
    requires !At(s, a).Dispatched? && At(Step(s, e, true).value, a).Dispatched?
    ensures
      var t := Step(s, e, true).value;
      var l := At(t, a);
      Owns(t.ticket, l.key) && Links(t, l.run, l.pipe) && t.ticket.state.Running? && l.run !in t.cancelled
  {
    OnlyTheTransitionDispatches(s, e, a);
    assert LocalInv(Step(s, e, true).value, At(Step(s, e, true).value, a));
  }

  /** The last store call of an attempt that returns no error leaves the ticket linked to the run it returns. */
  lemma SuccessLeavesTicketLinked(revision: nat, events: seq<Event>, e: Event, a: nat)
    requires Run(Init(revision), events + [e], true).Some?
    requires Run(Init(revision), events, true).Some? && !At(Run(Init(revision), events, true).value, a).Dispatched?
    ensures
      var t := Run(Init(revision), events + [e], true).value;
      var l := At(t, a);
      l.Dispatched? ==> Owns(t.ticket, l.key) && Links(t, l.run, l.pipe) && t.ticket.state.Running? && l.run !in t.cancelled
  {
    assert (events + [e])[..|events|] == events;
    RunKeepsInv(revision, events);
    RunKeepsInv(revision, events + [e]);
    if At(Run(Init(revision), events + [e], true).value, a).Dispatched? {
      StepLinks(Run(Init(revision), events, true).value, e, a);
    }
  }

  /** Exactly when a committed transition leaves the ticket linked: the key it holds is still the attempt's. */
  lemma TransitionLinksIffKeyIsCurrent(s: State, a: nat, fault: Fault)
    requires Inv(s) && At(s, a).Recorded? && s.ticket.state.Queued? && !fault.LostBefore?
    ensures
      var l := At(s, a);
      var t := Step(s, Transition(a, fault), false);
      t.Some? && (Owns(t.value.ticket, l.key) && Links(t.value, l.run, l.pipe) <==> s.ticket.key == Some(l.key))
  {
    assert LocalInv(s, s.attempts[a]);
  }

  // ----- the fence is needed -----

  lemma RunExtends(start: State, events: seq<Event>, s: State, e: Event, fenced: bool) returns (longer: seq<Event>,
      t: State)
    requires Run(start, events, fenced) == Some(s) && Step(s, e, fenced).Some?
    ensures longer == events + [e] && Run(start, longer, fenced) == Some(t)
    ensures Some(t) == Step(s, e, fenced)
  {
    longer, t := events + [e], Step(s, e, fenced).value;
    assert longer[..|events|] == events;
  }

  const FIRST_KEY := Key(0, 2)
  const SECOND_KEY := Key(0, 7)

  const FIRST_RECORDED := State(Ticket(Queued, 5, 0, Some(1), Some(FIRST_KEY), Some(5), Some(9), Some(10)),
                               map[FIRST_KEY := Bound(100, Some(10))], {}, map[1 := Recorded(FIRST_KEY, 100, 10)])

  const REQUEUED := State(Ticket(Queued, 7, 0, Some(1), None, None, Some(9), None),
                          map[FIRST_KEY := Bound(100, Some(10))], {}, map[1 := Recorded(FIRST_KEY, 100, 10)])

  const SECOND_RECORDED := State(Ticket(Queued, 10, 0, Some(1), Some(SECOND_KEY), Some(6), Some(9), Some(20)),
                                map[FIRST_KEY := Bound(100, Some(10)), SECOND_KEY := Bound(200, Some(20))], {},
                                map[1 := Recorded(FIRST_KEY, 100, 10), 2 := Recorded(SECOND_KEY, 200, 20)])

  lemma FirstReserves() returns (events: seq<Event>, s: State)
    ensures Run(Init(0), events, false) == Some(s)
    ensures s == State(Ticket(Queued, 3, 0, Some(1), Some(FIRST_KEY), None, Some(9), None), map[], {}, map[1 := Reserved(FIRST_KEY, None)])
  {
    var start := Init(0);
    events, s := RunExtends(start, [], start, Person(Queued), false);
    events, s := RunExtends(start, events, s, SelectRepository(9), false);
    events, s := RunExtends(start, events, s, Begin(1), false);
    events, s := RunExtends(start, events, s, Reserve(1, 2, 1, Fine), false);
  }

  lemma FirstRecords() returns (events: seq<Event>)
    ensures Run(Init(0), events, false) == Some(FIRST_RECORDED)
  {
    var s;
    events, s := FirstReserves();
    events, s := RunExtends(Init(0), events, s, RecordItem(1, 5, 3, Fine), false);
    events, s := RunExtends(Init(0), events, s, Reread(1), false);
    events, s := RunExtends(Init(0), events, s, Bind(1, 100, Some(10), Fine), false);
    events, s := RunExtends(Init(0), events, s, RecordRun(1, Fine), false);
    assert s.attempts == FIRST_RECORDED.attempts && s.runs == FIRST_RECORDED.runs;
  }

  lemma SecondReserves() returns (events: seq<Event>, s: State)
    ensures Run(Init(0), events, false) == Some(s)
    ensures s == REQUEUED.(ticket := REQUEUED.ticket.(key := Some(SECOND_KEY), revision := 8),
                           attempts := map[1 := Recorded(FIRST_KEY, 100, 10), 2 := Reserved(SECOND_KEY, None)])
  {
    events := FirstRecords();
    events, s := RunExtends(Init(0), events, FIRST_RECORDED, Person(Draft), false);
    events, s := RunExtends(Init(0), events, s, Person(Queued), false);
    assert s == REQUEUED;
    events, s := RunExtends(Init(0), events, s, Begin(2), false);
    events, s := RunExtends(Init(0), events, s, Reserve(2, 7, 1, Fine), false);
  }

  lemma SecondSelects() returns (events: seq<Event>, s: State)
    ensures Run(Init(0), events, false) == Some(s)
    ensures s == REQUEUED.(ticket := REQUEUED.ticket.(key := Some(SECOND_KEY), revision := 9, workItem := Some(6)),
                           attempts := map[1 := Recorded(FIRST_KEY, 100, 10), 2 := Selected(SECOND_KEY)])
  {
    events, s := SecondReserves();
    events, s := RunExtends(Init(0), events, s, RecordItem(2, 6, 8, Fine), false);
    events, s := RunExtends(Init(0), events, s, Reread(2), false);
  }

  lemma SecondRecords() returns (events: seq<Event>)
    ensures Run(Init(0), events, false) == Some(SECOND_RECORDED)
  {
    var s;
    events, s := SecondSelects();
    events, s := RunExtends(Init(0), events, s, Bind(2, 200, Some(20), Fine), false);
    events, s := RunExtends(Init(0), events, s, RecordRun(2, Fine), false);
    assert s.attempts == SECOND_RECORDED.attempts && s.runs == SECOND_RECORDED.runs;
  }

  /**
    Without the fence the store lets the first attempt's transition take the second
    reservation's ticket: it returns run 100 while the ticket runs under another key, and
    the second attempt, finding a foreign linkage, cancels the very run the ticket is running.
   */
  lemma OvertakenTransitionBreaksSafety()
    ensures exists events :: var r := Run(Init(0), events, false);
      && r.Some? && At(r.value, 1) == Dispatched(FIRST_KEY, 100, 10)
      && Owns(r.value.ticket, SECOND_KEY) && !Links(r.value, 100, 10)
      && SECOND_KEY in r.value.runs && r.value.runs[SECOND_KEY].id in r.value.cancelled
  {
    var events := SecondRecords();
    var start, s := Init(0), SECOND_RECORDED;
    events, s := RunExtends(start, events, s, Transition(1, Fine), false);
    events, s := RunExtends(start, events, s, Transition(2, Fine), false);
    events, s := RunExtends(start, events, s, RereadAfterMove(2), false);
    events, s := RunExtends(start, events, s, Cancel(2, Fine), false);
    assert Run(Init(0), events, false).Some?;
  }

  // ----- one dispatch, step by step -----

  datatype Script = Script(
    liveVersion: nat,
    item: nat, captured: bool,
    newRun: RunId, pipeline: Option<PipelineRun>,
    reserve: Fault, recordItem: Fault, bind: Fault, recordRun: Fault, move: Fault, cancel: Fault,
    readFails: nat -> bool,     // the first read, the re-read of the selection, after a record, after a move
    others: nat -> seq<Event>   // by gap
  )

  datatype Reply = Error | LinkedTo(key: Key, run: RunId, pipe: PipelineRun)

  predicate ByAttempt(e: Event, a: nat) {
    match e
    case Person(_) => false
    case SelectRepository(_) => false
    case Edit => false
    case Linkage(_, _) => false
    case _ => e.a == a
  }

  predicate Resumable(s: State) {
    var t := s.ticket;
    t.state.Running? && t.key.Some? && t.key.value in s.runs && t.workItem.Some? && t.repository.Some? && t.version.Some?
  }

  /** No fault and no interference. */
  ghost predicate Calm(script: Script) {
    && script.captured && script.pipeline.Some? && (forall gap :: script.others(gap) == [] && !script.readFails(gap))
    && script.reserve == script.recordItem == script.bind == script.recordRun == script.move == Fine
  }

  predicate NoMoves(events: seq<Event>) { forall i :: 0 <= i < |events| ==> !events[i].Transition? }

  /** No other attempt moves the ticket meanwhile. */
  ghost predicate Alone(script: Script) { forall gap :: NoMoves(script.others(gap)) }

  predicate Unused(s: State, run: RunId) {
    run !in s.cancelled && forall k | k in s.runs :: s.runs[k].id != run
  }

  /** Queued, never reserved, repository chosen. */
  predicate Waiting(t: Ticket) {
    t.state.Queued? && t.key.None? && t.workItem.None? && t.repository.Some? && t.pipeline.None?
  }

  /** Reserved under k, everything else as `Waiting`. */
  predicate Claimed(t: Ticket, k: Key) {
    t.state.Queued? && t.key == Some(k) && t.workItem.None? && t.repository.Some? && t.pipeline.None?
  }

  /** Reserved under k with both inputs chosen and no link yet. */
  predicate Ready(t: Ticket, k: Key) {
    t.state.Queued? && t.key == Some(k) && t.workItem.Some? && t.repository.Some? && t.pipeline.None?
  }

  predicate SameRuns(s: State, t: State) { s.runs == t.runs && s.cancelled == t.cancelled }

  /** The ticket is not queued for anyone but the holder of k. */
  predicate Kept(s: State, k: Key) { s.ticket.state.Queued? ==> s.ticket.key == Some(k) }

  /** Bound runs stay bound, under the same identity. */
  ghost predicate RunsStay(s: State, t: State) {
    forall k | k in s.runs :: k in t.runs && t.runs[k].id == s.runs[k].id
  }

  lemma OtherStep(s: State, e: Event, me: nat)
    requires !ByAttempt(e, me) && Step(s, e, false).Some? && me in s.attempts
    ensures var t := Step(s, e, false).value;
      && me in t.attempts && t.attempts[me] == s.attempts[me]
      && RunsStay(s, t)
      && (e != Person(Queued) ==> forall k | Kept(s, k) :: Kept(t, k))
      && (!e.Transition? ==> Step(s, e, true).Some?)
  {
  }

  lemma FencedStep(s: State, e: Event)
    requires Step(s, e, true).Some?
    ensures Step(s, e, false) == Step(s, e, true)
  {
  }

  /** A fenced run is a run of the store as it is. */
  lemma {:induction false} FencedRun(start: State, events: seq<Event>)
    requires Run(start, events, true).Some?
    ensures Run(start, events, false) == Run(start, events, true)
  {
    if events != [] {
      var before := events[..|events| - 1];
      FencedRun(start, before);
      FencedStep(Run(start, before, true).value, events[|events| - 1]);
    }
  }

  class Dispatcher {
    var state: State
    ghost const revision: nat
    ghost var history: seq<Event>

    /** The state is what the store makes of the history; no transition is fenced. */
    ghost predicate Valid()
      reads this
    {
      Run(Init(revision), history, false) == Some(state)
    }

    /** No transition so far, of any attempt, found the ticket queued under another key. */
    ghost predicate NeverOvertaken()
      reads this
    {
      Run(Init(revision), history, true).Some?
    }

    /** The history grows, and a transition is overtaken only where one is made. */
    twostate predicate Continues(alone: bool)
      reads this
    {
      && old(history) <= history
      && (NeverOvertaken() ==> old(NeverOvertaken()))
      && (alone && old(NeverOvertaken()) ==> NeverOvertaken())
    }

    lemma NeverOvertakenIsSafe()
      requires Valid() && NeverOvertaken()
      ensures Inv(state)
    {
      FencedRun(Init(revision), history);
      RunKeepsInv(revision, history);
    }

    lemma NothingLiveIsCancelled()
      requires Valid() && NeverOvertaken()
      ensures NoLiveRunCancelled(state)
    {
      NeverOvertakenIsSafe();
    }

    lemma DispatchedStands(a: nat)
      requires Valid() && NeverOvertaken() && At(state, a).Dispatched? && Owns(state.ticket, At(state, a).key)
      ensures Links(state, At(state, a).run, At(state, a).pipe) && At(state, a).run !in state.cancelled
    {
      NeverOvertakenIsSafe();
      assert LocalInv(state, state.attempts[a]);
    }

    lemma NextKeyIsUnbound()
      requires Valid() && NeverOvertaken()
      ensures Key(state.ticket.attemptCount, state.ticket.revision) !in state.runs
    {
      NeverOvertakenIsSafe();
      assert !Minted(state, Key(state.ticket.attemptCount, state.ticket.revision));
    }

    constructor (revision: nat)
      ensures Valid() && NeverOvertaken() && state == Init(revision)
    {
      this.revision := revision;
      state, history := Init(revision), [];
    }

    method Apply(e: Event)
      requires Valid() && Step(state, e, false).Some?
      modifies this
      ensures Valid() && history == old(history) + [e]
      ensures Some(state) == Step(old(state), e, false)
      ensures NeverOvertaken() <==> old(NeverOvertaken()) && Step(old(state), e, true).Some?
    {
      if Run(Init(revision), history, true).Some? { FencedRun(Init(revision), history); }
      state := Step(state, e, false).value;
      history := history + [e];
      assert history[..|history| - 1] == old(history);
    }

    /** Everyone but attempt `me` acts. */
    method Others(events: seq<Event>, me: nat)
      requires Valid() && me in state.attempts
      modifies this
      ensures Valid() && Continues(NoMoves(events))
      ensures me in state.attempts && state.attempts[me] == old(state).attempts[me]
      ensures RunsStay(old(state), state)
      ensures events == [] ==> state == old(state)
      ensures Person(Queued) !in events ==> forall k | Kept(old(state), k) :: Kept(state, k)
    {
      for i := 0 to |events|
        invariant Valid() && Continues(NoMoves(events))
        invariant me in state.attempts && state.attempts[me] == old(state).attempts[me]
        invariant RunsStay(old(state), state)
        invariant i == 0 ==> state == old(state)
        invariant Person(Queued) !in events[..i] ==> forall k | Kept(old(state), k) :: Kept(state, k)
      {
        if !ByAttempt(events[i], me) && Step(state, events[i], false).Some? {
          OtherStep(state, events[i], me);
          Apply(events[i]);
        }
        assert events[..i + 1] == events[..i] + [events[i]];
      }
    }

    /**
      One dispatch of the ticket under any faults and any interference.  As long as no transition
      was overtaken by a release and re-queue, a reply without error names the run the ticket is
      linked to and running, that run is not cancelled, and no live run is.
     */
    method DispatchOne(a: nat, script: Script) returns (r: Reply)
      requires Valid() && a !in state.attempts
      modifies this
      ensures Valid() && Continues(Alone(script) && Person(Queued) !in script.others(5))
      ensures NeverOvertaken() ==> NoLiveRunCancelled(state)
      ensures NeverOvertaken() && r.LinkedTo? ==>
        && Owns(state.ticket, r.key) && Links(state, r.run, r.pipe)
        && state.ticket.state.Running? && r.run !in state.cancelled
      ensures script.readFails(0) || (!old(state).ticket.state.Queued? && !Resumable(old(state))) ==>
        r.Error? && state.ticket == old(state).ticket && SameRuns(old(state), state)
      ensures Calm(script) && Waiting(old(state).ticket) && Unused(old(state), script.newRun) && old(NeverOvertaken()) ==>
        r.LinkedTo? && r.run == script.newRun && Some(r.pipe) == script.pipeline
    {
      Apply(Begin(a));
      var ok := Prepare(a, script);
      r := Error;
      if ok { r := Launch(a, script); }
      if Run(Init(revision), history, true).Some? { NothingLiveIsCancelled(); }
    }

    /** Admit the selected ticket's run, link it, and move the ticket. */
    method Launch(a: nat, script: Script) returns (r: Reply)
      requires Valid() && a in state.attempts && state.attempts[a].Selected?
      modifies this
      ensures Valid() && Continues(Alone(script) && Person(Queued) !in script.others(5))
      ensures NeverOvertaken() && r.LinkedTo? ==>
        && Owns(state.ticket, r.key) && Links(state, r.run, r.pipe)
        && state.ticket.state.Running? && r.run !in state.cancelled
      ensures r.LinkedTo? ==> r.key == old(state).attempts[a].key
      ensures
        && Calm(script) && old(state).attempts[a].key !in old(state).runs && Unused(old(state), script.newRun)
        && Ready(old(state).ticket, old(state).attempts[a].key) ==>
          r.LinkedTo? && r.run == script.newRun && Some(r.pipe) == script.pipeline
    {
      var ok := Admit(a, script);
      if !ok { return Error; }
      ok := Record(a, script);
      if !ok { return Error; }
      r := Move(a, script);
    }

    /** Reserve the ticket, freeze its work item under the reservation, and re-read the selection. */
    method Prepare(a: nat, script: Script) returns (ok: bool)
      requires Valid() && a in state.attempts && state.attempts[a] == Fresh
      modifies this
      ensures Valid() && Continues(Alone(script)) && a in state.attempts
      ensures ok ==>
        && state.attempts[a].Selected? && state.ticket.key == Some(state.attempts[a].key)
        && state.ticket.workItem.Some? && state.ticket.repository.Some?
      ensures script.readFails(1) ==> !ok
      ensures script.readFails(0) || (!old(state).ticket.state.Queued? && !Resumable(old(state))) ==> !ok && state == old(state)
      ensures Calm(script) && Waiting(old(state).ticket) && old(NeverOvertaken()) ==>
        && ok && SameRuns(old(state), state)
        && state.attempts[a].key !in state.runs && Ready(state.ticket, state.attempts[a].key)
    {
      ok := Claim(a, script);
      if !ok { return false; }
      ok := Freeze(a, script);
      if !ok { return false; }
      Others(script.others(3), a);
      if script.readFails(1) { return false; }
      Apply(Reread(a));
      return state.attempts[a].Selected?;
    }

    /** Refuse a ticket that is neither queued nor resumable; otherwise take or re-take its reservation. */
    method Claim(a: nat, script: Script) returns (ok: bool)
      requires Valid() && a in state.attempts && state.attempts[a] == Fresh
      modifies this
      ensures Valid() && Continues(Alone(script)) && a in state.attempts
      ensures ok ==>
        && state.attempts[a].Reserved? && Owns(state.ticket, state.attempts[a].key)
        && state.ticket.workItem == state.attempts[a].item && state.ticket.repository.Some?
      ensures script.readFails(0) || (!old(state).ticket.state.Queued? && !Resumable(old(state))) ==> !ok && state == old(state)
      ensures Calm(script) && Waiting(old(state).ticket) && old(NeverOvertaken()) ==>
        && ok && SameRuns(old(state), state) && state.attempts[a].item.None?
        && state.attempts[a].key !in state.runs && Claimed(state.ticket, state.attempts[a].key)
    {
      var read := state;
      if script.readFails(0) || (!read.ticket.state.Queued? && !Resumable(read)) { return false; }
      if Run(Init(revision), history, true).Some? { NextKeyIsUnbound(); }
      var version := if read.ticket.version.Some? then read.ticket.version.value else script.liveVersion;
      Others(script.others(0), a);
      ok := Take(a, read.ticket.revision, version, script.reserve);
    }

    /** The reservation itself: the key held already, or one minted from the row. */
    method Take(a: nat, expected: nat, version: nat, fault: Fault) returns (ok: bool)
      requires Valid() && a in state.attempts && state.attempts[a] == Fresh
      modifies this
      ensures Valid() && Continues(true) && a in state.attempts && SameRuns(old(state), state)
      ensures ok ==>
        && state.attempts[a].Reserved? && Owns(state.ticket, state.attempts[a].key)
        && state.ticket.workItem == state.attempts[a].item && state.ticket.repository.Some?
      ensures ok && old(state).ticket.key.Some? ==> old(state).ticket.key == Some(state.attempts[a].key)
      ensures ok && old(state).ticket.key.None? ==>
        state.attempts[a].key == Key(old(state).ticket.attemptCount, old(state).ticket.revision)
      ensures fault.Fine? && Waiting(old(state).ticket) && old(state).ticket.revision == expected ==>
        ok && state.attempts[a].item.None? && Claimed(state.ticket, state.attempts[a].key)
    {
      Apply(Reserve(a, expected, version, fault));
      return state.attempts[a].Reserved?;
    }

    /** Use the recorded work item, or capture the ticket's present revision and record it. */
    method Freeze(a: nat, script: Script) returns (ok: bool)
      requires Valid() && a in state.attempts && state.attempts[a].Reserved?
      modifies this
      ensures Valid() && Continues(Alone(script)) && a in state.attempts
      ensures old(state).attempts[a].item.Some? ==> ok && state == old(state)
      ensures ok && old(state).attempts[a].item.None? ==>
        && state.attempts[a] == Reserved(old(state).attempts[a].key, Some(script.item))
        && Owns(state.ticket, old(state).attempts[a].key) && state.ticket.workItem == Some(script.item)
      ensures RunsStay(old(state), state)
      ensures !script.captured && old(state).attempts[a].item.None? ==> !ok
      ensures Calm(script) && old(state).attempts[a].item.None? && Claimed(old(state).ticket, old(state).attempts[a].key) ==>
        && ok && SameRuns(old(state), state) && Ready(state.ticket, old(state).attempts[a].key)
    {
      if state.attempts[a].item.Some? { return true; }
      Others(script.others(1), a);
      if !script.captured { return false; }
      var captured := state.ticket.revision;
      Others(script.others(2), a);
      Apply(RecordItem(a, script.item, captured, script.recordItem));
      return state.attempts[a].Reserved?;
    }

    /** Bind the run under the reservation key: the one already bound under it, or a new one. */
    method Admit(a: nat, script: Script) returns (ok: bool)
      requires Valid() && a in state.attempts && state.attempts[a].Selected?
      modifies this
      ensures Valid() && Continues(Alone(script)) && a in state.attempts
      ensures RunsStay(old(state), state)
      ensures ok ==>
        && state.attempts[a].Admitted? && state.attempts[a].key == old(state).attempts[a].key
        && state.attempts[a].key in state.runs
        && state.runs[state.attempts[a].key] == Bound(state.attempts[a].run, Some(state.attempts[a].pipe))
      ensures ok && script.others(4) == [] ==>
        && state.ticket == old(state).ticket && state.cancelled == old(state).cancelled
        && if state.attempts[a].key in old(state).runs then state.runs == old(state).runs
           else state.runs == old(state).runs[state.attempts[a].key := Bound(script.newRun, script.pipeline)]
      ensures Calm(script) && old(state).attempts[a].key !in old(state).runs && Unused(old(state), script.newRun) ==>
        && ok && state.attempts[a].run == script.newRun
    {
      Others(script.others(4), a);
      var e := Bind(a, script.newRun, script.pipeline, script.bind);
      if Step(state, e, false).None? { return false; }
      Apply(e);
      return state.attempts[a].Admitted?;
    }

    /** Link the run to the ticket; when the reply is an error, re-read and cancel the run if the ticket is lost. */
    method Record(a: nat, script: Script) returns (ok: bool)
      requires Valid() && a in state.attempts && state.attempts[a].Admitted?
      requires state.attempts[a].key in state.runs && state.runs[state.attempts[a].key].id == state.attempts[a].run
      modifies this
      ensures Valid() && Continues(Alone(script)) && a in state.attempts
      ensures ok ==>
        && state.attempts[a] == Recorded(old(state).attempts[a].key, old(state).attempts[a].run, old(state).attempts[a].pipe)
        && Owns(state.ticket, state.attempts[a].key) && Links(state, state.attempts[a].run, state.attempts[a].pipe)
      ensures Calm(script) && Ready(old(state).ticket, old(state).attempts[a].key) ==>
        ok && state.ticket.state == old(state).ticket.state
    {
      Others(script.others(7), a);
      Apply(RecordRun(a, script.recordRun));
      if state.attempts[a].RecordUnsure? { SettleRecord(a, script); }
      return state.attempts[a].Recorded?;
    }

    method SettleRecord(a: nat, script: Script)
      requires Valid() && a in state.attempts && state.attempts[a].RecordUnsure?
      modifies this
      ensures Valid() && Continues(Alone(script)) && a in state.attempts
      ensures state.attempts[a].Recorded? ==>
        && state.attempts[a] == Recorded(old(state).attempts[a].key, old(state).attempts[a].run, old(state).attempts[a].pipe)
        && Owns(state.ticket, state.attempts[a].key) && Links(state, state.attempts[a].run, state.attempts[a].pipe)
      ensures script.readFails(2) ==> state.attempts[a] == old(state).attempts[a]
    {
      Others(script.others(8), a);
      if script.readFails(2) { return; }
      Apply(RereadAfterRecord(a));
      Compensate(a, script.cancel);
    }

    /** Move the ticket to running; when the reply is an error, believe only the ticket itself. */
    method Move(a: nat, script: Script) returns (r: Reply)
      requires Valid() && a in state.attempts && state.attempts[a].Recorded?
      modifies this
      ensures Valid() && Continues(Alone(script) && Person(Queued) !in script.others(5) && Kept(old(state), old(state).attempts[a].key))
      ensures r.LinkedTo? ==>
        r == LinkedTo(old(state).attempts[a].key, old(state).attempts[a].run, old(state).attempts[a].pipe)
      ensures NeverOvertaken() && r.LinkedTo? ==>
        && Owns(state.ticket, r.key) && Links(state, r.run, r.pipe)
        && state.ticket.state.Running? && r.run !in state.cancelled
      ensures Calm(script) && old(state).ticket.state.Queued? ==>
        r.LinkedTo? && (NeverOvertaken() <==> old(NeverOvertaken()) && old(state).ticket.key == Some(r.key))
    {
      Others(script.others(5), a);
      Apply(Transition(a, script.move));
      if state.attempts[a].MoveUnsure? { SettleMove(a, script); }
      if !state.attempts[a].Dispatched? { return Error; }
      if Run(Init(revision), history, true).Some? { DispatchedStands(a); }
      return LinkedTo(state.attempts[a].key, state.attempts[a].run, state.attempts[a].pipe);
    }

    method SettleMove(a: nat, script: Script)
      requires Valid() && a in state.attempts && state.attempts[a].MoveUnsure?
      modifies this
      ensures Valid() && Continues(Alone(script)) && a in state.attempts
      ensures state.attempts[a].Dispatched? ==>
        && state.attempts[a] == Dispatched(old(state).attempts[a].key, old(state).attempts[a].run, old(state).attempts[a].pipe)
        && Owns(state.ticket, state.attempts[a].key) && state.ticket.state.Running?
      ensures script.readFails(3) ==> state.attempts[a] == old(state).attempts[a]
    {
      Others(script.others(6), a);
      if script.readFails(3) { return; }
      Apply(RereadAfterMove(a));
      Compensate(a, script.cancel);
    }

    /** Cancel the run of an attempt that lost its ticket; everything else stays. */
    method Compensate(a: nat, fault: Fault)
      requires Valid() && a in state.attempts
      modifies this
      ensures Valid() && Continues(true)
      ensures state.ticket == old(state).ticket && state.runs == old(state).runs
      ensures state.attempts == if old(state).attempts[a].Orphan? then old(state).attempts[a := Failed] else old(state).attempts
      ensures state.cancelled == old(state).cancelled +
        if old(state).attempts[a].Orphan? && !fault.LostBefore? then {old(state).attempts[a].run} else {}
    {
      if state.attempts[a].Orphan? { Apply(Cancel(a, fault)); }
    }
  }
}
