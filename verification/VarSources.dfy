/** Ordering var sources so that each comes after the sources its configuration reads from. */
module VarSources {
  import opened Prelude

  /** A var source and the names of the variables its configuration mentions. */
  datatype Source = Source(name: string, varNames: seq<string>)

  // ----- dependencies -----

  /** The text before the first colon, when there is one. */
  function SourceOf(varName: string): Option<string>
  {
    if varName == "" then None
    else if varName[0] == ':' then Some("")
    else
      var rest := SourceOf(varName[1..]);
      if rest.None? then None else Some([varName[0]] + rest.value)
  }

  function Deps(varNames: seq<string>): seq<string> {
    if varNames == [] then []
    else
      var last := SourceOf(varNames[|varNames| - 1]);
      Deps(varNames[..|varNames| - 1]) + if last.Some? then [last.value] else []
  }

  /** A variable's source is what stands before a colon, with no colon in it. */
  lemma {:induction false} SourceOfSplits(varName: string)
    ensures SourceOf(varName).None? <==> ':' !in varName
    ensures SourceOf(varName).Some? ==>
      ':' !in SourceOf(varName).value && SourceOf(varName).value + ":" <= varName
  {
    if varName != "" && varName[0] != ':' {
      SourceOfSplits(varName[1..]);
      assert varName == [varName[0]] + varName[1..];
      if SourceOf(varName).Some? {
        var rest := SourceOf(varName[1..]).value;
        assert SourceOf(varName).value + ":" == [varName[0]] + (rest + ":");
      }
    }
  }

  function DepsOf(s: Source): seq<string> { Deps(s.varNames) }

  predicate Ready(s: Source, added: set<string>) {
    forall k :: 0 <= k < |DepsOf(s)| ==> DepsOf(s)[k] in added
  }

  function Names(sources: seq<Source>): set<string> { set s | s in sources :: s.name }

  /** Every dependency names an earlier element. */
  ghost predicate DependencyOrdered(sources: seq<Source>) {
    forall i :: 0 <= i < |sources| ==> Placed(sources, i)
  }

  predicate Placed(sources: seq<Source>, i: nat)
    requires i < |sources|
  {
    Ready(sources[i], Names(sources[..i]))
  }

  // ----- the ordering -----

  datatype Progress = Progress(ordered: seq<Source>, pending: seq<Source>)

  /** One pass over the pending sources, from the k-th on, keeping in left those still not ready. */
  function Sweep(p: Progress, k: nat, left: seq<Source>): Progress
    requires k <= |p.pending|
    decreases |p.pending| - k
  {
    if k == |p.pending| then Progress(p.ordered, left)
    else if Ready(p.pending[k], Names(p.ordered)) then
      Sweep(Progress(p.ordered + [p.pending[k]], p.pending), k + 1, left)
    else Sweep(p, k + 1, left + [p.pending[k]])
  }

  /** A source arrives: it is placed and the pending ones are swept once, or it joins them. */
  function Arrive(p: Progress, s: Source): Progress {
    if Ready(s, Names(p.ordered)) then Sweep(Progress(p.ordered + [s], p.pending), 0, [])
    else Progress(p.ordered, p.pending + [s])
  }

  function ArriveAll(sources: seq<Source>): Progress {
    if sources == [] then Progress([], [])
    else Arrive(ArriveAll(sources[..|sources| - 1]), sources[|sources| - 1])
  }

  function Order(sources: seq<Source>): Option<seq<Source>> {
    var p := ArriveAll(sources);
    if p.pending == [] then Some(p.ordered) else None
  }

  method Dependencies(s: Source) returns (deps: seq<string>)
    ensures deps == DepsOf(s)
  {
    deps := [];
    for i := 0 to |s.varNames|
      invariant deps == Deps(s.varNames[..i])
    {
      assert s.varNames[..i + 1][..i] == s.varNames[..i];
      var source := SourceOf(s.varNames[i]);
      if source.Some? { deps := deps + [source.value]; }
    }
    assert s.varNames[..|s.varNames|] == s.varNames;
  }

  method Misses(s: Source, deps: seq<string>, added: set<string>) returns (miss: bool)
    requires deps == DepsOf(s)
    ensures miss == !Ready(s, added)
  {
    for i := 0 to |deps|
      invariant forall k :: 0 <= k < i ==> deps[k] in added
    {
      if deps[i] !in added { return true; }
    }
    return false;
  }

  lemma NamesSnoc(sources: seq<Source>, s: Source)
    ensures Names(sources + [s]) == Names(sources) + {s.name}
  {
    assert forall t :: t in sources + [s] <==> t in sources || t == s;
  }

  method OrderByDependency(sources: seq<Source>) returns (r: Option<seq<Source>>)
    ensures r == Order(sources)
  {
    var ordered: seq<Source>, pending: seq<Source>, added: set<string> := [], [], {};
    for i := 0 to |sources|
      invariant ArriveAll(sources[..i]) == Progress(ordered, pending)
      invariant added == Names(ordered)
    {
      assert sources[..i + 1][..i] == sources[..i];
      var deps := Dependencies(sources[i]);
      var miss := Misses(sources[i], deps, added);
      if miss {
        pending := pending + [sources[i]];
        continue;
      }
      NamesSnoc(ordered, sources[i]);
      ordered, added := ordered + [sources[i]], added + {sources[i].name};
      ordered, pending, added := SweepPending(ordered, pending, added);
    }
    assert sources[..|sources|] == sources;
    return if |pending| > 0 then None else Some(ordered);
  }

  method SweepPending(ordered0: seq<Source>, pending: seq<Source>, added0: set<string>)
    returns (ordered: seq<Source>, left: seq<Source>, added: set<string>)
    requires added0 == Names(ordered0)
    ensures Progress(ordered, left) == Sweep(Progress(ordered0, pending), 0, [])
    ensures added == Names(ordered)
  {
    ordered, left, added := ordered0, [], added0;
    for k := 0 to |pending|
      invariant added == Names(ordered)
      invariant Sweep(Progress(ordered0, pending), 0, []) == Sweep(Progress(ordered, pending), k, left)
    {
      var deps := Dependencies(pending[k]);
      var miss := Misses(pending[k], deps, added);
      if miss {
        left := left + [pending[k]];
      } else {
        NamesSnoc(ordered, pending[k]);
        ordered, added := ordered + [pending[k]], added + {pending[k].name};
      }
    }
  }

  // ----- what it keeps -----

  function All(p: Progress): multiset<Source> { multiset(p.ordered) + multiset(p.pending) }

  lemma OrderedSnoc(sources: seq<Source>, s: Source)
    requires DependencyOrdered(sources) && Ready(s, Names(sources))
    ensures DependencyOrdered(sources + [s])
  {
    forall i | 0 <= i <= |sources|
      ensures Placed(sources + [s], i)
    {
      assert i < |sources| ==> Placed(sources, i);
      assert (sources + [s])[..i] == sources[..i];
      assert i == |sources| ==> sources[..i] == sources;
    }
  }

  lemma {:induction false} SweepKeeps(p: Progress, k: nat, left: seq<Source>)
    requires k <= |p.pending| && DependencyOrdered(p.ordered)
    ensures DependencyOrdered(Sweep(p, k, left).ordered)
    ensures All(Sweep(p, k, left)) == multiset(p.ordered) + multiset(left) + multiset(p.pending[k..])
    decreases |p.pending| - k
  {
    if k < |p.pending| {
      assert p.pending[k..] == [p.pending[k]] + p.pending[k + 1..];
      if Ready(p.pending[k], Names(p.ordered)) {
        OrderedSnoc(p.ordered, p.pending[k]);
        SweepKeeps(Progress(p.ordered + [p.pending[k]], p.pending), k + 1, left);
      } else {
        SweepKeeps(p, k + 1, left + [p.pending[k]]);
      }
    }
  }

  /** At every stage nothing is lost or repeated, and what is ordered is in dependency order. */
  lemma {:induction false} ArrivalsKeep(sources: seq<Source>)
    ensures DependencyOrdered(ArriveAll(sources).ordered)
    ensures All(ArriveAll(sources)) == multiset(sources)
  {
    if sources != [] {
      var n := |sources| - 1;
      var p, s := ArriveAll(sources[..n]), sources[n];
      ArrivalsKeep(sources[..n]);
      assert sources == sources[..n] + [s];
      if Ready(s, Names(p.ordered)) {
        OrderedSnoc(p.ordered, s);
        var placed := Progress(p.ordered + [s], p.pending);
        SweepKeeps(placed, 0, []);
        assert placed.pending[0..] == p.pending;
      }
    }
  }

  /** A result is a permutation of the input in which every dependency names an earlier element. */
  lemma OrderIsSound(sources: seq<Source>)
    requires Order(sources).Some?
    ensures multiset(Order(sources).value) == multiset(sources)
    ensures DependencyOrdered(Order(sources).value)
  {
    ArrivalsKeep(sources);
  }

  lemma ReadyArrives(ordered: seq<Source>, s: Source)
    requires Ready(s, Names(ordered))
    ensures Arrive(Progress(ordered, []), s) == Progress(ordered + [s], [])
  {
  }

  lemma {:induction false} OrderedArrives(sources: seq<Source>, n: nat)
    requires DependencyOrdered(sources) && n <= |sources|
    ensures ArriveAll(sources[..n]) == Progress(sources[..n], [])
  {
    if n > 0 {
      OrderedArrives(sources, n - 1);
      assert Placed(sources, n - 1);
      ReadyArrives(sources[..n - 1], sources[n - 1]);
      var front := sources[..n];
      assert front[..|front| - 1] == sources[..n - 1];
      assert sources[..n - 1] + [sources[n - 1]] == front;
    }
  }

  /** An input already in dependency order is returned as it is. */
  lemma OrderedIsUnchanged(sources: seq<Source>)
    requires DependencyOrdered(sources)
    ensures Order(sources) == Some(sources)
  {
    OrderedArrives(sources, |sources|);
    assert sources[..|sources|] == sources;
  }

  // ----- what it refuses -----

  /** Sources that only ever wait for each other: every one named in s depends on something named in s. */
  ghost predicate Circular(sources: seq<Source>, names: set<string>) {
    forall s :: s in sources && s.name in names ==> exists k :: 0 <= k < |DepsOf(s)| && DepsOf(s)[k] in names
  }

  lemma {:induction false} NoneInCircle(sources: seq<Source>, names: set<string>, n: nat)
    requires DependencyOrdered(sources) && Circular(sources, names) && n <= |sources|
    ensures Names(sources[..n]) !! names
  {
    if n > 0 {
      NoneInCircle(sources, names, n - 1);
      var s := sources[n - 1];
      assert sources[..n] == sources[..n - 1] + [s];
      NamesSnoc(sources[..n - 1], s);
      assert s in sources && Placed(sources, n - 1);
    }
  }

  lemma NotInCircle(sources: seq<Source>, names: set<string>, s: Source)
    requires DependencyOrdered(sources) && Circular(sources, names) && s in sources
    ensures s.name !in names
  {
    NoneInCircle(sources, names, |sources|);
    assert sources[..|sources|] == sources;
    assert s.name in Names(sources);
  }

  lemma DepsAreListed(sources: seq<Source>, s: Source, k: nat)
    requires DependencyOrdered(sources) && s in sources && k < |DepsOf(s)|
    ensures DepsOf(s)[k] in Names(sources)
  {
    var i :| 0 <= i < |sources| && sources[i] == s;
    assert Placed(sources, i);
  }

  lemma PermutationHasSameMembers(a: seq<Source>, b: seq<Source>)
    requires multiset(a) == multiset(b)
    ensures forall s :: s in a <==> s in b
  {
    assert forall s :: s in a <==> s in multiset(a);
    assert forall s :: s in b <==> s in multiset(b);
  }

  /** Any circle, of whatever length, is refused. */
  lemma CirclesAreRefused(sources: seq<Source>, names: set<string>, s: Source)
    requires Circular(sources, names) && s in sources && s.name in names
    ensures Order(sources).None?
  {
    if Order(sources).Some? {
      OrderIsSound(sources);
      PermutationHasSameMembers(Order(sources).value, sources);
      NotInCircle(Order(sources).value, names, s);
    }
  }

  /** A dependency on anything unlisted is refused. */
  lemma MissingIsRefused(sources: seq<Source>, s: Source, k: nat)
    requires s in sources && k < |DepsOf(s)| && DepsOf(s)[k] !in Names(sources)
    ensures Order(sources).None?
  {
    if Order(sources).Some? {
      OrderIsSound(sources);
      PermutationHasSameMembers(Order(sources).value, sources);
      DepsAreListed(Order(sources).value, s, k);
    }
  }

  // ----- exactly what it accepts -----

  /**
    Source i is placed once t sources have arrived, said without any list: it was before, or the
    t-th source arrived ready and i is that source, or i waits only for what was placed before, for
    that source, and for sources listed before i that are placed now too.
   */
  predicate PlacedBy(sources: seq<Source>, t: nat, i: nat)
    requires t <= |sources| && i < |sources|
    decreases t, i, 2
  {
    && i < t
    && (PlacedBy(sources, t - 1, i)
        || (Triggers(sources, t - 1) && (i == t - 1 || forall d | d in DepsOf(sources[i]) :: Provided(sources, t, i, d))))
  }

  /** The source at t arrives with everything it depends on placed. */
  predicate Triggers(sources: seq<Source>, t: nat)
    requires t < |sources|
    decreases t, |sources|, 1
  {
    forall d | d in DepsOf(sources[t]) :: exists j :: 0 <= j < |sources| && sources[j].name == d && PlacedBy(sources, t, j)
  }

  predicate Provided(sources: seq<Source>, t: nat, i: nat, d: string)
    requires 0 < t <= |sources| && i < t
    decreases t, i, 1
  {
    exists j :: 0 <= j < t && sources[j].name == d
      && (j == t - 1 || PlacedBy(sources, t - 1, j) || (j < i && PlacedBy(sources, t, j)))
  }

  /** PlacedBy as a property of positions. */
  function By(sources: seq<Source>, t: nat): nat -> bool
    requires t <= |sources|
  {
    (i: nat) => i < |sources| && PlacedBy(sources, t, i)
  }

  /** The sources below n without a property, in order. */
  function Remaining(sources: seq<Source>, placed: nat -> bool, n: nat): seq<Source>
    requires n <= |sources|
  {
    if n == 0 then []
    else if placed(n - 1) then Remaining(sources, placed, n - 1)
    else Remaining(sources, placed, n - 1) + [sources[n - 1]]
  }

  /** The names of the sources below n with a property. */
  ghost function Gained(sources: seq<Source>, placed: nat -> bool, n: nat): set<string>
    requires n <= |sources|
  {
    set i | 0 <= i < n && placed(i) :: sources[i].name
  }

  lemma GainedNext(sources: seq<Source>, placed: nat -> bool, n: nat)
    requires n < |sources|
    ensures Gained(sources, placed, n + 1) ==
      if placed(n) then Gained(sources, placed, n) + {sources[n].name} else Gained(sources, placed, n)
  {
  }

  /** Where a remaining source stands in the list. */
  lemma {:induction false} RemainingAt(sources: seq<Source>, placed: nat -> bool, n: nat, end: nat)
    requires n <= end <= |sources|
    ensures |Remaining(sources, placed, n)| <= |Remaining(sources, placed, end)|
    ensures n < end && !placed(n) ==>
      && |Remaining(sources, placed, n)| < |Remaining(sources, placed, end)|
      && Remaining(sources, placed, end)[|Remaining(sources, placed, n)|] == sources[n]
    decreases end
  {
    if n < end { RemainingAt(sources, placed, n, end - 1); }
  }

  lemma SweepOne(ordered: seq<Source>, pending: seq<Source>, k: nat, left: seq<Source>, ready: bool, s: Source)
    requires k < |pending| && pending[k] == s && ready == Ready(s, Names(ordered))
    ensures Sweep(Progress(ordered, pending), k, left) ==
      if ready then Sweep(Progress(ordered + [s], pending), k + 1, left)
      else Sweep(Progress(ordered, pending), k + 1, left + [s])
  {
  }

  /** At its turn in the sweep a waiting source is ready iff it is placed now. */
  ghost predicate Fair(sources: seq<Source>, t: nat, before: nat -> bool, now: nat -> bool, base: set<string>)
    requires t <= |sources|
  {
    forall i :: 0 <= i < t ==> Turn(sources, i, before, now, base)
  }

  ghost predicate Turn(sources: seq<Source>, i: nat, before: nat -> bool, now: nat -> bool, base: set<string>)
    requires i < |sources|
  {
    if before(i) then now(i) && sources[i].name in base
    else now(i) <==> Ready(sources[i], base + Gained(sources, now, i))
  }

  lemma TurnGains(sources: seq<Source>, i: nat, before: nat -> bool, now: nat -> bool, base: set<string>)
    requires i < |sources| && Turn(sources, i, before, now, base)
    ensures base + Gained(sources, now, i + 1) ==
      if now(i) && !before(i) then base + Gained(sources, now, i) + {sources[i].name}
      else base + Gained(sources, now, i)
  {
    GainedNext(sources, now, i);
  }

  lemma SweepStep(sources: seq<Source>, t: nat, before: nat -> bool, now: nat -> bool, ordered: seq<Source>, n: nat)
    requires n < t <= |sources|
    requires if before(n) then now(n) else now(n) == Ready(sources[n], Names(ordered))
    ensures |Remaining(sources, before, n)| <= |Remaining(sources, before, n + 1)| <= |Remaining(sources, before, t)|
    ensures
      var next := if now(n) && !before(n) then ordered + [sources[n]] else ordered;
      Sweep(Progress(ordered, Remaining(sources, before, t)), |Remaining(sources, before, n)|, Remaining(sources, now, n))
      == Sweep(Progress(next, Remaining(sources, before, t)), |Remaining(sources, before, n + 1)|,
               Remaining(sources, now, n + 1))
  {
    RemainingAt(sources, before, n, t);
    RemainingAt(sources, before, n + 1, t);
    if !before(n) {
      SweepOne(ordered, Remaining(sources, before, t), |Remaining(sources, before, n)|, Remaining(sources, now, n),
               now(n), sources[n]);
    }
  }

  /** One turn of a fair sweep. */
  lemma SweepTurn(sources: seq<Source>, t: nat, before: nat -> bool, now: nat -> bool, base: set<string>,
      ordered: seq<Source>, n: nat) returns (next: seq<Source>)
    requires n < t <= |sources| && Turn(sources, n, before, now, base)
    requires Names(ordered) == base + Gained(sources, now, n)
    ensures Names(next) == base + Gained(sources, now, n + 1)
    ensures |Remaining(sources, before, n)| <= |Remaining(sources, before, n + 1)| <= |Remaining(sources, before, t)|
    ensures Sweep(Progress(ordered, Remaining(sources, before, t)), |Remaining(sources, before, n)|,
                  Remaining(sources, now, n))
         == Sweep(Progress(next, Remaining(sources, before, t)), |Remaining(sources, before, n + 1)|,
                  Remaining(sources, now, n + 1))
  {
    TurnGains(sources, n, before, now, base);
    SweepStep(sources, t, before, now, ordered, n);
    NamesSnoc(ordered, sources[n]);
    next := if now(n) && !before(n) then ordered + [sources[n]] else ordered;
  }

  /** A sweep that is fair leaves exactly what is not placed now. */
  lemma {:induction false} SweepLeaves(sources: seq<Source>, t: nat, before: nat -> bool, now: nat -> bool,
      base: set<string>, ordered: seq<Source>, n: nat)
    requires n <= t <= |sources| && Fair(sources, t, before, now, base)
    requires Names(ordered) == base + Gained(sources, now, n)
    ensures |Remaining(sources, before, n)| <= |Remaining(sources, before, t)|
    ensures
      var p := Sweep(Progress(ordered, Remaining(sources, before, t)), |Remaining(sources, before, n)|,
                     Remaining(sources, now, n));
      p.pending == Remaining(sources, now, t) && Names(p.ordered) == base + Gained(sources, now, t)
    decreases t - n
  {
    if n < t {
      var next := SweepTurn(sources, t, before, now, base, ordered, n);
      SweepLeaves(sources, t, before, now, base, next, n + 1);
    }
  }

  // ----- the lists are as PlacedBy says -----

  lemma TriggersIffReady(sources: seq<Source>, t: nat)
    requires t < |sources|
    ensures Triggers(sources, t) <==> Ready(sources[t], Gained(sources, By(sources, t), t))
  {
    var added := Gained(sources, By(sources, t), t);
    forall d | d in DepsOf(sources[t])
      ensures d in added <==> exists j :: 0 <= j < |sources| && sources[j].name == d && PlacedBy(sources, t, j)
    {
    }
  }

  lemma PlacedStays(sources: seq<Source>, t: nat, i: nat)
    requires t < |sources| && i < |sources| && PlacedBy(sources, t, i)
    ensures PlacedBy(sources, t + 1, i)
  {
  }

  lemma NotSwept(sources: seq<Source>, t: nat, i: nat)
    requires t < |sources| && i < |sources| && !Triggers(sources, t)
    ensures PlacedBy(sources, t + 1, i) <==> PlacedBy(sources, t, i)
    ensures i >= t ==> !PlacedBy(sources, t, i)
  {
  }

  /** The sweep of a source that arrived ready is fair. */
  lemma ArrivalIsFair(sources: seq<Source>, t: nat)
    requires t < |sources| && Triggers(sources, t)
    ensures Fair(sources, t, By(sources, t), By(sources, t + 1),
                 Gained(sources, By(sources, t), t) + {sources[t].name})
  {
    var before, now, base := By(sources, t), By(sources, t + 1), Gained(sources, By(sources, t), t) + {sources[t].name};
    forall i | 0 <= i < t
      ensures Turn(sources, i, before, now, base)
    {
      TurnIsFair(sources, t, i);
    }
  }

  lemma TurnIsFair(sources: seq<Source>, t: nat, i: nat)
    requires i < t < |sources| && Triggers(sources, t)
    ensures Turn(sources, i, By(sources, t), By(sources, t + 1), Gained(sources, By(sources, t), t) + {sources[t].name})
  {
    var base := Gained(sources, By(sources, t), t) + {sources[t].name};
    var added := base + Gained(sources, By(sources, t + 1), i);
    if PlacedBy(sources, t, i) {
      PlacedStays(sources, t, i);
      assert sources[i].name in base;
    } else {
      forall d | d in DepsOf(sources[i])
        ensures d in added <==> Provided(sources, t + 1, i, d)
      {
      }
    }
  }

  lemma {:induction false} SameRemaining(sources: seq<Source>, p: nat -> bool, q: nat -> bool, n: nat)
    requires n <= |sources| && forall i :: 0 <= i < n ==> p(i) == q(i)
    ensures Remaining(sources, p, n) == Remaining(sources, q, n) && Gained(sources, p, n) == Gained(sources, q, n)
  {
    if n > 0 {
      SameRemaining(sources, p, q, n - 1);
      GainedNext(sources, p, n - 1);
      GainedNext(sources, q, n - 1);
    }
  }

  lemma WaitingJoins(sources: seq<Source>, before: nat -> bool, now: nat -> bool, t: nat)
    requires t < |sources| && !now(t) && forall i :: 0 <= i < t ==> before(i) == now(i)
    ensures Remaining(sources, now, t + 1) == Remaining(sources, before, t) + [sources[t]]
    ensures Gained(sources, now, t + 1) == Gained(sources, before, t)
  {
    SameRemaining(sources, before, now, t);
    GainedNext(sources, now, t);
  }

  lemma AllGained(sources: seq<Source>, t: nat)
    requires t < |sources| && Triggers(sources, t)
    ensures Gained(sources, By(sources, t), t) + {sources[t].name} + Gained(sources, By(sources, t + 1), t)
         == Gained(sources, By(sources, t + 1), t + 1)
  {
    GainedNext(sources, By(sources, t + 1), t);
    assert By(sources, t + 1)(t);
    forall name | name in Gained(sources, By(sources, t), t)
      ensures name in Gained(sources, By(sources, t + 1), t)
    {
      var i :| 0 <= i < t && By(sources, t)(i) && sources[i].name == name;
      PlacedStays(sources, t, i);
      assert By(sources, t + 1)(i);
    }
  }

  ghost predicate Tracked(sources: seq<Source>, t: nat, p: Progress)
    requires t <= |sources|
  {
    p.pending == Remaining(sources, By(sources, t), t) && Names(p.ordered) == Gained(sources, By(sources, t), t)
  }

  lemma ReadyArrivalTracks(sources: seq<Source>, t: nat, p: Progress)
    requires t < |sources| && Tracked(sources, t, p) && Triggers(sources, t)
    ensures Tracked(sources, t + 1, Arrive(p, sources[t]))
  {
    var base := Gained(sources, By(sources, t), t) + {sources[t].name};
    TriggersIffReady(sources, t);
    NamesSnoc(p.ordered, sources[t]);
    ArrivalIsFair(sources, t);
    assert base + Gained(sources, By(sources, t + 1), 0) == base;
    SweepLeaves(sources, t, By(sources, t), By(sources, t + 1), base, p.ordered + [sources[t]], 0);
    AllGained(sources, t);
    assert By(sources, t + 1)(t);
  }

  lemma WaitingArrivalTracks(sources: seq<Source>, t: nat, p: Progress)
    requires t < |sources| && Tracked(sources, t, p) && !Triggers(sources, t)
    ensures Tracked(sources, t + 1, Arrive(p, sources[t]))
  {
    TriggersIffReady(sources, t);
    var before, now := By(sources, t), By(sources, t + 1);
    forall i | 0 <= i <= t
      ensures before(i) == now(i) && (i == t ==> !now(i))
    {
      NotSwept(sources, t, i);
    }
    WaitingJoins(sources, before, now, t);
  }

  /** After any number of arrivals the pending list and the ordered names are as PlacedBy says. */
  lemma {:induction false} ArrivalsTrack(sources: seq<Source>, t: nat)
    requires t <= |sources|
    ensures Tracked(sources, t, ArriveAll(sources[..t]))
  {
    if t > 0 {
      ArrivalsTrack(sources, t - 1);
      assert sources[..t][..t - 1] == sources[..t - 1];
      if Triggers(sources, t - 1) {
        ReadyArrivalTracks(sources, t - 1, ArriveAll(sources[..t - 1]));
      } else {
        WaitingArrivalTracks(sources, t - 1, ArriveAll(sources[..t - 1]));
      }
    }
  }

  lemma {:induction false} NoneRemains(sources: seq<Source>, placed: nat -> bool, n: nat)
    requires n <= |sources|
    ensures Remaining(sources, placed, n) == [] <==> forall i :: 0 <= i < n ==> placed(i)
  {
    if n > 0 { NoneRemains(sources, placed, n - 1); }
  }

  ghost predicate AllPlaced(sources: seq<Source>) {
    forall i :: 0 <= i < |sources| ==> By(sources, |sources|)(i)
  }

  /** An order is found exactly when every source is placed by the end. */
  lemma AcceptedIffAllPlaced(sources: seq<Source>)
    ensures Order(sources).Some? <==> AllPlaced(sources)
  {
    ArrivalsTrack(sources, |sources|);
    assert sources[..|sources|] == sources;
    NoneRemains(sources, By(sources, |sources|), |sources|);
  }

  // ----- a condition on the listing alone -----

  /** Every dependency of source i is the name of a source at one of these positions. */
  ghost predicate SuppliedBy(sources: seq<Source>, at: set<nat>, i: nat)
    requires i < |sources|
  {
    forall d | d in DepsOf(sources[i]) :: exists j :: j in at && j < |sources| && sources[j].name == d
  }

  /** Positions below n that supply each other: all their dependencies, and theirs in turn, are among them. */
  ghost predicate SelfSupplied(sources: seq<Source>, at: set<nat>, n: nat) {
    n <= |sources| && forall i :: i in at ==> i < n && SuppliedBy(sources, at, i)
  }

  /** The source's dependencies, transitively, are all listed before it. */
  ghost predicate BackedBefore(sources: seq<Source>, j: nat)
    requires j < |sources|
  {
    exists at :: SelfSupplied(sources, at, j) && SuppliedBy(sources, at, j)
  }

  /** Every dependency is listed, and one listed no earlier than its user is itself backed before. */
  ghost predicate ForwardsAreBacked(sources: seq<Source>) {
    && (forall i :: 0 <= i < |sources| ==> Ready(sources[i], Names(sources)))
    && forall i, j :: 0 <= i <= j < |sources| && sources[j].name in DepsOf(sources[i]) ==> BackedBefore(sources, j)
  }

  lemma {:induction false} PlacedLater(sources: seq<Source>, t: nat, u: nat, i: nat)
    requires t <= u <= |sources| && i < |sources| && PlacedBy(sources, t, i)
    ensures PlacedBy(sources, u, i)
    decreases u
  {
    if t < u { PlacedLater(sources, t, u - 1, i); PlacedStays(sources, u - 1, i); }
  }

  lemma SuppliedTriggers(sources: seq<Source>, at: set<nat>, t: nat)
    requires t < |sources| && SuppliedBy(sources, at, t)
    requires forall j :: j in at && j < |sources| ==> PlacedBy(sources, t, j)
    ensures Triggers(sources, t)
  {
  }

  /** Positions that supply each other are all placed once the last of them has arrived. */
  lemma {:induction false} SelfSuppliedArePlaced(sources: seq<Source>, at: set<nat>, t: nat, i: nat)
    requires ForwardsAreBacked(sources) && SelfSupplied(sources, at, t) && i in at
    ensures PlacedBy(sources, t, i)
    decreases t, 1, i, 1
  {
    if t - 1 !in at {
      SelfSuppliedArePlaced(sources, at, t - 1, i);
      PlacedStays(sources, t - 1, i);
    } else {
      SelfSuppliedTriggers(sources, at, t - 1);
      if i < t - 1 {
        forall d | d in DepsOf(sources[i])
          ensures Provided(sources, t, i, d)
        {
          SelfSuppliedProvides(sources, at, t, i, d);
        }
      }
    }
  }

  lemma {:induction false} SelfSuppliedProvides(sources: seq<Source>, at: set<nat>, t: nat, i: nat, d: string)
    requires ForwardsAreBacked(sources) && SelfSupplied(sources, at, t) && i in at && d in DepsOf(sources[i])
    ensures Provided(sources, t, i, d)
    decreases t, 1, i, 0
  {
    var j := Supplier(sources, at, t, i, d);
    if j < i {
      SelfSuppliedArePlaced(sources, at, t, j);
    } else if j < t - 1 {
      ForwardIsBacked(sources, i, j);
      BackedIsPlaced(sources, j);
      PlacedLater(sources, j + 1, t - 1, j);
    }
    ProvidedBy(sources, t, i, j);
  }

  lemma Supplier(sources: seq<Source>, at: set<nat>, t: nat, i: nat, d: string) returns (j: nat)
    requires SelfSupplied(sources, at, t) && i in at && d in DepsOf(sources[i])
    ensures j in at && j < t && sources[j].name == d
  {
    assert SuppliedBy(sources, at, i);
    j :| j in at && j < |sources| && sources[j].name == d;
  }

  lemma ForwardIsBacked(sources: seq<Source>, i: nat, j: nat)
    requires ForwardsAreBacked(sources) && i <= j < |sources| && sources[j].name in DepsOf(sources[i])
    ensures BackedBefore(sources, j)
  {
  }

  lemma ProvidedBy(sources: seq<Source>, t: nat, i: nat, j: nat)
    requires 0 < t <= |sources| && i < t && j < t
    requires j == t - 1 || PlacedBy(sources, t - 1, j) || (j < i && PlacedBy(sources, t, j))
    ensures Provided(sources, t, i, sources[j].name)
  {
  }

  lemma {:induction false} BackedIsPlaced(sources: seq<Source>, j: nat)
    requires ForwardsAreBacked(sources) && j < |sources| && BackedBefore(sources, j)
    ensures Triggers(sources, j) && PlacedBy(sources, j + 1, j)
    decreases j, 2, 0
  {
    var at :| SelfSupplied(sources, at, j) && SuppliedBy(sources, at, j);
    forall i | i in at
      ensures PlacedBy(sources, j, i)
    {
      SelfSuppliedArePlaced(sources, at, j, i);
    }
    SuppliedTriggers(sources, at, j);
  }

  /** The last of them arrives ready: either one of the others needed it, or the others do without it. */
  lemma {:induction false} SelfSuppliedTriggers(sources: seq<Source>, at: set<nat>, t: nat)
    requires ForwardsAreBacked(sources) && SelfSupplied(sources, at, t + 1) && t in at
    ensures Triggers(sources, t)
    decreases t, 3, 0
  {
    if exists i :: i in at && sources[t].name in DepsOf(sources[i]) {
      var i :| i in at && sources[t].name in DepsOf(sources[i]);
      BackedIsPlaced(sources, t);
    } else {
      var others := at - {t};
      StillSupplied(sources, at, t);
      forall i | i in others
        ensures PlacedBy(sources, t, i)
      {
        SelfSuppliedArePlaced(sources, others, t, i);
      }
      SuppliedTriggers(sources, others, t);
    }
  }

  lemma StillSupplied(sources: seq<Source>, at: set<nat>, t: nat)
    requires SelfSupplied(sources, at, t + 1) && t in at
    requires forall i :: i in at ==> sources[t].name !in DepsOf(sources[i])
    ensures SelfSupplied(sources, at - {t}, t) && SuppliedBy(sources, at - {t}, t)
  {
    forall i | i in at
      ensures SuppliedBy(sources, at - {t}, i)
    {
      forall d | d in DepsOf(sources[i])
        ensures exists j :: j in at - {t} && j < |sources| && sources[j].name == d
      {
        var j :| j in at && j < |sources| && sources[j].name == d;
        assert j in at - {t};
      }
    }
  }

  function Positions(n: nat): (at: set<nat>)
    ensures forall i: nat :: i in at <==> i < n
  {
    if n == 0 then {} else Positions(n - 1) + {n - 1}
  }

  /** Listings whose forward dependencies are backed before they come are accepted. */
  lemma BackedForwardsAreAccepted(sources: seq<Source>)
    requires ForwardsAreBacked(sources)
    ensures Order(sources).Some?
  {
    var n := |sources|;
    var all := Positions(n);
    forall i | i in all
      ensures SuppliedBy(sources, all, i)
    {
      forall d | d in DepsOf(sources[i])
        ensures exists j :: j in all && j < n && sources[j].name == d
      {
        var s :| s in sources && s.name == d;
        var j :| 0 <= j < n && sources[j] == s;
        assert j in all;
      }
    }
    forall i | 0 <= i < n
      ensures By(sources, n)(i)
    {
      assert i in all;
      SelfSuppliedArePlaced(sources, all, n, i);
    }
    AcceptedIffAllPlaced(sources);
  }

  // ----- a chain given back to front -----

  /** Each source but the last depends on the next one and on nothing else. */
  ghost predicate BackToFront(sources: seq<Source>) {
    && (forall i, j :: 0 <= i < j < |sources| ==> sources[i].name != sources[j].name)
    && forall i :: 0 <= i < |sources| ==> Linked(sources, i)
  }

  predicate Linked(sources: seq<Source>, i: nat)
    requires i < |sources|
  {
    DepsOf(sources[i]) == if i == |sources| - 1 then [] else [sources[i + 1].name]
  }

  lemma {:induction false} ChainWaits(sources: seq<Source>, t: nat, i: nat)
    requires BackToFront(sources) && t < |sources| && i < |sources|
    ensures !PlacedBy(sources, t, i)
  {
    if 0 < t {
      ChainWaits(sources, t - 1, i);
      assert Linked(sources, t - 1);
      assert sources[t].name in DepsOf(sources[t - 1]);
      forall j | 0 <= j < |sources|
        ensures sources[j].name == sources[t].name ==> !PlacedBy(sources, t - 1, j)
      {
        ChainWaits(sources, t - 1, j);
      }
      assert !Triggers(sources, t - 1);
    }
  }

  /** A chain of three or more given back to front is refused, although turned round it is in order. */
  lemma ChainBackToFrontIsRefused(sources: seq<Source>)
    requires BackToFront(sources) && |sources| >= 3
    ensures Order(sources).None?
    ensures DependencyOrdered(Reversed(sources)) && multiset(Reversed(sources)) == multiset(sources)
  {
    var n := |sources|;
    assert Linked(sources, 0);
    assert sources[1].name in DepsOf(sources[0]);
    ChainWaits(sources, n - 1, 0);
    ChainWaits(sources, n - 1, 1);
    assert !Provided(sources, n, 0, sources[1].name);
    assert !By(sources, n)(0);
    AcceptedIffAllPlaced(sources);
    ReversedIsOrdered(sources);
    ReversedIsPermutation(sources);
  }

  function Reversed(sources: seq<Source>): seq<Source> {
    if sources == [] then [] else Reversed(sources[1..]) + [sources[0]]
  }

  lemma {:induction false} ReversedIsPermutation(sources: seq<Source>)
    ensures multiset(Reversed(sources)) == multiset(sources)
  {
    if sources != [] {
      ReversedIsPermutation(sources[1..]);
      assert sources == [sources[0]] + sources[1..];
    }
  }

  lemma {:induction false} ReversedIsOrdered(sources: seq<Source>)
    requires BackToFront(sources)
    ensures DependencyOrdered(Reversed(sources))
  {
    if sources != [] {
      var rest := sources[1..];
      forall i | 0 <= i < |rest|
        ensures Linked(rest, i)
      {
        assert Linked(sources, i + 1);
      }
      ReversedIsOrdered(rest);
      ReversedIsPermutation(rest);
      PermutationHasSameMembers(Reversed(rest), rest);
      assert Linked(sources, 0);
      assert rest != [] ==> rest[0] in rest;
      OrderedSnoc(Reversed(rest), sources[0]);
    }
  }
}
