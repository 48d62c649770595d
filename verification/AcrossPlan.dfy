/**
  The plan of one iteration of an across step: every plan inside gets an id of its own, and gets
  that take their version from a plan inside follow it.
 */
module AcrossPlan {
  import opened Prelude
  import opened Decimal
  import opened ImagePlan

  // ----- the two callbacks -----

  /** How many plans were met, and what became of their ids. */
  datatype Numbering = Numbering(count: nat, mapped: map<string, string>)

  function NewId(prefix: string, n: nat): string { prefix + "/" + Format(n) }

  /** The first callback: a new id from the counter, remembered under the old one. */
  function Numbered(prefix: string): Callback<Numbering> {
    (h: Head, s: Numbering) =>
      var id := NewId(prefix, s.count);
      (if h.Fetch? then Fetch(id, h.from) else Other(id), Numbering(s.count + 1, s.mapped[h.id := id]))
  }

  /** The second callback: a version taken from a plan that was renumbered is taken from its new id. */
  function Remapped(mapped: map<string, string>): Callback<()> {
    (h: Head, s: ()) =>
      (if h.Fetch? && h.from.Some? && h.from.value in mapped then Fetch(h.id, Some(mapped[h.from.value])) else h, s)
  }

  // ----- the same in one step -----

  function Rename(mapped: map<string, string>, id: string): string { if id in mapped then mapped[id] else id }

  function RelabelHead(h: Head, mapped: map<string, string>): Head {
    match h
    case Other(id) => Other(Rename(mapped, id))
    case Fetch(id, from) => Fetch(Rename(mapped, id), RenameFrom(mapped, from))
  }

  function RenameFrom(mapped: map<string, string>, from: Option<string>): Option<string> {
    if from.Some? then Some(Rename(mapped, from.value)) else None
  }

  /** The plan with every id, and every id a version comes from, renamed alike. */
  function Relabel(plan: Plan, mapped: map<string, string>): Plan {
    var id := Rename(mapped, plan.id);
    match plan
    case Step(_) => Step(id)
    case Many(_, kind, steps) => Many(id, kind, RelabelAll(steps, mapped))
    case Hooked(_, hook, step, next) => Hooked(id, hook, Relabel(step, mapped), Relabel(next, mapped))
    case Wrapped(_, wrapper, step) => Wrapped(id, wrapper, Relabel(step, mapped))
    case Put(_, image) => Put(id, RelabelImage(image, mapped))
    case Get(_, config, image) =>
      Get(id, config.(versionFrom := RenameFrom(mapped, config.versionFrom)), RelabelImage(image, mapped))
    case Check(_, check, image) => Check(id, check, RelabelImage(image, mapped))
  }

  function RelabelAll(plans: seq<Plan>, mapped: map<string, string>): seq<Plan> {
    if plans == [] then [] else RelabelAll(plans[..|plans| - 1], mapped) + [Relabel(plans[|plans| - 1], mapped)]
  }

  function RelabelImage(image: TypeImage, mapped: map<string, string>): TypeImage {
    image.(check := if image.check.Some? then Some(Relabel(image.check.value, mapped)) else None,
           get := if image.get.Some? then Some(Relabel(image.get.value, mapped)) else None)
  }

  function RelabelHeads(heads: seq<Head>, mapped: map<string, string>): seq<Head> {
    seq(|heads|, k requires 0 <= k < |heads| => RelabelHead(heads[k], mapped))
  }

  lemma RelabelConcat(a: seq<Head>, b: seq<Head>, mapped: map<string, string>)
    ensures RelabelHeads(a + b, mapped) == RelabelHeads(a, mapped) + RelabelHeads(b, mapped)
  {
  }

  lemma {:induction false} HeadsOfRelabel(plan: Plan, mapped: map<string, string>)
    ensures Heads(Relabel(plan, mapped)) == RelabelHeads(Heads(plan), mapped)
    ensures Erase(Relabel(plan, mapped)) == Erase(plan)
    decreases plan, 1
  {
    RelabelConcat([HeadOf(plan)], Inside(plan), mapped);
    match plan
    case Step(_) =>
    case Many(_, _, steps) => HeadsOfRelabelAll(steps, mapped);
    case Hooked(_, _, step, next) =>
      HeadsOfRelabel(step, mapped);
      HeadsOfRelabel(next, mapped);
      RelabelConcat(Heads(step), Heads(next), mapped);
    case Wrapped(_, _, step) => HeadsOfRelabel(step, mapped);
    case Put(_, image) => HeadsOfRelabelImage(image, mapped);
    case Get(_, _, image) => HeadsOfRelabelImage(image, mapped);
    case Check(_, _, image) => HeadsOfRelabelImage(image, mapped);
  }

  lemma {:induction false} HeadsOfRelabelAll(plans: seq<Plan>, mapped: map<string, string>)
    ensures HeadsAll(RelabelAll(plans, mapped)) == RelabelHeads(HeadsAll(plans), mapped)
    ensures EraseAll(RelabelAll(plans, mapped)) == EraseAll(plans)
    decreases plans
  {
    if plans != [] {
      var front, last := plans[..|plans| - 1], plans[|plans| - 1];
      HeadsOfRelabelAll(front, mapped);
      HeadsOfRelabel(last, mapped);
      RelabelConcat(HeadsAll(front), Heads(last), mapped);
      var all := RelabelAll(plans, mapped);
      assert all[..|all| - 1] == RelabelAll(front, mapped);
    }
  }

  lemma {:induction false} HeadsOfRelabelImage(image: TypeImage, mapped: map<string, string>)
    ensures ImageHeads(RelabelImage(image, mapped)) == RelabelHeads(ImageHeads(image), mapped)
    ensures EraseImage(RelabelImage(image, mapped)) == EraseImage(image)
    decreases image, 0
  {
    if image.check.Some? { HeadsOfRelabel(image.check.value, mapped); }
    if image.get.Some? { HeadsOfRelabel(image.get.value, mapped); }
    RelabelConcat(if image.check.Some? then Heads(image.check.value) else [],
                  if image.get.Some? then Heads(image.get.value) else [], mapped);
  }

  // ----- heads and the rest determine a plan -----

  lemma ConcatSplits<T>(a: seq<T>, b: seq<T>, c: seq<T>, d: seq<T>)
    requires a + b == c + d && |a| == |c|
    ensures a == c && b == d
  {
    assert (a + b)[..|a|] == a && (c + d)[..|c|] == c;
    assert (a + b)[|a|..] == b && (c + d)[|c|..] == d;
  }

  lemma {:induction false} EraseKeepsCount(plan: Plan)
    ensures |Heads(Erase(plan))| == |Heads(plan)|
    decreases plan, 1
  {
    match plan
    case Step(_) =>
    case Many(_, _, steps) => EraseAllKeepsCount(steps);
    case Hooked(_, _, step, next) => EraseKeepsCount(step); EraseKeepsCount(next);
    case Wrapped(_, _, step) => EraseKeepsCount(step);
    case Put(_, image) => EraseImageKeepsCount(image);
    case Get(_, _, image) => EraseImageKeepsCount(image);
    case Check(_, _, image) => EraseImageKeepsCount(image);
  }

  lemma {:induction false} EraseAllKeepsCount(plans: seq<Plan>)
    ensures |HeadsAll(EraseAll(plans))| == |HeadsAll(plans)|
    decreases plans
  {
    if plans != [] {
      EraseAllKeepsCount(plans[..|plans| - 1]);
      EraseKeepsCount(plans[|plans| - 1]);
      var erased := EraseAll(plans);
      assert erased[..|erased| - 1] == EraseAll(plans[..|plans| - 1]);
    }
  }

  lemma {:induction false} EraseImageKeepsCount(image: TypeImage)
    ensures |ImageHeads(EraseImage(image))| == |ImageHeads(image)|
    decreases image
  {
    if image.check.Some? { EraseKeepsCount(image.check.value); }
    if image.get.Some? { EraseKeepsCount(image.get.value); }
  }

  lemma SameCount(p: Plan, q: Plan)
    requires Erase(p) == Erase(q)
    ensures |Heads(p)| == |Heads(q)|
  {
    EraseKeepsCount(p);
    EraseKeepsCount(q);
  }

  lemma {:induction false} Determined(p: Plan, q: Plan)
    requires Heads(p) == Heads(q) && Erase(p) == Erase(q)
    ensures p == q
    decreases p, 1
  {
    ConcatSplits([HeadOf(p)], Inside(p), [HeadOf(q)], Inside(q));
    assert [HeadOf(p)][0] == [HeadOf(q)][0];
    match p
    case Step(_) =>
    case Many(_, _, steps) => AllDetermined(steps, q.steps);
    case Hooked(_, _, _, _) => BothDetermined(p, q);
    case Wrapped(_, _, step) => Determined(step, q.step);
    case Put(_, image) => ImageDetermined(image, q.image);
    case Get(_, config, image) => ImageDetermined(image, q.image);
    case Check(_, _, image) => ImageDetermined(image, q.image);
  }

  lemma {:induction false} BothDetermined(p: Plan, q: Plan)
    requires p.Hooked? && q.Hooked? && Inside(p) == Inside(q)
    requires Erase(p.step) == Erase(q.step) && Erase(p.next) == Erase(q.next)
    ensures p.step == q.step && p.next == q.next
    decreases p, 0
  {
    SameCount(p.step, q.step);
    ConcatSplits(Heads(p.step), Heads(p.next), Heads(q.step), Heads(q.next));
    Determined(p.step, q.step);
    Determined(p.next, q.next);
  }

  lemma SnocIsInjective<T>(a: seq<T>, x: T, b: seq<T>, y: T)
    requires a + [x] == b + [y]
    ensures a == b && x == y
  {
    assert |a + [x]| == |a| + 1 && |b + [y]| == |b| + 1;
    assert (a + [x])[..|a|] == a && (b + [y])[..|b|] == b;
    assert (a + [x])[|a|] == x && (b + [y])[|b|] == y;
  }

  lemma LastSplits(ps: seq<Plan>, qs: seq<Plan>)
    requires ps != [] && qs != [] && HeadsAll(ps) == HeadsAll(qs) && EraseAll(ps) == EraseAll(qs)
    ensures HeadsAll(ps[..|ps| - 1]) == HeadsAll(qs[..|qs| - 1]) && EraseAll(ps[..|ps| - 1]) == EraseAll(qs[..|qs| - 1])
    ensures Heads(ps[|ps| - 1]) == Heads(qs[|qs| - 1]) && Erase(ps[|ps| - 1]) == Erase(qs[|qs| - 1])
  {
    var fp, lp, fq, lq := ps[..|ps| - 1], ps[|ps| - 1], qs[..|qs| - 1], qs[|qs| - 1];
    SnocIsInjective(EraseAll(fp), Erase(lp), EraseAll(fq), Erase(lq));
    EraseAllKeepsCount(fp);
    EraseAllKeepsCount(fq);
    ConcatSplits(HeadsAll(fp), Heads(lp), HeadsAll(fq), Heads(lq));
  }

  lemma {:induction false} AllDetermined(ps: seq<Plan>, qs: seq<Plan>)
    requires HeadsAll(ps) == HeadsAll(qs) && EraseAll(ps) == EraseAll(qs)
    ensures ps == qs
    decreases ps
  {
    if ps != [] && qs != [] {
      LastSplits(ps, qs);
      AllDetermined(ps[..|ps| - 1], qs[..|qs| - 1]);
      Determined(ps[|ps| - 1], qs[|qs| - 1]);
      assert ps == ps[..|ps| - 1] + [ps[|ps| - 1]] && qs == qs[..|qs| - 1] + [qs[|qs| - 1]];
    }
  }

  lemma {:induction false} ImageDetermined(a: TypeImage, b: TypeImage)
    requires ImageHeads(a) == ImageHeads(b) && EraseImage(a) == EraseImage(b)
    ensures a == b
    decreases a, 0
  {
    if a.check.Some? { SameCount(a.check.value, b.check.value); }
    ConcatSplits(if a.check.Some? then Heads(a.check.value) else [], if a.get.Some? then Heads(a.get.value) else [],
                 if b.check.Some? then Heads(b.check.value) else [], if b.get.Some? then Heads(b.get.value) else []);
    if a.check.Some? { Determined(a.check.value, b.check.value); }
    if a.get.Some? { Determined(a.get.value, b.get.value); }
  }

  // ----- pairs stay pairs -----

  /** In every image inside, at any depth, the get takes its version from its sibling check. */
  ghost predicate Linked(plan: Plan)
    decreases plan, 1
  {
    match plan
    case Step(_) => true
    case Many(_, _, steps) => forall p | p in steps :: Linked(p)
    case Hooked(_, _, step, next) => Linked(step) && Linked(next)
    case Wrapped(_, _, step) => Linked(step)
    case Put(_, image) => LinkedImage(image)
    case Get(_, _, image) => LinkedImage(image)
    case Check(_, _, image) => LinkedImage(image)
  }

  ghost predicate LinkedImage(image: TypeImage)
    decreases image, 0
  {
    && (image.check.Some? && image.get.Some? ==>
        HeadOf(image.get.value).Fetch? && HeadOf(image.get.value).from == Some(image.check.value.id))
    && (image.check.Some? ==> Linked(image.check.value))
    && (image.get.Some? ==> Linked(image.get.value))
  }

  /** Renaming ids and references to them alike keeps every get paired with its sibling check. */
  lemma {:induction false} RelabelKeepsPairs(plan: Plan, mapped: map<string, string>)
    requires Linked(plan)
    ensures Linked(Relabel(plan, mapped))
    decreases plan, 1
  {
    match plan
    case Step(_) =>
    case Many(_, _, steps) => RelabelKeepsAllPairs(steps, mapped);
    case Hooked(_, _, step, next) => RelabelKeepsPairs(step, mapped); RelabelKeepsPairs(next, mapped);
    case Wrapped(_, _, step) => RelabelKeepsPairs(step, mapped);
    case Put(_, image) => RelabelKeepsImagePairs(image, mapped);
    case Get(_, _, image) => RelabelKeepsImagePairs(image, mapped);
    case Check(_, _, image) => RelabelKeepsImagePairs(image, mapped);
  }

  lemma {:induction false} RelabelKeepsAllPairs(plans: seq<Plan>, mapped: map<string, string>)
    requires forall p | p in plans :: Linked(p)
    ensures forall p | p in RelabelAll(plans, mapped) :: Linked(p)
    decreases plans
  {
    if plans != [] {
      RelabelKeepsAllPairs(plans[..|plans| - 1], mapped);
      RelabelKeepsPairs(plans[|plans| - 1], mapped);
    }
  }

  lemma {:induction false} RelabelKeepsImagePairs(image: TypeImage, mapped: map<string, string>)
    requires LinkedImage(image)
    ensures LinkedImage(RelabelImage(image, mapped))
    decreases image, 0
  {
    if image.check.Some? { RelabelKeepsPairs(image.check.value, mapped); }
    if image.get.Some? { RelabelKeepsPairs(image.get.value, mapped); }
  }

  // ----- the two traversals -----

  /** What the first traversal remembers. */
  ghost function Assigned(heads: seq<Head>, prefix: string): map<string, string> {
    Visit(heads, Numbered(prefix), Numbering(0, map[])).1.mapped
  }

  lemma {:induction false} VisitCounts(heads: seq<Head>, prefix: string)
    ensures Visit(heads, Numbered(prefix), Numbering(0, map[])).1.count == |heads|
  {
    if heads != [] { VisitCounts(heads[..|heads| - 1], prefix); }
  }

  lemma {:induction false} VisitNumbers(heads: seq<Head>, prefix: string, k: nat)
    requires k < |heads|
    ensures Visit(heads, Numbered(prefix), Numbering(0, map[])).0[k] == Written(heads[k], Other(NewId(prefix, k)))
  {
    VisitCounts(heads[..|heads| - 1], prefix);
    if k < |heads| - 1 { VisitNumbers(heads[..|heads| - 1], prefix, k); }
  }

  lemma {:induction false} VisitMaps(heads: seq<Head>, prefix: string)
    ensures Assigned(heads, prefix).Keys == set id | id in IdsOf(heads)
  {
    if heads != [] {
      var front, last := heads[..|heads| - 1], heads[|heads| - 1];
      VisitMaps(front, prefix);
      assert heads == front + [last] && IdsOf([last]) == [last.id];
      IdsConcat(front, [last]);
      AssignedNext(heads, prefix);
    }
  }

  lemma AssignedNext(heads: seq<Head>, prefix: string)
    requires heads != []
    ensures
      var n := |heads| - 1;
      Assigned(heads, prefix) == Assigned(heads[..n], prefix)[heads[n].id := NewId(prefix, n)]
  {
    VisitCounts(heads[..|heads| - 1], prefix);
  }

  lemma {:induction false} VisitRemaps(heads: seq<Head>, mapped: map<string, string>, k: nat)
    requires k < |heads|
    ensures Visit(heads, Remapped(mapped), ()).0[k] == Written(heads[k], Remapped(mapped)(heads[k], ()).0)
  {
    if k < |heads| - 1 { VisitRemaps(heads[..|heads| - 1], mapped, k); }
  }

  lemma DistinctSnoc(ids: seq<string>, id: string)
    requires Distinct(ids + [id])
    ensures Distinct(ids) && id !in ids
  {
    forall i, j | 0 <= i < j < |ids|
      ensures ids[i] != ids[j]
    {
      assert (ids + [id])[i] == ids[i] && (ids + [id])[j] == ids[j];
    }
    forall i | 0 <= i < |ids|
      ensures ids[i] != id
    {
      assert (ids + [id])[i] == ids[i] && (ids + [id])[|ids|] == id;
    }
  }

  lemma {:induction false} DistinctAreMapped(heads: seq<Head>, prefix: string)
    requires Distinct(IdsOf(heads))
    ensures IsMapped(heads, prefix, Assigned(heads, prefix))
  {
    if heads != [] {
      var front, last := heads[..|heads| - 1], heads[|heads| - 1];
      assert heads == front + [last] && IdsOf([last]) == [last.id];
      IdsConcat(front, [last]);
      DistinctSnoc(IdsOf(front), last.id);
      DistinctAreMapped(front, prefix);
      AssignedNext(heads, prefix);
      MappedNext(front, last, prefix, Assigned(front, prefix));
    }
  }

  ghost predicate IsMapped(heads: seq<Head>, prefix: string, mapped: map<string, string>) {
    forall k :: 0 <= k < |heads| ==> heads[k].id in mapped && mapped[heads[k].id] == NewId(prefix, k)
  }

  lemma MappedNext(heads: seq<Head>, last: Head, prefix: string, mapped: map<string, string>)
    requires IsMapped(heads, prefix, mapped) && last.id !in IdsOf(heads)
    ensures IsMapped(heads + [last], prefix, mapped[last.id := NewId(prefix, |heads|)])
  {
    forall k | 0 <= k < |heads|
      ensures heads[k].id != last.id
    {
      assert IdsOf(heads)[k] == heads[k].id;
    }
  }

  /** A head after both callbacks. */
  function Settled(h: Head, id: string, mapped: map<string, string>): Head {
    var numbered := Written(h, Other(id));
    Written(numbered, Remapped(mapped)(numbered, ()).0)
  }

  lemma SettledIsRelabelled(h: Head, id: string, mapped: map<string, string>)
    ensures Settled(h, id, mapped).id == id
    ensures h.id in mapped && mapped[h.id] == id ==> Settled(h, id, mapped) == RelabelHead(h, mapped)
  {
  }

  lemma RenumberedHeads(heads: seq<Head>, prefix: string, numbered: seq<Head>, numbering: Numbering, now: seq<Head>, done: ())
    requires Visit(heads, Numbered(prefix), Numbering(0, map[])) == (numbered, numbering)
    requires Visit(numbered, Remapped(numbering.mapped), ()) == (now, done)
    ensures |now| == |heads| && forall k :: 0 <= k < |now| ==> now[k].id == NewId(prefix, k)
    ensures Distinct(IdsOf(heads)) ==> now == RelabelHeads(heads, numbering.mapped)
  {
    forall k | 0 <= k < |now|
      ensures now[k] == Settled(heads[k], NewId(prefix, k), numbering.mapped)
    {
      VisitNumbers(heads, prefix, k);
      VisitRemaps(numbered, numbering.mapped, k);
    }
    forall k | 0 <= k < |now|
      ensures now[k].id == NewId(prefix, k)
    {
      SettledIsRelabelled(heads[k], NewId(prefix, k), numbering.mapped);
    }
    if Distinct(IdsOf(heads)) {
      DistinctAreMapped(heads, prefix);
      AllRelabelled(heads, prefix, now, numbering.mapped);
    }
  }

  lemma AllRelabelled(heads: seq<Head>, prefix: string, now: seq<Head>, mapped: map<string, string>)
    requires |now| == |heads| && IsMapped(heads, prefix, mapped)
    requires forall k :: 0 <= k < |now| ==> now[k] == Settled(heads[k], NewId(prefix, k), mapped)
    ensures now == RelabelHeads(heads, mapped)
  {
    forall k | 0 <= k < |now|
      ensures now[k] == RelabelHead(heads[k], mapped)
    {
      SettledIsRelabelled(heads[k], NewId(prefix, k), mapped);
    }
  }

  /** With distinct ids the k-th plan gets the k-th number, and nothing else is renamed. */
  lemma AssignedInOrder(heads: seq<Head>, prefix: string)
    requires Distinct(IdsOf(heads))
    ensures forall k :: 0 <= k < |heads| ==> Rename(Assigned(heads, prefix), heads[k].id) == NewId(prefix, k)
    ensures forall id :: id !in IdsOf(heads) ==> Rename(Assigned(heads, prefix), id) == id
  {
    DistinctAreMapped(heads, prefix);
    VisitMaps(heads, prefix);
  }

  lemma NewIdsAreDistinct(heads: seq<Head>, prefix: string)
    requires forall k :: 0 <= k < |heads| ==> heads[k].id == NewId(prefix, k)
    ensures Distinct(IdsOf(heads))
  {
    forall i, j | 0 <= i < j < |heads|
      ensures IdsOf(heads)[i] != IdsOf(heads)[j]
    {
      FormatIsDigits(i);
      FormatIsDigits(j);
      assert NewId(prefix, i)[|prefix| + 1..] == Format(i) && NewId(prefix, j)[|prefix| + 1..] == Format(j);
    }
  }

  /** Two traversals, one for the ids and one for where versions come from, rename the plan throughout. */
  method Renumber(plan: Plan, prefix: string) returns (r: Plan)
    ensures Erase(r) == Erase(plan) && |Heads(r)| == |Heads(plan)|
    ensures forall k :: 0 <= k < |Heads(r)| ==> Heads(r)[k].id == NewId(prefix, k)
    ensures Distinct(Ids(r))
    ensures Distinct(Ids(plan)) ==> r == Relabel(plan, Assigned(Heads(plan), prefix))
    ensures Distinct(Ids(plan)) && Linked(plan) ==> Linked(r)
  {
    var numbering, done;
    r, numbering := Each(plan, Numbered(prefix), Numbering(0, map[]));
    ghost var numbered := Heads(r);
    r, done := Each(r, Remapped(numbering.mapped), ());
    RenumberedHeads(Heads(plan), prefix, numbered, numbering, Heads(r), done);
    if Distinct(Ids(plan)) {
      HeadsOfRelabel(plan, numbering.mapped);
      Determined(r, Relabel(plan, numbering.mapped));
      if Linked(plan) { RelabelKeepsPairs(plan, numbering.mapped); }
    }
    NewIdsAreDistinct(Heads(r), prefix);
  }

  // ----- the plans the planner makes can be renumbered -----

  lemma {:induction false} PairedIsLinked(image: TypeImage)
    requires Paired(image)
    ensures LinkedImage(image)
  {
    if image.get.Some? {
      PairedIsLinked(image.get.value.image);
      PairedIsLinked(image.check.value.image);
    }
  }

  /** A step whose image is fetched through any list of types is paired throughout and has distinct ids. */
  lemma PlannedIsRenumberable(types: seq<ResourceType>, id: string, name: string, stepTags: seq<string>,
      skipInterval: bool)
    ensures
      var plan := Put(id, ImageForType(types, id, name, stepTags, skipInterval));
      Linked(plan) && Distinct(Ids(plan))
  {
    var image := ImageForType(types, id, name, stepTags, skipInterval);
    GetsArePaired(types, id, name, stepTags, skipInterval);
    PairedIsLinked(image);
    NestedIdsAreDistinct(types, id, name, stepTags, skipInterval);
    IdsConcat([Other(id)], ImageHeads(image));
    assert Heads(Put(id, image)) == [Other(id)] + ImageHeads(image) && IdsOf([Other(id)]) == [id];
    forall i | 0 <= i < |ImageIds(image)|
      ensures ImageIds(image)[i] != id
    {
      assert Under(id, ImageIds(image)[i]);
    }
  }
}
