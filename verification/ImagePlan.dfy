/**
  Resolving custom resource types: the tree of checks and gets that fetches the image of a
  type, of the type that image needs, and so on; and the traversal of a plan.
 */
module ImagePlan {
  import opened Prelude

  // ----- plans -----

  datatype ResourceType = ResourceType(
    name: string, base: string, image: string, source: string, params: string, tags: seq<string>,
    privileged: bool, checkEvery: Option<string>)

  datatype TypeImage = TypeImage(
    check: Option<Plan>, get: Option<Plan>, baseType: string, imageRef: string, privileged: bool)

  datatype GetConfig = GetConfig(
    name: string, base: string, source: string, params: string, tags: seq<string>, skipDownload: bool,
    versionFrom: Option<string>, version: Option<string>)

  /** How often a check runs: as configured for the type, or the cluster's default. */
  datatype Interval = DefaultInterval | Every(every: string)

  datatype CheckConfig = CheckConfig(
    name: string, base: string, source: string, tags: seq<string>, interval: Interval, skipInterval: bool,
    resourceType: string)

  datatype Grouping = Do | InParallel | Retry

  datatype Wrapper = Try | Timeout

  datatype Hook = OnSuccess | OnFailure | OnAbort | OnError | Ensure

  datatype Plan =
    | Step(id: string)                         // a plan with no plans inside it
    | Many(id: string, kind: Grouping, steps: seq<Plan>)
    | Hooked(id: string, hook: Hook, step: Plan, next: Plan)
    | Wrapped(id: string, wrapper: Wrapper, step: Plan)
    | Put(id: string, image: TypeImage)
    | Get(id: string, config: GetConfig, image: TypeImage)
    | Check(id: string, check: CheckConfig, image: TypeImage)

  // ----- looking types up -----

  function Lookup(types: seq<ResourceType>, name: string): Option<ResourceType> {
    if types == [] then None
    else if types[0].name == name then Some(types[0])
    else Lookup(types[1..], name)
  }

  function Without(types: seq<ResourceType>, name: string): seq<ResourceType> {
    if types == [] then []
    else
      var front := Without(types[..|types| - 1], name);
      if types[|types| - 1].name != name then front + [types[|types| - 1]] else front
  }

  method LookupType(types: seq<ResourceType>, name: string) returns (r: Option<ResourceType>)
    ensures r == Lookup(types, name)
  {
    for i := 0 to |types|
      invariant Lookup(types, name) == Lookup(types[i..], name)
    {
      if types[i].name == name { return Some(types[i]); }
    }
    return None;
  }

  method WithoutType(types: seq<ResourceType>, name: string) returns (r: seq<ResourceType>)
    ensures r == Without(types, name)
  {
    r := [];
    for i := 0 to |types|
      invariant r == Without(types[..i], name)
    {
      assert types[..i + 1][..i] == types[..i];
      if types[i].name != name { r := r + [types[i]]; }
    }
    assert types[..|types|] == types;
  }

  lemma {:induction false} LookupFinds(types: seq<ResourceType>, name: string)
    ensures Lookup(types, name).Some? ==> Lookup(types, name).value in types && Lookup(types, name).value.name == name
    ensures Lookup(types, name).None? ==> forall t :: t in types ==> t.name != name
  {
    if types != [] && types[0].name != name {
      LookupFinds(types[1..], name);
      assert types == [types[0]] + types[1..];
    }
  }

  /** Exactly the types of other names are kept, so removing a listed type shortens the list. */
  lemma {:induction false} WithoutRemoves(types: seq<ResourceType>, name: string)
    ensures forall t :: t in Without(types, name) <==> t in types && t.name != name
    ensures |Without(types, name)| <= |types|
    ensures (exists t :: t in types && t.name == name) ==> |Without(types, name)| < |types|
  {
    if types != [] {
      WithoutRemoves(types[..|types| - 1], name);
      assert types == types[..|types| - 1] + [types[|types| - 1]];
    }
  }

  lemma FoundShortens(types: seq<ResourceType>, name: string)
    requires Lookup(types, name).Some?
    ensures |Without(types, Lookup(types, name).value.name)| < |types|
  {
    LookupFinds(types, name);
    WithoutRemoves(types, name);
  }

  // ----- building the plans -----

  datatype Image = Image(
    name: string, base: string, source: string, params: string, tags: seq<string>, version: Option<string>)

  /** The image of a type.  Each level looks types up among fewer of them, so even a cyclic list ends. */
  function ImageForType(types: seq<ResourceType>, id: string, name: string, stepTags: seq<string>,
      skipInterval: bool): TypeImage
    decreases |types|, 1
  {
    var parent := Lookup(types, name);
    if parent.None? then TypeImage(None, None, name, "", false)
    else if parent.value.image != "" then TypeImage(None, None, "", parent.value.image, parent.value.privileged)
    else
      var p := parent.value;
      FoundShortens(types, name);
      var fetch := FetchImagePlan(
        id, Image(p.name, p.base, p.source, p.params, p.tags, None), Without(types, p.name), stepTags, skipInterval, p.checkEvery);
      var check := match fetch.1 { case None => None case Some(plan) => Some(plan.(check := plan.check.(resourceType := name))) };
      TypeImage(check, Some(fetch.0), fetch.0.image.baseType, "", p.privileged)
  }

  /** The get of an image and, when its version is not known, the check that finds it. */
  function FetchImagePlan(id: string, image: Image, types: seq<ResourceType>, stepTags: seq<string>, skipInterval: bool,
                          checkEvery: Option<string>): (r: (Plan, Option<Plan>))
    ensures r.0.Get? && (r.1.Some? ==> r.1.value.Check?)
    decreases |types|, 2
  {
    var getID, checkID := id + "/image-get", id + "/image-check";
    var tags := if image.tags == [] then stepTags else image.tags;
    var get := Get(
      getID,
      GetConfig(
        image.name, image.base, image.source, image.params, tags, image.base == "registry-image",
        if image.version.None? then Some(checkID) else None, image.version),
      ImageForType(types, getID, image.base, tags, skipInterval));
    if image.version.Some? then (get, None)
    else
      var interval := if checkEvery.Some? then Every(checkEvery.value) else DefaultInterval;
      (get, Some(Check(
        checkID,
        CheckConfig(image.name, image.base, image.source, tags, interval, skipInterval, ""),
        ImageForType(types, checkID, image.base, tags, skipInterval))))
  }

  // ----- the end of the chain -----

  /** The type at the end of the chain, followed without building anything. */
  function EndOfChain(types: seq<ResourceType>, name: string): string
    decreases |types|
  {
    var parent := Lookup(types, name);
    if parent.None? then name
    else if parent.value.image != "" then ""
    else FoundShortens(types, name); EndOfChain(Without(types, parent.value.name), parent.value.base)
  }

  /** How many types of the chain are fetched. */
  function FetchedTypes(types: seq<ResourceType>, name: string): nat
    decreases |types|
  {
    var parent := Lookup(types, name);
    if parent.None? || parent.value.image != "" then 0
    else FoundShortens(types, name); 1 + FetchedTypes(Without(types, parent.value.name), parent.value.base)
  }

  /** Every image in the tree, on get and check branches alike, ends at the same base type. */
  lemma {:induction false} BaseTypesAgree(types: seq<ResourceType>, id: string, name: string,
      stepTags: seq<string>, skipInterval: bool)
    ensures ImageForType(types, id, name, stepTags, skipInterval).baseType == EndOfChain(types, name)
    ensures AllEndAt(ImageForType(types, id, name, stepTags, skipInterval), EndOfChain(types, name))
    decreases |types|
  {
    var parent := Lookup(types, name);
    if parent.Some? && parent.value.image == "" {
      var p := parent.value;
      FoundShortens(types, name);
      var rest, tags := Without(types, p.name), if p.tags == [] then stepTags else p.tags;
      BaseTypesAgree(rest, id + "/image-get", p.base, tags, skipInterval);
      BaseTypesAgree(rest, id + "/image-check", p.base, tags, skipInterval);
    }
  }

  ghost predicate AllEndAt(image: TypeImage, base: string) {
    && image.baseType == base
    && (image.get.Some? ==> image.get.value.Get? && AllEndAt(image.get.value.image, base))
    && (image.check.Some? ==> image.check.value.Check? && AllEndAt(image.check.value.image, base))
  }

  // ----- each get names its check -----

  /** At every level a get and a check of one image, the get taking its version from that check. */
  ghost predicate Paired(image: TypeImage) {
    && image.get.Some? == image.check.Some?
    && (image.get.Some? ==>
      && image.get.value.Get? && image.check.value.Check?
      && PairedConfigs(image.get.value.config, image.check.value.check, image.check.value.id)
      && Paired(image.get.value.image) && Paired(image.check.value.image))
  }

  ghost predicate PairedConfigs(get: GetConfig, check: CheckConfig, checkID: string) {
    && get.versionFrom == Some(checkID) && get.version == None
    && get.name == check.name == check.resourceType
    && get.base == check.base && get.source == check.source && get.tags == check.tags
    && (get.skipDownload <==> get.base == "registry-image")
  }

  lemma {:induction false} GetsArePaired(types: seq<ResourceType>, id: string, name: string, stepTags: seq<string>,
      skipInterval: bool)
    ensures Paired(ImageForType(types, id, name, stepTags, skipInterval))
    decreases |types|
  {
    var parent := Lookup(types, name);
    if parent.Some? && parent.value.image == "" {
      var p := parent.value;
      FoundShortens(types, name);
      LookupFinds(types, name);
      var rest, tags := Without(types, p.name), if p.tags == [] then stepTags else p.tags;
      GetsArePaired(rest, id + "/image-get", p.base, tags, skipInterval);
      GetsArePaired(rest, id + "/image-check", p.base, tags, skipInterval);
    }
  }

  // ----- what each level fetches -----

  /** A fetched image is the one its type declares, with the type's own tags or, without any, those of the step. */
  ghost predicate AsDeclared(p: ResourceType, image: TypeImage, tags: seq<string>, skipInterval: bool) {
    && image.privileged == p.privileged && image.imageRef == ""
    && image.get.Some? && image.get.value.Get? && image.check.Some? && image.check.value.Check?
    && var get, check := image.get.value.config, image.check.value.check;
       && get.name == p.name && get.base == p.base && get.source == p.source && get.params == p.params
       && get.tags == tags
       && check.interval == (if p.checkEvery.Some? then Every(p.checkEvery.value) else DefaultInterval)
       && check.skipInterval == skipInterval
  }

  /**
    The whole tree against the list as it was given, with no list that shrinks: every name is fetched
    as its first entry declares, and a name met a second time on the way down is a base type.
   */
  ghost predicate FollowsList(all: seq<ResourceType>, seen: set<string>, image: TypeImage, name: string,
      stepTags: seq<string>, skipInterval: bool)
    decreases image
  {
    var p := Lookup(all, name);
    if p.None? || name in seen then image == TypeImage(None, None, name, "", false)
    else if p.value.image != "" then image == TypeImage(None, None, "", p.value.image, p.value.privileged)
    else
      var tags := if p.value.tags == [] then stepTags else p.value.tags;
      && AsDeclared(p.value, image, tags, skipInterval)
      && FollowsList(all, seen + {name}, image.get.value.image, p.value.base, tags, skipInterval)
      && FollowsList(all, seen + {name}, image.check.value.image, p.value.base, tags, skipInterval)
  }

  lemma {:induction false} LookupSnoc(types: seq<ResourceType>, t: ResourceType, name: string)
    ensures Lookup(types + [t], name) ==
      if Lookup(types, name).Some? then Lookup(types, name) else if t.name == name then Some(t) else None
  {
    if types != [] {
      LookupSnoc(types[1..], t, name);
      assert (types + [t])[1..] == types[1..] + [t];
    } else {
      assert [t][1..] == [];
    }
  }

  lemma {:induction false} LookupWithout(types: seq<ResourceType>, removed: string, name: string)
    ensures Lookup(Without(types, removed), name) == if name == removed then None else Lookup(types, name)
  {
    if types != [] {
      var front, last := types[..|types| - 1], types[|types| - 1];
      LookupWithout(front, removed, name);
      assert types == front + [last];
      LookupSnoc(front, last, name);
      LookupSnoc(Without(front, removed), last, name);
    }
  }

  /** The types left are those of the list whose names were not met yet. */
  ghost predicate Left(all: seq<ResourceType>, seen: set<string>, types: seq<ResourceType>) {
    forall name :: Lookup(types, name) == if name in seen then None else Lookup(all, name)
  }

  lemma LeftShrinks(all: seq<ResourceType>, seen: set<string>, types: seq<ResourceType>, removed: string)
    requires Left(all, seen, types)
    ensures Left(all, seen + {removed}, Without(types, removed))
  {
    forall name
      ensures Lookup(Without(types, removed), name) == if name in seen + {removed} then None else Lookup(all, name)
    {
      LookupWithout(types, removed, name);
    }
  }

  lemma {:induction false} TreeFollowsList(all: seq<ResourceType>, seen: set<string>, types: seq<ResourceType>,
      id: string, name: string, stepTags: seq<string>, skipInterval: bool)
    requires Left(all, seen, types)
    ensures FollowsList(all, seen, ImageForType(types, id, name, stepTags, skipInterval), name, stepTags, skipInterval)
    decreases |types|
  {
    var parent := Lookup(types, name);
    if parent.Some? && parent.value.image == "" {
      var p := parent.value;
      FoundShortens(types, name);
      LookupFinds(types, name);
      LeftShrinks(all, seen, types, p.name);
      var rest, tags := Without(types, p.name), if p.tags == [] then stepTags else p.tags;
      var image := ImageForType(types, id, name, stepTags, skipInterval);
      var fetch := FetchImagePlan(
        id, Image(p.name, p.base, p.source, p.params, p.tags, None), rest, stepTags, skipInterval, p.checkEvery);
      assert image.get == Some(fetch.0);
      TreeFollowsList(all, seen + {name}, rest, id + "/image-get", p.base, tags, skipInterval);
      TreeFollowsList(all, seen + {name}, rest, id + "/image-check", p.base, tags, skipInterval);
    }
  }

  /** The image of a type is fetched, all the way down, as the list declares. */
  lemma ImagesAreAsDeclared(types: seq<ResourceType>, id: string, name: string, stepTags: seq<string>, skipInterval: bool)
    ensures FollowsList(types, {}, ImageForType(types, id, name, stepTags, skipInterval), name, stepTags, skipInterval)
  {
    TreeFollowsList(types, {}, types, id, name, stepTags, skipInterval);
  }

  // ----- the traversal -----

  /** What a callback may see and change of a plan: its id and, of a get, where its version comes from. */
  datatype Head = Other(id: string) | Fetch(id: string, from: Option<string>)

  function HeadOf(plan: Plan): Head {
    if plan.Get? then Fetch(plan.id, plan.config.versionFrom) else Other(plan.id)
  }

  /** A head as a callback leaves it; a plan stays what it is. */
  function Written(h: Head, now: Head): Head {
    if h.Other? then Other(now.id) else if now.Fetch? then now else Fetch(now.id, h.from)
  }

  function Rewrite(plan: Plan, h: Head): (r: Plan)
    ensures HeadOf(r) == Written(HeadOf(plan), h)
  {
    if plan.Get? && h.Fetch? then plan.(id := h.id, config := plan.config.(versionFrom := h.from))
    else plan.(id := h.id)
  }

  /** The heads of a plan in the order the traversal meets them. */
  function Heads(plan: Plan): seq<Head>
    decreases plan, 1
  {
    [HeadOf(plan)] + Inside(plan)
  }

  function Inside(plan: Plan): seq<Head>
    decreases plan, 0
  {
    match plan
    case Step(_) => []
    case Many(_, _, steps) => HeadsAll(steps)
    case Hooked(_, _, step, next) => Heads(step) + Heads(next)
    case Wrapped(_, _, step) => Heads(step)
    case Put(_, image) => ImageHeads(image)
    case Get(_, _, image) => ImageHeads(image)
    case Check(_, _, image) => ImageHeads(image)
  }

  function HeadsAll(plans: seq<Plan>): seq<Head> {
    if plans == [] then [] else HeadsAll(plans[..|plans| - 1]) + Heads(plans[|plans| - 1])
  }

  function ImageHeads(image: TypeImage): seq<Head> {
    (if image.check.Some? then Heads(image.check.value) else [])
    + (if image.get.Some? then Heads(image.get.value) else [])
  }

  function IdsOf(heads: seq<Head>): seq<string> {
    seq(|heads|, k requires 0 <= k < |heads| => heads[k].id)
  }

  lemma IdsConcat(a: seq<Head>, b: seq<Head>)
    ensures IdsOf(a + b) == IdsOf(a) + IdsOf(b)
  {
  }

  function Ids(plan: Plan): seq<string> { IdsOf(Heads(plan)) }

  function ImageIds(image: TypeImage): seq<string> { IdsOf(ImageHeads(image)) }

  /** A plan without what a callback may change. */
  function Erase(plan: Plan): Plan {
    match plan
    case Step(_) => Step("")
    case Many(_, kind, steps) => Many("", kind, EraseAll(steps))
    case Hooked(_, hook, step, next) => Hooked("", hook, Erase(step), Erase(next))
    case Wrapped(_, wrapper, step) => Wrapped("", wrapper, Erase(step))
    case Put(_, image) => Put("", EraseImage(image))
    case Get(_, config, image) => Get("", config.(versionFrom := None), EraseImage(image))
    case Check(_, check, image) => Check("", check, EraseImage(image))
  }

  function EraseAll(plans: seq<Plan>): seq<Plan> {
    if plans == [] then [] else EraseAll(plans[..|plans| - 1]) + [Erase(plans[|plans| - 1])]
  }

  function EraseImage(image: TypeImage): TypeImage {
    image.(check := if image.check.Some? then Some(Erase(image.check.value)) else None,
           get := if image.get.Some? then Some(Erase(image.get.value)) else None)
  }

  /** A callback and what it remembers from plan to plan. */
  type Callback<!S> = (Head, S) -> (Head, S)

  /** Calling back on each head in turn. */
  function Visit<S>(heads: seq<Head>, f: Callback<S>, s: S): (r: (seq<Head>, S))
    ensures |r.0| == |heads|
  {
    if heads == [] then ([], s)
    else
      var front := Visit(heads[..|heads| - 1], f, s);
      var last := f(heads[|heads| - 1], front.1);
      (front.0 + [Written(heads[|heads| - 1], last.0)], last.1)
  }

  lemma {:induction false} VisitConcat<S>(a: seq<Head>, b: seq<Head>, f: Callback<S>, s: S)
    ensures
      var left := Visit(a, f, s);
      var right := Visit(b, f, left.1);
      Visit(a + b, f, s) == (left.0 + right.0, right.1)
  {
    if b == [] {
      assert a + b == a;
      assert Visit(a, f, s).0 + [] == Visit(a, f, s).0;
    } else {
      VisitConcat(a, b[..|b| - 1], f, s);
      assert (a + b)[..|a + b| - 1] == a + b[..|b| - 1];
      var left := Visit(a, f, s);
      var front := Visit(b[..|b| - 1], f, left.1);
      var last := f(b[|b| - 1], front.1);
      assert left.0 + (front.0 + [Written(b[|b| - 1], last.0)]) == left.0 + front.0 + [Written(b[|b| - 1], last.0)];
    }
  }

  lemma VisitOne<S>(h: Head, f: Callback<S>, s: S)
    ensures Visit([h], f, s) == ([Written(h, f(h, s).0)], f(h, s).1)
  {
    assert [h][..0] == [];
    assert [] + [Written(h, f(h, s).0)] == [Written(h, f(h, s).0)];
  }

  /**
    The traversal applies the callback to every plan exactly once, in order, every change it makes
    is kept, and nothing else changes.
   */
  method Each<S>(plan: Plan, f: Callback<S>, s: S) returns (r: Plan, t: S)
    ensures (Heads(r), t) == Visit(Heads(plan), f, s)
    ensures Erase(r) == Erase(plan)
    decreases plan, 1
  {
    var called := f(HeadOf(plan), s);
    r, t := EachInside(plan, f, called.1);
    VisitOne(HeadOf(plan), f, s);
    VisitConcat([HeadOf(plan)], Inside(plan), f, s);
    InsideIgnoresHead(r, called.0);
    r := Rewrite(r, called.0);
  }

  lemma InsideIgnoresHead(plan: Plan, h: Head)
    ensures Inside(Rewrite(plan, h)) == Inside(plan) && Erase(Rewrite(plan, h)) == Erase(plan)
  {
  }

  method EachInside<S>(plan: Plan, f: Callback<S>, s: S) returns (r: Plan, t: S)
    ensures HeadOf(r) == HeadOf(plan) && (Inside(r), t) == Visit(Inside(plan), f, s)
    ensures Erase(r) == Erase(plan)
    decreases plan, 0
  {
    r, t := plan, s;
    if plan.Many? {
      var steps;
      steps, t := EachOf(plan.steps, f, s);
      r := plan.(steps := steps);
    } else if plan.Hooked? {
      var step, next;
      step, t := Each(plan.step, f, s);
      next, t := Each(plan.next, f, t);
      VisitConcat(Heads(plan.step), Heads(plan.next), f, s);
      r := plan.(step := step, next := next);
    } else if plan.Wrapped? {
      var step;
      step, t := Each(plan.step, f, s);
      r := Wrapped(plan.id, plan.wrapper, step);
    } else if plan.Put? || plan.Get? || plan.Check? {
      var image;
      image, t := EachPlan(plan.image, f, s);
      r := plan.(image := image);
    }
  }

  method EachOf<S>(plans: seq<Plan>, f: Callback<S>, s: S) returns (r: seq<Plan>, t: S)
    ensures (HeadsAll(r), t) == Visit(HeadsAll(plans), f, s)
    ensures EraseAll(r) == EraseAll(plans)
    decreases plans
  {
    r, t := [], s;
    for i := 0 to |plans|
      invariant (HeadsAll(r), t) == Visit(HeadsAll(plans[..i]), f, s)
      invariant EraseAll(r) == EraseAll(plans[..i])
    {
      var p;
      VisitConcat(HeadsAll(plans[..i]), Heads(plans[i]), f, s);
      assert plans[..i + 1][..i] == plans[..i];
      p, t := Each(plans[i], f, t);
      assert (r + [p])[..|r|] == r;
      r := r + [p];
    }
    assert plans[..|plans|] == plans;
  }

  method EachPlan<S>(image: TypeImage, f: Callback<S>, s: S) returns (r: TypeImage, t: S)
    ensures (ImageHeads(r), t) == Visit(ImageHeads(image), f, s)
    ensures EraseImage(r) == EraseImage(image)
    decreases image
  {
    r, t := image, s;
    VisitConcat(if image.check.Some? then Heads(image.check.value) else [],
                if image.get.Some? then Heads(image.get.value) else [], f, s);
    var done;
    if image.check.Some? {
      done, t := Each(image.check.value, f, t);
      r := r.(check := Some(done));
    }
    if image.get.Some? {
      done, t := Each(image.get.value, f, t);
      r := r.(get := Some(done));
    }
  }

  // ----- ids -----

  function Branch(id: string, get: bool): string { id + if get then "/image-get" else "/image-check" }

  /** Every id nested under an id starts with one of its two branches. */
  predicate Under(id: string, x: string) { Branch(id, true) <= x || Branch(id, false) <= x }

  lemma BranchesAreApart(id: string, x: string)
    ensures !(Branch(id, true) <= x && Branch(id, false) <= x)
  {
    assert Branch(id, true)[|id| + 7] == 'g' && Branch(id, false)[|id| + 7] == 'c';
  }

  lemma UnderBranch(id: string, get: bool, x: string)
    requires x == Branch(id, get) || Under(Branch(id, get), x)
    ensures Branch(id, get) <= x && (Under(Branch(id, get), x) ==> x != Branch(id, get))
  {
  }

  ghost predicate Distinct(ids: seq<string>) {
    forall i, j :: 0 <= i < j < |ids| ==> ids[i] != ids[j]
  }

  ghost predicate AllUnder(id: string, ids: seq<string>) {
    forall i :: 0 <= i < |ids| ==> Under(id, ids[i])
  }

  ghost predicate AllStartWith(prefix: string, ids: seq<string>) {
    forall i :: 0 <= i < |ids| ==> prefix <= ids[i]
  }

  lemma BranchIds(id: string, get: bool, nested: seq<string>)
    requires AllUnder(Branch(id, get), nested) && Distinct(nested)
    ensures AllStartWith(Branch(id, get), [Branch(id, get)] + nested)
    ensures Distinct([Branch(id, get)] + nested)
  {
    forall i | 0 <= i < |nested|
      ensures Branch(id, get) <= nested[i] && nested[i] != Branch(id, get)
    {
      UnderBranch(id, get, nested[i]);
    }
  }

  lemma JoinBranches(id: string, checks: seq<string>, gets: seq<string>)
    requires AllStartWith(Branch(id, false), checks) && AllStartWith(Branch(id, true), gets)
    requires Distinct(checks) && Distinct(gets)
    ensures AllUnder(id, checks + gets) && Distinct(checks + gets)
  {
    forall i, j | 0 <= i < |checks| && 0 <= j < |gets|
      ensures checks[i] != gets[j]
    {
      BranchesAreApart(id, checks[i]);
    }
  }

  ghost predicate IsBranch(plan: Option<Plan>, id: string, image: TypeImage) {
    plan.Some? && (plan.value.Get? || plan.value.Check?) && plan.value.id == id && plan.value.image == image
  }

  /** What a fetched type adds: its check and its get, each with the image its own type needs. */
  lemma FetchedImage(types: seq<ResourceType>, id: string, name: string, stepTags: seq<string>, skipInterval: bool)
    returns (rest: seq<ResourceType>, base: string, tags: seq<string>)
    requires FetchedTypes(types, name) > 0
    ensures |rest| < |types| && FetchedTypes(types, name) == FetchedTypes(rest, base) + 1
    ensures IsBranch(ImageForType(types, id, name, stepTags, skipInterval).check, Branch(id, false),
                     ImageForType(rest, Branch(id, false), base, tags, skipInterval))
    ensures IsBranch(ImageForType(types, id, name, stepTags, skipInterval).get, Branch(id, true),
                     ImageForType(rest, Branch(id, true), base, tags, skipInterval))
  {
    var p := Lookup(types, name).value;
    FoundShortens(types, name);
    rest, base, tags := Without(types, p.name), p.base, if p.tags == [] then stepTags else p.tags;
    var fetch := FetchImagePlan(
      id, Image(p.name, p.base, p.source, p.params, p.tags, None), rest, stepTags, skipInterval, p.checkEvery);
    var image := ImageForType(types, id, name, stepTags, skipInterval);
    assert image.get == Some(fetch.0) && fetch.1.Some?;
  }

  lemma BranchedIds(image: TypeImage, id: string, checks: TypeImage, gets: TypeImage)
    requires IsBranch(image.check, Branch(id, false), checks) && IsBranch(image.get, Branch(id, true), gets)
    ensures ImageIds(image) == ([Branch(id, false)] + ImageIds(checks)) + ([Branch(id, true)] + ImageIds(gets))
  {
    assert IdsOf([HeadOf(image.check.value)]) == [Branch(id, false)] && IdsOf([HeadOf(image.get.value)]) == [Branch(id, true)];
    assert Heads(image.check.value) == [HeadOf(image.check.value)] + ImageHeads(checks);
    assert Heads(image.get.value) == [HeadOf(image.get.value)] + ImageHeads(gets);
    IdsConcat([HeadOf(image.check.value)], ImageHeads(checks));
    IdsConcat([HeadOf(image.get.value)], ImageHeads(gets));
    IdsConcat(Heads(image.check.value), Heads(image.get.value));
  }

  lemma FetchedIds(types: seq<ResourceType>, id: string, name: string, stepTags: seq<string>, skipInterval: bool)
    returns (rest: seq<ResourceType>, base: string, tags: seq<string>)
    requires FetchedTypes(types, name) > 0
    ensures |rest| < |types| && FetchedTypes(types, name) == FetchedTypes(rest, base) + 1
    ensures ImageIds(ImageForType(types, id, name, stepTags, skipInterval)) ==
      ([Branch(id, false)] + ImageIds(ImageForType(rest, Branch(id, false), base, tags, skipInterval)))
      + ([Branch(id, true)] + ImageIds(ImageForType(rest, Branch(id, true), base, tags, skipInterval)))
  {
    rest, base, tags := FetchedImage(types, id, name, stepTags, skipInterval);
    BranchedIds(ImageForType(types, id, name, stepTags, skipInterval), id,
                ImageForType(rest, Branch(id, false), base, tags, skipInterval),
                ImageForType(rest, Branch(id, true), base, tags, skipInterval));
  }

  /** All nested ids are different, and all lie under the id of the plan they serve. */
  lemma {:induction false} NestedIdsAreDistinct(types: seq<ResourceType>, id: string, name: string,
      stepTags: seq<string>, skipInterval: bool)
    ensures Distinct(ImageIds(ImageForType(types, id, name, stepTags, skipInterval)))
    ensures AllUnder(id, ImageIds(ImageForType(types, id, name, stepTags, skipInterval)))
    decreases |types|
  {
    if FetchedTypes(types, name) > 0 {
      var rest, base, tags := FetchedIds(types, id, name, stepTags, skipInterval);
      var getID, checkID := Branch(id, true), Branch(id, false);
      NestedIdsAreDistinct(rest, getID, base, tags, skipInterval);
      NestedIdsAreDistinct(rest, checkID, base, tags, skipInterval);
      var gets := ImageIds(ImageForType(rest, getID, base, tags, skipInterval));
      var checks := ImageIds(ImageForType(rest, checkID, base, tags, skipInterval));
      BranchIds(id, true, gets);
      BranchIds(id, false, checks);
      JoinBranches(id, [checkID] + checks, [getID] + gets);
    }
  }

  function Pow2(n: nat): nat { if n == 0 then 1 else 2 * Pow2(n - 1) }

  /** A chain of d fetched types yields two plans per type and branch: 2^(d+1) - 2 in all. */
  lemma {:induction false} PlanCount(types: seq<ResourceType>, id: string, name: string, stepTags: seq<string>,
      skipInterval: bool)
    ensures |ImageIds(ImageForType(types, id, name, stepTags, skipInterval))| == Pow2(FetchedTypes(types, name) + 1) - 2
    decreases |types|
  {
    if FetchedTypes(types, name) > 0 {
      var rest, base, tags := FetchedIds(types, id, name, stepTags, skipInterval);
      PlanCount(rest, Branch(id, true), base, tags, skipInterval);
      PlanCount(rest, Branch(id, false), base, tags, skipInterval);
    }
  }
}
