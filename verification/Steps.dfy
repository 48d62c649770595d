/**
  The step language: how one flat JSON object becomes a core step under its modifiers,
  and how it is printed back.

  A typed leaf field is represented by its canonical encoding, absent when it is omitted;
  the codec that normalises leaf fields is a parameter.  Nested steps are parsed here.
 */
module Steps {
  import opened Prelude

  // ----- step types -----

  datatype Kind =
    | Ensure | OnError | OnAbort | OnFailure | OnSuccess | Across | Attempts | Agent | Run | Task | Put | Get | Timeout
    | LoadSnapshot | AwaitSnapshot | PublishSnapshot | SetPipeline | LoadVar | Try | Do | InParallel

  const PRECEDENCE: seq<Kind> := [
    Ensure, OnError, OnAbort, OnFailure, OnSuccess, Across, Attempts, Agent, Run, Task, Put, Get, Timeout,
    LoadSnapshot, AwaitSnapshot, PublishSnapshot, SetPipeline, LoadVar, Try, Do, InParallel]

  /** The place of a step type in the precedence list. */
  function Rank(k: Kind): nat {
    match k
    case Ensure => 0 case OnError => 1 case OnAbort => 2 case OnFailure => 3 case OnSuccess => 4
    case Across => 5 case Attempts => 6 case Agent => 7 case Run => 8 case Task => 9 case Put => 10
    case Get => 11 case Timeout => 12 case LoadSnapshot => 13 case AwaitSnapshot => 14
    case PublishSnapshot => 15 case SetPipeline => 16 case LoadVar => 17 case Try => 18 case Do => 19
    case InParallel => 20
  }

  /** Rank inverts the precedence list. */
  lemma RankOfNth(i: nat)
    requires i < |PRECEDENCE|
    ensures Rank(PRECEDENCE[i]) == i
  {
  }

  lemma NthOfRank(k: Kind)
    ensures Rank(k) < |PRECEDENCE| && PRECEDENCE[Rank(k)] == k
  {
  }

  predicate IsHook(k: Kind) { k.Ensure? || k.OnError? || k.OnAbort? || k.OnFailure? || k.OnSuccess? }

  predicate IsWrapper(k: Kind) { IsHook(k) || k.Across? || k.Attempts? || k.Timeout? }

  /** Types decoded with unknown fields refused and validated as a whole. */
  predicate IsStrict(k: Kind) { k.LoadSnapshot? || k.AwaitSnapshot? || k.PublishSnapshot? }

  /** Types whose declaring key holds nested steps. */
  predicate IsNesting(k: Kind) { IsHook(k) || k.Try? || k.Do? || k.InParallel? }

  // ----- JSON values -----

  /** Field names that declare no step type. */
  datatype Name =
    | FailFast | Steps | Limit | Resource | Version | Params | Passed | Trigger | Tags | SkipDownload | Inputs
    | GetParams | NoGet | FunctionID | DevValidationProfile | DevValidationAuthority | MergePreflightAuthority
    | ResourceCaptureAuthority | Privileged | Hermetic | File | ContainerLimits | ContainerRequests | TaskConfig
    | Vars | InputMapping | OutputMapping | InputTypes | OutputTypes | Image | Sidecars | Type | RuntimeImage | Prompt
    | PromptFile | SystemPromptFile | ContextFiles | Model | MaxTurns | BudgetSliceUSD | SystemPrompt | Context
    | Skills | SkillFiles | Outputs | Capabilities | Validation | ReviewValidation | Env | BrokerAuthority | Team
    | VarFiles | InstanceVars | Format | Reveal | ID | Optional | WorkflowRunID | Question | MergeApproval
    | MergeApprovalValidation | OnTimeout | DefaultSnapshotID | WorkflowPort | WorkflowDefinitionID | Publisher | Input
    | InputType | Destination | Mode | Parameters | ApprovalPolicyVersion | Approval | PublishValidation

  /** Object keys: one that declares a step type, another name the step tables mention, any other text. */
  datatype Key = Declares(kind: Kind) | Field(name: Name) | Other(text: string)

  datatype Json =
    | Null
    | Atom(text: string)                       // a string, number or boolean
    | Arr(items: seq<Json>)
    | Obj(fields: map<Key, Json>)

  // ----- the fields of each step type -----

  /** Core types with a timeout of their own, all looked for before the timeout modifier. */
  predicate OwnsTimeout(k: Kind) { k.Agent? || k.Run? || k.Task? || k.Put? || k.Get? }

  function Names(k: Kind): seq<Name> {
    match k
    case Across => [FailFast]
    case Get => [Resource, Version, Params, Passed, Trigger, Tags, SkipDownload]
    case Put => [Resource, Params, Inputs, Tags, GetParams, NoGet]
    case Task =>
      [FunctionID, DevValidationProfile, DevValidationAuthority, MergePreflightAuthority, ResourceCaptureAuthority,
       Privileged, Hermetic, File, ContainerLimits, ContainerRequests, TaskConfig, Params, Vars, Tags, InputMapping,
       OutputMapping, InputTypes, OutputTypes, Image, Sidecars]
    case Run => [Type, Params, Privileged, Tags, ContainerLimits, ContainerRequests]
    case Agent =>
      [FunctionID, Hermetic, RuntimeImage, Prompt, PromptFile, SystemPromptFile, ContextFiles, Model, MaxTurns,
       BudgetSliceUSD, SystemPrompt, Context, Skills, SkillFiles, Sidecars, Inputs, Outputs, InputMapping,
       OutputMapping, Capabilities, InputTypes, OutputTypes, Validation, ReviewValidation, Env, ContainerLimits,
       ContainerRequests, BrokerAuthority]
    case SetPipeline => [File, Team, Vars, VarFiles, InstanceVars]
    case LoadVar => [File, Format, Reveal]
    case LoadSnapshot => [ID, Type, Optional, WorkflowRunID]
    case AwaitSnapshot =>
      [Question, MergeApproval, Validation, MergeApprovalValidation, Type, OnTimeout, DefaultSnapshotID,
       WorkflowPort, WorkflowDefinitionID, WorkflowRunID]
    case PublishSnapshot =>
      [Publisher, Input, InputType, Destination, Mode, Parameters, ApprovalPolicyVersion, Approval, WorkflowRunID,
       Validation, PublishValidation]
    case _ => []
  }

  /** The JSON keys of a type's fields. */
  function Fields(k: Kind): seq<Key> {
    [Declares(k)]
    + (if OwnsTimeout(k) then [Declares(Timeout)] else [])
    + NameKeys(Names(k))
  }

  function NameKeys(names: seq<Name>): seq<Key> {
    seq(|names|, i requires 0 <= i < |names| => Field(names[i]))
  }

  predicate Knows(k: Kind, key: Key) {
    match key
    case Declares(t) => t == k || (t == Timeout && OwnsTimeout(k))
    case Field(name) => name in Names(k)
    case Other(_) => false
  }

  function Known(k: Kind): set<Key> { set key | key in Fields(k) }

  lemma InFields(head: Key, own: seq<Key>, names: seq<Name>, key: Key)
    ensures key in [head] + own + NameKeys(names) <==> key == head || key in own || (key.Field? && key.name in names)
  {
    var rest := NameKeys(names);
    if key.Field? && key.name in names {
      var i :| 0 <= i < |names| && names[i] == key.name;
      assert rest[i] == key;
    }
    assert key in [head] + own + rest <==> key == head || key in own || key in rest;
  }

  lemma KnownKeys(k: Kind, key: Key)
    ensures key in Known(k) <==> Knows(k, key)
  {
    InFields(Declares(k), if OwnsTimeout(k) then [Declares(Timeout)] else [], Names(k), key);
  }

  /** The keys whose values the leaf codec handles; a parallel step keeps its own in a nested object. */
  function Leaves(k: Kind): set<Key> {
    if k == InParallel then {Field(Limit), Field(FailFast)} else if IsNesting(k) then {} else Known(k)
  }

  /** A declaring key is a field of another type only for a core type that is looked for earlier. */
  lemma DetectorIsPrivate(t: Kind, u: Kind)
    ensures t == u ==> Declares(t) in Known(u)
    ensures t != u && Declares(t) in Known(u) ==> Rank(u) < Rank(t) && !IsWrapper(u)
  {
    KnownKeys(u, Declares(t));
  }

  lemma OnlyAcrossFailsFast(k: Kind)
    ensures FailFast in Names(k) ==> k == Across
  {
  }

  lemma WrapperKnowsApart(w: Kind, u: Kind, key: Key)
    requires IsWrapper(w) && Rank(w) < Rank(u) && Knows(w, key)
    ensures !Knows(u, key)
  {
    OnlyAcrossFailsFast(u);
  }

  /** A modifier shares no field with any type looked for later. */
  lemma WrapperIsPrivate(w: Kind, u: Kind)
    requires IsWrapper(w) && Rank(w) < Rank(u)
    ensures Known(w) !! Known(u)
  {
    forall key | key in Known(w)
      ensures key !in Known(u)
    {
      KnownKeys(w, key);
      KnownKeys(u, key);
      WrapperKnowsApart(w, u, key);
    }
  }

  // ----- steps -----

  /** One struct of a step: its leaf fields and the steps nested in it. */
  datatype Layer = Layer(kind: Kind, fields: map<Key, Json>, subs: seq<Step>)

  datatype Config = Core(layer: Layer) | Wrapper(layer: Layer, inner: Config)

  datatype Step = Step(config: Config, unknown: map<Key, Json>)

  /**
    How leaf fields are decoded and encoded.  normal(k, key, raw) decodes the raw value of a
    field, absent or not, and encodes it again, absent when it is omitted; None is a decoding
    error.  wire is the validation a strict type makes of all its fields together.
   */
  datatype Codec = Codec(
    normal: (Kind, Key, Option<Json>) -> Option<Option<Json>>,
    wire: (Kind, map<Key, Json>) -> bool)

  /** Encoding then decoding a field gives it back, and the declaring field is never omitted. */
  ghost predicate Lawful(c: Codec) {
    && (forall k, key, raw :: c.normal(k, key, raw).Some? ==>
          c.normal(k, key, c.normal(k, key, raw).value) == c.normal(k, key, raw))
    && (forall k, raw :: c.normal(k, Declares(k), raw).Some? ==> c.normal(k, Declares(k), raw).value.Some?)
  }

  /** The law can be met: keep every value, and print an absent declaring field as empty text. */
  lemma LawfulCodecExists() returns (c: Codec)
    ensures Lawful(c)
  {
    c := Codec(
      (k: Kind, key: Key, raw: Option<Json>) => Some(if raw.None? && key == Declares(k) then Some(Atom("")) else raw),
      (k: Kind, fields: map<Key, Json>) => true);
  }

  function Lookup(m: map<Key, Json>, key: Key): Option<Json> {
    if key in m then Some(m[key]) else None
  }

  function DecodeLeaves(c: Codec, k: Kind, raw: map<Key, Json>): Option<map<Key, Json>> {
    if forall key :: key in Leaves(k) ==> c.normal(k, key, Lookup(raw, key)).Some? then
      Some(map key | key in Leaves(k) && c.normal(k, key, Lookup(raw, key)).value.Some?
           :: c.normal(k, key, Lookup(raw, key)).value.value)
    else None
  }

  // ----- parsing -----

  predicate Within(raw: map<Key, Json>, all: map<Key, Json>) {
    forall key :: key in raw ==> key in all && raw[key] == all[key]
  }

  /** What a step's JSON means. */
  function Parse(c: Codec, j: Json): Option<Step>
    decreases j, 30
  {
    if j.Obj? then ParseLayers(c, j, j.fields, 0) else None
  }

  /** The passes over the step types from the i-th on, with the fields no earlier pass consumed. */
  function ParseLayers(c: Codec, j: Json, raw: map<Key, Json>, i: nat): Option<Step>
    requires j.Obj? && Within(raw, j.fields) && i <= |PRECEDENCE|
    decreases j, |PRECEDENCE| - i
  {
    if i == |PRECEDENCE| then None
    else
      var k := PRECEDENCE[i];
      if Declares(k) !in raw then ParseLayers(c, j, raw, i + 1)
      else
        var layer := DecodeLayer(c, raw, k);
        if layer.None? then None
        else if !IsWrapper(k) then Some(Step(Core(layer.value), raw - Known(k)))
        else Rewrap(layer.value, ParseLayers(c, j, raw - Known(k), i + 1))
  }

  function Rewrap(layer: Layer, s: Option<Step>): Option<Step> {
    if s.None? then None else Some(Step(Wrapper(layer, s.value.config), s.value.unknown))
  }

  /** Decoding one struct from the fields that are left. */
  function DecodeLayer(c: Codec, raw: map<Key, Json>, k: Kind): Option<Layer>
    requires Declares(k) in raw
    decreases raw[Declares(k)], 32
  {
    var fields := DecodeLeaves(c, k, LeafSource(k, raw));
    var subs := DecodeSubs(c, k, raw[Declares(k)]);
    if fields.None? || subs.None? then None
    else if IsStrict(k) && !(raw.Keys <= Known(k) && c.wire(k, fields.value)) then None
    else Some(Layer(k, fields.value, subs.value))
  }

  function LeafSource(k: Kind, raw: map<Key, Json>): map<Key, Json>
    requires Declares(k) in raw
  {
    if k != InParallel then raw
    else if raw[Declares(k)].Obj? then raw[Declares(k)].fields
    else map[]
  }

  function DecodeSubs(c: Codec, k: Kind, v: Json): Option<seq<Step>>
    decreases v, 31
  {
    if IsHook(k) || k == Try then
      var s := Parse(c, v);
      if s.None? then None else Some([s.value])
    else if k == Do then ParseItems(c, v)
    else if k == InParallel then
      if v.Obj? then
        if Field(Steps) in v.fields then ParseItems(c, v.fields[Field(Steps)]) else Some([])
      else if v.Arr? then ParseAll(c, v.items)
      else None
    else Some([])
  }

  function ParseItems(c: Codec, v: Json): Option<seq<Step>>
    decreases v, 30
  {
    if v.Null? then Some([]) else if v.Arr? then ParseAll(c, v.items) else None
  }

  function ParseAll(c: Codec, items: seq<Json>): Option<seq<Step>>
    decreases items
  {
    if items == [] then Some([])
    else
      var first := Parse(c, items[0]);
      var rest := ParseAll(c, items[1..]);
      if first.None? || rest.None? then None else Some([first.value] + rest.value)
  }

  // ----- printing -----

  function Print(s: Step): Json { Obj(s.unknown + PrintConfig(s.config)) }

  function PrintConfig(config: Config): map<Key, Json> {
    match config
    case Core(layer) => EncodeLayer(layer)
    case Wrapper(layer, inner) => EncodeLayer(layer) + PrintConfig(inner)
  }

  function EncodeLayer(layer: Layer): map<Key, Json> {
    if (IsHook(layer.kind) || layer.kind == Try) && |layer.subs| == 1 then
      map[Declares(layer.kind) := Print(layer.subs[0])]
    else if layer.kind == Do then map[Declares(Do) := Arr(PrintAll(layer.subs))]
    else if layer.kind == InParallel then
      var nested := if layer.subs == [] then map[] else map[Field(Steps) := Arr(PrintAll(layer.subs))];
      map[Declares(InParallel) := Obj(layer.fields + nested)]
    else layer.fields
  }

  function PrintAll(steps: seq<Step>): seq<Json> {
    if steps == [] then [] else [Print(steps[0])] + PrintAll(steps[1..])
  }

  // ----- stable steps -----

  function CoreKind(config: Config): Kind {
    match config
    case Core(layer) => layer.kind
    case Wrapper(_, inner) => CoreKind(inner)
  }

  /** How many layers of a step own a key. */
  function Owners(config: Config, key: Key): nat {
    (if key in Known(config.layer.kind) then 1 else 0)
    + match config
      case Core(_) => 0
      case Wrapper(_, inner) => Owners(inner, key)
  }

  ghost predicate StableLayer(c: Codec, layer: Layer) {
    var k := layer.kind;
    && layer.fields.Keys <= Leaves(k)
    && (forall key :: key in Leaves(k) ==> c.normal(k, key, Lookup(layer.fields, key)) == Some(Lookup(layer.fields, key)))
    && (IsStrict(k) ==> c.wire(k, layer.fields))
    && (IsHook(k) || k == Try ==> |layer.subs| == 1)
    && (!IsNesting(k) ==> layer.subs == [])
    && forall n :: 0 <= n < |layer.subs| ==> Stable(c, layer.subs[n])
  }

  /** Modifiers nest in precedence order, from the i-th type on, around a core type. */
  ghost predicate StableConfig(c: Codec, config: Config, i: nat) {
    && Rank(config.layer.kind) >= i
    && StableLayer(c, config.layer)
    && match config
       case Core(layer) => !IsWrapper(layer.kind)
       case Wrapper(layer, inner) => IsWrapper(layer.kind) && StableConfig(c, inner, Rank(layer.kind) + 1)
  }

  /** No field declares a type before the i-th. */
  ghost predicate NoneBefore(raw: map<Key, Json>, i: nat) {
    forall k :: Rank(k) < i ==> Declares(k) !in raw
  }

  /** Unknown fields belong to no layer, and declare nothing that is looked for before the core type. */
  ghost predicate StableUnknown(config: Config, unknown: map<Key, Json>) {
    && (forall key :: key in unknown ==> Owners(config, key) == 0)
    && NoneBefore(unknown, Rank(CoreKind(config)))
    && (IsStrict(CoreKind(config)) ==> unknown == map[])
  }

  ghost predicate Stable(c: Codec, s: Step) {
    StableConfig(c, s.config, 0) && StableUnknown(s.config, s.unknown)
  }

  // ----- the layers of a stable step, printed -----

  lemma LeavesAreKnown(k: Kind)
    requires k != InParallel
    ensures Leaves(k) <= Known(k)
  {
  }

  lemma DeclaringFieldIsPrinted(c: Codec, layer: Layer)
    requires Lawful(c) && StableLayer(c, layer)
    ensures Declares(layer.kind) in EncodeLayer(layer)
    ensures EncodeLayer(layer).Keys <= Known(layer.kind)
  {
    var k := layer.kind;
    DetectorIsPrivate(k, k);
    if !IsNesting(k) {
      assert Declares(k) in Leaves(k);
      assert c.normal(k, Declares(k), Lookup(layer.fields, Declares(k))).value.Some?;
    }
  }

  /** No printed layer holds a key of a modifier that is looked for earlier. */
  lemma {:induction false} PrintedApart(c: Codec, config: Config, i: nat, w: Kind)
    requires Lawful(c) && StableConfig(c, config, i) && IsWrapper(w) && Rank(w) < i
    ensures Known(w) !! PrintConfig(config).Keys
    decreases config
  {
    DeclaringFieldIsPrinted(c, config.layer);
    WrapperIsPrivate(w, config.layer.kind);
    if config.Wrapper? {
      PrintedApart(c, config.inner, Rank(config.layer.kind) + 1, w);
    }
  }

  /** Nothing printed declares a type that is looked for before every layer. */
  lemma {:induction false} PrintedDeclares(c: Codec, config: Config, i: nat, k: Kind)
    requires Lawful(c) && StableConfig(c, config, i) && Rank(k) < i
    ensures Declares(k) !in PrintConfig(config)
    decreases config
  {
    DeclaringFieldIsPrinted(c, config.layer);
    DetectorIsPrivate(k, config.layer.kind);
    if config.Wrapper? {
      PrintedDeclares(c, config.inner, Rank(config.layer.kind) + 1, k);
    }
  }

  // ----- parsing what was printed -----

  /** The leaf decoder reads only its own keys. */
  lemma LeavesRoundTrip(c: Codec, layer: Layer, raw: map<Key, Json>)
    requires StableLayer(c, layer)
    requires forall key :: key in Leaves(layer.kind) ==> Lookup(raw, key) == Lookup(layer.fields, key)
    ensures DecodeLeaves(c, layer.kind, raw) == Some(layer.fields)
  {
    var d := DecodeLeaves(c, layer.kind, raw);
    assert d.Some?;
    assert d.value.Keys == layer.fields.Keys;
    assert d.value == layer.fields;
  }

  lemma {:induction false} ParseAllPrinted(c: Codec, steps: seq<Step>)
    requires Lawful(c) && forall n :: 0 <= n < |steps| ==> Stable(c, steps[n])
    ensures ParseAll(c, PrintAll(steps)) == Some(steps)
    decreases steps
  {
    if steps != [] {
      StableRoundTrip(c, steps[0]);
      ParseAllPrinted(c, steps[1..]);
      assert PrintAll(steps)[0] == Print(steps[0]) && PrintAll(steps)[1..] == PrintAll(steps[1..]);
      assert [steps[0]] + steps[1..] == steps;
    }
  }

  lemma ParallelRoundTrip(c: Codec, layer: Layer)
    requires layer.kind == InParallel && layer.fields.Keys <= Leaves(InParallel)
    requires ParseAll(c, PrintAll(layer.subs)) == Some(layer.subs)
    ensures DecodeSubs(c, InParallel, EncodeLayer(layer)[Declares(InParallel)]) == Some(layer.subs)
    ensures EncodeLayer(layer)[Declares(InParallel)].Obj?
    ensures forall key :: key in Leaves(InParallel) ==>
      Lookup(EncodeLayer(layer)[Declares(InParallel)].fields, key) == Lookup(layer.fields, key)
  {
    var nested := EncodeLayer(layer)[Declares(InParallel)].fields;
    if layer.subs == [] {
      assert Field(Steps) !in nested;
    } else {
      assert nested[Field(Steps)] == Arr(PrintAll(layer.subs));
    }
  }

  lemma HookRoundTrip(c: Codec, layer: Layer)
    requires (IsHook(layer.kind) || layer.kind == Try) && |layer.subs| == 1
    requires Parse(c, Print(layer.subs[0])) == Some(layer.subs[0])
    ensures DecodeSubs(c, layer.kind, EncodeLayer(layer)[Declares(layer.kind)]) == Some(layer.subs)
  {
    assert [layer.subs[0]] == layer.subs;
  }

  lemma {:induction false} SubsRoundTrip(c: Codec, layer: Layer)
    requires Lawful(c) && StableLayer(c, layer)
    requires Declares(layer.kind) in EncodeLayer(layer)
    ensures DecodeSubs(c, layer.kind, EncodeLayer(layer)[Declares(layer.kind)]) == Some(layer.subs)
    decreases layer, 0
  {
    var k := layer.kind;
    if IsHook(k) || k == Try {
      StableRoundTrip(c, layer.subs[0]);
      HookRoundTrip(c, layer);
    } else if k == InParallel {
      ParseAllPrinted(c, layer.subs);
      ParallelRoundTrip(c, layer);
    } else if k == Do {
      ParseAllPrinted(c, layer.subs);
    }
  }

  /** A layer is decoded back from any object that holds its fields as printed. */
  lemma {:induction false} LayerRoundTrip(c: Codec, layer: Layer, raw: map<Key, Json>)
    requires Lawful(c) && StableLayer(c, layer)
    requires forall key :: key in Known(layer.kind) ==> Lookup(raw, key) == Lookup(EncodeLayer(layer), key)
    requires IsStrict(layer.kind) ==> raw.Keys <= Known(layer.kind)
    ensures Declares(layer.kind) in raw
    ensures DecodeLayer(c, raw, layer.kind) == Some(layer)
    decreases layer, 1
  {
    var k := layer.kind;
    DeclaringFieldIsPrinted(c, layer);
    DetectorIsPrivate(k, k);
    assert Lookup(raw, Declares(k)) == Lookup(EncodeLayer(layer), Declares(k));
    SubsRoundTrip(c, layer);
    if k == InParallel {
      ParseAllPrinted(c, layer.subs);
      ParallelRoundTrip(c, layer);
      LeavesRoundTrip(c, layer, raw[Declares(k)].fields);
    } else {
      LeavesAreKnown(k);
      LeavesRoundTrip(c, layer, raw);
    }
  }

  lemma {:induction false} CoreIsLast(c: Codec, config: Config, i: nat)
    requires StableConfig(c, config, i)
    ensures Rank(CoreKind(config)) >= i
  {
    if config.Wrapper? {
      CoreIsLast(c, config.inner, Rank(config.layer.kind) + 1);
    }
  }

  /** Deleting the keys of one part from a union that shares none of them elsewhere. */
  lemma DeletePart(unknown: map<Key, Json>, part: map<Key, Json>, rest: map<Key, Json>, known: set<Key>)
    requires part.Keys <= known && known !! rest.Keys && known !! unknown.Keys
    ensures (unknown + (part + rest)) - known == unknown + rest
    ensures forall key :: key in known ==> Lookup(unknown + (part + rest), key) == Lookup(part, key)
    ensures unknown == map[] && rest == map[] ==> (unknown + (part + rest)).Keys <= known
  {
  }

  function Inner(config: Config): map<Key, Json> {
    if config.Wrapper? then PrintConfig(config.inner) else map[]
  }

  lemma UnknownIsApart(config: Config, unknown: map<Key, Json>)
    requires StableUnknown(config, unknown)
    ensures Known(config.layer.kind) !! unknown.Keys
    ensures config.Wrapper? ==> StableUnknown(config.inner, unknown)
  {
    forall key | key in unknown
      ensures key !in Known(config.layer.kind)
      ensures config.Wrapper? ==> Owners(config.inner, key) == 0
    {
      assert Owners(config, key) == 0;
    }
  }

  /** Deleting the keys of the first layer leaves the rest as printed. */
  lemma HeadKeys(c: Codec, raw: map<Key, Json>, config: Config, unknown: map<Key, Json>)
    requires Lawful(c) && StableConfig(c, config, Rank(config.layer.kind)) && StableUnknown(config, unknown)
    requires raw == unknown + PrintConfig(config)
    ensures raw - Known(config.layer.kind) == unknown + Inner(config)
    ensures forall key :: key in Known(config.layer.kind) ==> Lookup(raw, key) == Lookup(EncodeLayer(config.layer), key)
    ensures IsStrict(config.layer.kind) ==> raw.Keys <= Known(config.layer.kind)
  {
    var layer, k := config.layer, config.layer.kind;
    DeclaringFieldIsPrinted(c, layer);
    UnknownIsApart(config, unknown);
    if config.Wrapper? {
      PrintedApart(c, config.inner, Rank(k) + 1, k);
    }
    assert PrintConfig(config) == EncodeLayer(layer) + Inner(config);
    DeletePart(unknown, EncodeLayer(layer), Inner(config), Known(k));
  }

  lemma {:induction false} HeadRoundTrip(c: Codec, raw: map<Key, Json>, config: Config, unknown: map<Key, Json>)
    requires Lawful(c) && StableConfig(c, config, Rank(config.layer.kind)) && StableUnknown(config, unknown)
    requires raw == unknown + PrintConfig(config)
    ensures Declares(config.layer.kind) in raw
    ensures DecodeLayer(c, raw, config.layer.kind) == Some(config.layer)
    ensures raw - Known(config.layer.kind) == unknown + Inner(config)
    decreases config, 1
  {
    HeadKeys(c, raw, config, unknown);
    LayerRoundTrip(c, config.layer, raw);
  }

  /** A type that is looked for before the first layer is not found. */
  lemma {:induction false} SkipsTo(c: Codec, config: Config, unknown: map<Key, Json>, k: Kind)
    requires Lawful(c) && StableConfig(c, config, Rank(k) + 1) && StableUnknown(config, unknown)
    ensures Declares(k) !in unknown + PrintConfig(config)
  {
    PrintedDeclares(c, config, Rank(k) + 1, k);
    CoreIsLast(c, config, Rank(k) + 1);
  }

  /** One pass of parsing, at a type that is found and at one that is not. */
  lemma ParseFound(c: Codec, j: Json, raw: map<Key, Json>, k: Kind, layer: Layer)
    requires j.Obj? && Within(raw, j.fields) && Declares(k) in raw && DecodeLayer(c, raw, k) == Some(layer)
    ensures Rank(k) < |PRECEDENCE|
    ensures ParseLayers(c, j, raw, Rank(k)) ==
      if IsWrapper(k) then Rewrap(layer, ParseLayers(c, j, raw - Known(k), Rank(k) + 1))
      else Some(Step(Core(layer), raw - Known(k)))
  {
    NthOfRank(k);
  }

  lemma ParseSkips(c: Codec, j: Json, raw: map<Key, Json>, i: nat)
    requires j.Obj? && Within(raw, j.fields) && i < |PRECEDENCE| && Declares(PRECEDENCE[i]) !in raw
    ensures ParseLayers(c, j, raw, i) == ParseLayers(c, j, raw, i + 1)
  {
  }

  lemma StableUpToHead(c: Codec, config: Config, i: nat, k: nat)
    requires StableConfig(c, config, i) && i <= k <= Rank(config.layer.kind)
    ensures StableConfig(c, config, k)
  {
  }

  lemma SkipOne(c: Codec, j: Json, raw: map<Key, Json>, config: Config, unknown: map<Key, Json>, i: nat)
    requires Lawful(c) && StableConfig(c, config, i + 1) && StableUnknown(config, unknown)
    requires j.Obj? && Within(raw, j.fields) && raw == unknown + PrintConfig(config)
    ensures i < |PRECEDENCE| && ParseLayers(c, j, raw, i) == ParseLayers(c, j, raw, i + 1)
  {
    NthOfRank(config.layer.kind);
    RankOfNth(i);
    SkipsTo(c, config, unknown, PRECEDENCE[i]);
    ParseSkips(c, j, raw, i);
  }

  lemma {:induction false} Constant<T>(f: nat -> T, i: nat, n: nat)
    requires i <= n && forall k :: i <= k < n ==> f(k) == f(k + 1)
    ensures f(i) == f(n)
    decreases n - i
  {
    if i < n { Constant(f, i + 1, n); }
  }

  /** Nothing is found before the first layer. */
  lemma ParseReachesHead(c: Codec, j: Json, raw: map<Key, Json>, config: Config, unknown: map<Key, Json>, i: nat)
    requires Lawful(c) && StableConfig(c, config, i) && StableUnknown(config, unknown)
    requires j.Obj? && Within(raw, j.fields) && raw == unknown + PrintConfig(config)
    ensures i <= Rank(config.layer.kind) < |PRECEDENCE|
    ensures ParseLayers(c, j, raw, i) == ParseLayers(c, j, raw, Rank(config.layer.kind))
  {
    var n := Rank(config.layer.kind);
    NthOfRank(config.layer.kind);
    var f := (k: nat) => if k <= |PRECEDENCE| then ParseLayers(c, j, raw, k) else None;
    forall k | i <= k < n
      ensures f(k) == f(k + 1)
    {
      StableUpToHead(c, config, i, k + 1);
      SkipOne(c, j, raw, config, unknown, k);
    }
    Constant(f, i, n);
  }

  lemma {:induction false} ConfigRoundTrip(c: Codec, j: Json, raw: map<Key, Json>, config: Config,
      unknown: map<Key, Json>, i: nat)
    requires Lawful(c) && StableConfig(c, config, i) && StableUnknown(config, unknown)
    requires i <= |PRECEDENCE| && j.Obj? && Within(raw, j.fields)
    requires raw == unknown + PrintConfig(config)
    ensures ParseLayers(c, j, raw, i) == Some(Step(config, unknown))
    decreases config, 2
  {
    var k := config.layer.kind;
    ParseReachesHead(c, j, raw, config, unknown, i);
    HeadRoundTrip(c, raw, config, unknown);
    ParseFound(c, j, raw, k, config.layer);
    if config.Wrapper? {
      UnknownIsApart(config, unknown);
      ConfigRoundTrip(c, j, raw - Known(k), config.inner, unknown, Rank(k) + 1);
    } else {
      assert unknown + Inner(config) == unknown;
    }
  }

  /** Every stable step survives printing and parsing. */
  lemma {:induction false} StableRoundTrip(c: Codec, s: Step)
    requires Lawful(c) && Stable(c, s)
    ensures Parse(c, Print(s)) == Some(s)
    decreases s
  {
    ConfigRoundTrip(c, Print(s), Print(s).fields, s.config, s.unknown, 0);
  }

  // ----- what parsing produces -----

  /** Whatever the leaf decoder accepts, it accepts again unchanged. */
  lemma DecodedLeavesAreNormal(c: Codec, k: Kind, raw: map<Key, Json>)
    requires Lawful(c) && DecodeLeaves(c, k, raw).Some?
    ensures DecodeLeaves(c, k, raw).value.Keys <= Leaves(k)
    ensures forall key :: key in Leaves(k) ==>
      c.normal(k, key, Lookup(DecodeLeaves(c, k, raw).value, key)) == Some(Lookup(DecodeLeaves(c, k, raw).value, key))
  {
    var fields := DecodeLeaves(c, k, raw).value;
    forall key | key in Leaves(k)
      ensures c.normal(k, key, Lookup(fields, key)) == Some(Lookup(fields, key))
    {
      assert Some(Lookup(fields, key)) == c.normal(k, key, Lookup(raw, key));
    }
  }

  lemma {:induction false} ParsedAllStable(c: Codec, items: seq<Json>)
    requires Lawful(c) && ParseAll(c, items).Some?
    ensures forall n :: 0 <= n < |ParseAll(c, items).value| ==> Stable(c, ParseAll(c, items).value[n])
    decreases items
  {
    if items != [] {
      ParsedIsStable(c, items[0]);
      ParsedAllStable(c, items[1..]);
    }
  }

  lemma {:induction false} DecodedSubsStable(c: Codec, k: Kind, v: Json)
    requires Lawful(c) && DecodeSubs(c, k, v).Some?
    ensures forall n :: 0 <= n < |DecodeSubs(c, k, v).value| ==> Stable(c, DecodeSubs(c, k, v).value[n])
    ensures IsHook(k) || k == Try ==> |DecodeSubs(c, k, v).value| == 1
    ensures !IsNesting(k) ==> DecodeSubs(c, k, v).value == []
    decreases v, 31
  {
    if IsHook(k) || k == Try {
      ParsedIsStable(c, v);
    } else if k == Do && v.Arr? {
      ParsedAllStable(c, v.items);
    } else if k == InParallel && v.Arr? {
      ParsedAllStable(c, v.items);
    } else if k == InParallel && Field(Steps) in v.fields && v.fields[Field(Steps)].Arr? {
      ParsedAllStable(c, v.fields[Field(Steps)].items);
    }
  }

  lemma {:induction false} DecodedLayerStable(c: Codec, raw: map<Key, Json>, k: Kind)
    requires Lawful(c) && Declares(k) in raw && DecodeLayer(c, raw, k).Some?
    ensures StableLayer(c, DecodeLayer(c, raw, k).value) && DecodeLayer(c, raw, k).value.kind == k
    ensures IsStrict(k) ==> raw.Keys <= Known(k)
    decreases raw[Declares(k)], 32
  {
    DecodedLeavesAreNormal(c, k, LeafSource(k, raw));
    DecodedSubsStable(c, k, raw[Declares(k)]);
  }

  /** Every key of an object is owned by exactly one layer or left over. */
  ghost predicate Partitioned(raw: map<Key, Json>, s: Step) {
    && Within(s.unknown, raw)
    && forall key :: key in raw ==> Owners(s.config, key) == if key in s.unknown then 0 else 1
  }

  /** No layer owns a key of a modifier that is looked for earlier. */
  lemma {:induction false} OwnersApart(c: Codec, config: Config, i: nat, w: Kind, key: Key)
    requires StableConfig(c, config, i) && IsWrapper(w) && Rank(w) < i && key in Known(w)
    ensures Owners(config, key) == 0
    decreases config
  {
    WrapperIsPrivate(w, config.layer.kind);
    if config.Wrapper? {
      OwnersApart(c, config.inner, Rank(config.layer.kind) + 1, w, key);
    }
  }

  lemma CoreIsStable(c: Codec, raw: map<Key, Json>, layer: Layer)
    requires StableLayer(c, layer) && !IsWrapper(layer.kind)
    requires IsStrict(layer.kind) ==> raw.Keys <= Known(layer.kind)
    requires NoneBefore(raw, Rank(layer.kind))
    ensures StableConfig(c, Core(layer), Rank(layer.kind))
    ensures StableUnknown(Core(layer), raw - Known(layer.kind))
    ensures Partitioned(raw, Step(Core(layer), raw - Known(layer.kind)))
  {
  }

  lemma WrappedIsStable(c: Codec, raw: map<Key, Json>, layer: Layer, s: Step)
    requires StableLayer(c, layer) && IsWrapper(layer.kind)
    requires StableConfig(c, s.config, Rank(layer.kind) + 1) && StableUnknown(s.config, s.unknown)
    requires Partitioned(raw - Known(layer.kind), s)
    ensures StableConfig(c, Wrapper(layer, s.config), Rank(layer.kind))
    ensures StableUnknown(Wrapper(layer, s.config), s.unknown)
    ensures Partitioned(raw, Step(Wrapper(layer, s.config), s.unknown))
  {
    forall key | key in raw
      ensures Owners(Wrapper(layer, s.config), key) == if key in s.unknown then 0 else 1
    {
      if key in Known(layer.kind) {
        OwnersApart(c, s.config, Rank(layer.kind) + 1, layer.kind, key);
      }
    }
  }

  lemma NoneDeclared(raw: map<Key, Json>, i: nat)
    requires i < |PRECEDENCE| && NoneBefore(raw, i) && Declares(PRECEDENCE[i]) !in raw
    ensures NoneBefore(raw, i + 1)
  {
    forall k | Rank(k) == i
      ensures k == PRECEDENCE[i]
    {
      NthOfRank(k);
    }
  }

  lemma DeletedDeclares(raw: map<Key, Json>, i: nat)
    requires i < |PRECEDENCE| && NoneBefore(raw, i)
    ensures NoneBefore(raw - Known(PRECEDENCE[i]), i + 1)
  {
    DetectorIsPrivate(PRECEDENCE[i], PRECEDENCE[i]);
    NoneDeclared(raw - Known(PRECEDENCE[i]), i);
  }

  lemma {:induction false} ParsedLayersStable(c: Codec, j: Json, raw: map<Key, Json>, i: nat, s: Step)
    requires Lawful(c) && j.Obj? && Within(raw, j.fields) && i <= |PRECEDENCE|
    requires ParseLayers(c, j, raw, i) == Some(s)
    requires NoneBefore(raw, i)
    ensures StableConfig(c, s.config, i) && StableUnknown(s.config, s.unknown) && Partitioned(raw, s)
    decreases j, |PRECEDENCE| - i
  {
    var k := PRECEDENCE[i];
    RankOfNth(i);
    if Declares(k) !in raw {
      NoneDeclared(raw, i);
      ParsedLayersStable(c, j, raw, i + 1, s);
      Loosen(c, s.config, i);
    } else {
      DecodedLayerStable(c, raw, k);
      var layer := DecodeLayer(c, raw, k).value;
      if IsWrapper(k) {
        var inner := ParseLayers(c, j, raw - Known(k), i + 1).value;
        DeletedDeclares(raw, i);
        ParsedLayersStable(c, j, raw - Known(k), i + 1, inner);
        WrappedIsStable(c, raw, layer, inner);
      } else {
        CoreIsStable(c, raw, layer);
      }
    }
  }

  lemma Loosen(c: Codec, config: Config, i: nat)
    requires StableConfig(c, config, i + 1)
    ensures StableConfig(c, config, i)
  {
  }

  /** Whatever parsing produces is stable. */
  lemma {:induction false} ParsedIsStable(c: Codec, j: Json)
    requires Lawful(c) && Parse(c, j).Some?
    ensures Stable(c, Parse(c, j).value)
    decreases j, 30
  {
    ParsedLayersStable(c, j, j.fields, 0, Parse(c, j).value);
  }

  // ----- the main results -----

  /** Printing and parsing gives a step back exactly when some JSON parses to it: when it is stable. */
  lemma RoundTripIffStable(c: Codec, s: Step)
    requires Lawful(c)
    ensures Parse(c, Print(s)) == Some(s) <==> Stable(c, s)
    ensures Stable(c, s) <==> exists j :: Parse(c, j) == Some(s)
  {
    if Stable(c, s) {
      StableRoundTrip(c, s);
    }
    forall j | Parse(c, j) == Some(s)
      ensures Stable(c, s)
    {
      ParsedIsStable(c, j);
    }
  }

  /** Every input key is consumed by exactly one layer or kept, with its value, as unknown. */
  lemma EveryKeyIsConsumedOrKept(c: Codec, j: Json, key: Key)
    requires Lawful(c) && Parse(c, j).Some?
    ensures key in j.fields ==>
      Owners(Parse(c, j).value.config, key) + (if key in Parse(c, j).value.unknown then 1 else 0) == 1
    ensures key in Parse(c, j).value.unknown ==>
      key in j.fields && Parse(c, j).value.unknown[key] == j.fields[key]
  {
    ParsedLayersStable(c, j, j.fields, 0, Parse(c, j).value);
  }

  // ----- the loops -----

  method DeleteKnownFields(raw: map<Key, Json>, keys: seq<Key>) returns (rest: map<Key, Json>)
    ensures rest == raw - set key | key in keys
  {
    rest := raw;
    for i := 0 to |keys|
      invariant rest == raw - set key | key in keys[..i]
    {
      rest := rest - {keys[i]};
      assert keys[..i + 1] == keys[..i] + [keys[i]];
    }
    assert keys[..|keys|] == keys;
  }

  /** Nested modifiers, the outermost first. */
  function WrapAll(wrappers: seq<Layer>, s: Option<Step>): Option<Step> {
    if wrappers == [] then s
    else WrapAll(wrappers[..|wrappers| - 1], Rewrap(wrappers[|wrappers| - 1], s))
  }

  lemma {:induction false} WrapNothing(wrappers: seq<Layer>)
    ensures WrapAll(wrappers, None) == None
  {
    if wrappers != [] { WrapNothing(wrappers[..|wrappers| - 1]); }
  }

  method UnmarshalJSON(c: Codec, j: Json) returns (r: Option<Step>)
    ensures r == Parse(c, j)
    decreases j, 30
  {
    if !j.Obj? { return None; }
    var raw, wrappers := j.fields, [];
    for i := 0 to |PRECEDENCE|
      invariant Within(raw, j.fields)
      invariant Parse(c, j) == WrapAll(wrappers, ParseLayers(c, j, raw, i))
    {
      var k := PRECEDENCE[i];
      if Declares(k) !in raw { continue; }
      var layer := UnmarshalLayer(c, raw, k);
      if layer.None? {
        WrapNothing(wrappers);
        return None;
      }
      raw := DeleteKnownFields(raw, Fields(k));
      if !IsWrapper(k) {
        return WrapAll(wrappers, Some(Step(Core(layer.value), raw)));
      }
      assert (wrappers + [layer.value])[..|wrappers|] == wrappers;
      wrappers := wrappers + [layer.value];
    }
    WrapNothing(wrappers);
    return None;
  }

  /** One struct: its own fields, and the steps nested in it. */
  method UnmarshalLayer(c: Codec, raw: map<Key, Json>, k: Kind) returns (r: Option<Layer>)
    requires Declares(k) in raw
    ensures r == DecodeLayer(c, raw, k)
    decreases raw[Declares(k)], 32
  {
    var fields := DecodeLeaves(c, k, LeafSource(k, raw));
    var subs := UnmarshalSubs(c, k, raw[Declares(k)]);
    if fields.None? || subs.None? { return None; }
    if IsStrict(k) && !(raw.Keys <= Known(k) && c.wire(k, fields.value)) { return None; }
    return Some(Layer(k, fields.value, subs.value));
  }

  method UnmarshalSubs(c: Codec, k: Kind, v: Json) returns (r: Option<seq<Step>>)
    ensures r == DecodeSubs(c, k, v)
    decreases v, 31
  {
    r := Some([]);
    if IsHook(k) || k == Try {
      var s := UnmarshalJSON(c, v);
      r := if s.None? then None else Some([s.value]);
    } else if k == Do {
      r := UnmarshalItems(c, v);
    } else if k == InParallel {
      if v.Obj? {
        if Field(Steps) in v.fields { r := UnmarshalItems(c, v.fields[Field(Steps)]); }
      } else if v.Arr? {
        r := UnmarshalAll(c, v.items);
      } else {
        r := None;
      }
    }
  }

  method UnmarshalItems(c: Codec, v: Json) returns (r: Option<seq<Step>>)
    ensures r == ParseItems(c, v)
    decreases v, 30
  {
    if v.Null? { return Some([]); }
    if !v.Arr? { return None; }
    r := UnmarshalAll(c, v.items);
  }

  method UnmarshalAll(c: Codec, items: seq<Json>) returns (r: Option<seq<Step>>)
    ensures r == ParseAll(c, items)
    decreases items
  {
    var steps := [];
    PrependNothing(ParseAll(c, items));
    assert items[0..] == items;
    for i := 0 to |items|
      invariant ParseAll(c, items) == Prepend(steps, ParseAll(c, items[i..]))
    {
      var s := UnmarshalJSON(c, items[i]);
      assert items[i..][1..] == items[i + 1..];
      if s.None? { return None; }
      PrependSnoc(steps, s.value, ParseAll(c, items[i + 1..]));
      steps := steps + [s.value];
    }
    assert steps + [] == steps;
    return Some(steps);
  }

  function Prepend(steps: seq<Step>, rest: Option<seq<Step>>): Option<seq<Step>> {
    if rest.None? then None else Some(steps + rest.value)
  }

  lemma PrependNothing(rest: Option<seq<Step>>)
    ensures Prepend([], rest) == rest
  {
    if rest.Some? { assert [] + rest.value == rest.value; }
  }

  lemma PrependSnoc(steps: seq<Step>, s: Step, rest: Option<seq<Step>>)
    ensures Prepend(steps, Prepend([s], rest)) == Prepend(steps + [s], rest)
  {
    if rest.Some? { assert steps + ([s] + rest.value) == steps + [s] + rest.value; }
  }

  method MarshalJSON(s: Step) returns (j: Json)
    ensures j == Print(s)
  {
    var fields, unwrapped := s.unknown, s.config;
    while unwrapped.Wrapper?
      invariant fields + PrintConfig(unwrapped) == s.unknown + PrintConfig(s.config)
      decreases unwrapped
    {
      var payload := EncodeLayer(unwrapped.layer);
      assert (fields + payload) + PrintConfig(unwrapped.inner) == fields + (payload + PrintConfig(unwrapped.inner));
      fields := fields + payload;
      unwrapped := unwrapped.inner;
    }
    return Obj(fields + EncodeLayer(unwrapped.layer));
  }

  // ----- the step a job builds -----

  datatype Job = Job(plan: seq<Step>, onSuccess: Option<Step>, onFailure: Option<Step>, onAbort: Option<Step>,
                     onError: Option<Step>, ensureHook: Option<Step>)

  function Under(kind: Kind, hook: Option<Step>, inner: Config): Config {
    if hook.None? then inner else Wrapper(Layer(kind, map[], [hook.value]), inner)
  }

  function JobConfig(job: Job): Config {
    Under(Ensure, job.ensureHook,
      Under(OnError, job.onError,
        Under(OnAbort, job.onAbort,
          Under(OnFailure, job.onFailure,
            Under(OnSuccess, job.onSuccess, Core(Layer(Do, map[], job.plan)))))))
  }

  method StepConfig(job: Job) returns (config: Config)
    ensures config == JobConfig(job)
  {
    config := Core(Layer(Do, map[], job.plan));
    if job.onSuccess.Some? { config := Wrapper(Layer(OnSuccess, map[], [job.onSuccess.value]), config); }
    if job.onFailure.Some? { config := Wrapper(Layer(OnFailure, map[], [job.onFailure.value]), config); }
    if job.onAbort.Some? { config := Wrapper(Layer(OnAbort, map[], [job.onAbort.value]), config); }
    if job.onError.Some? { config := Wrapper(Layer(OnError, map[], [job.onError.value]), config); }
    if job.ensureHook.Some? { config := Wrapper(Layer(Ensure, map[], [job.ensureHook.value]), config); }
  }

  ghost predicate StableHook(c: Codec, hook: Option<Step>) { hook.Some? ==> Stable(c, hook.value) }

  ghost predicate StableJob(c: Codec, job: Job) {
    && (forall n :: 0 <= n < |job.plan| ==> Stable(c, job.plan[n]))
    && StableHook(c, job.onSuccess)
    && StableHook(c, job.onFailure)
    && StableHook(c, job.onAbort)
    && StableHook(c, job.onError)
    && StableHook(c, job.ensureHook)
  }

  lemma UnderIsStable(c: Codec, kind: Kind, hook: Option<Step>, inner: Config)
    requires IsHook(kind) && StableHook(c, hook) && StableConfig(c, inner, Rank(kind) + 1)
    ensures StableConfig(c, Under(kind, hook, inner), Rank(kind))
  {
  }

  lemma PlanIsStable(c: Codec, plan: seq<Step>)
    requires forall n :: 0 <= n < |plan| ==> Stable(c, plan[n])
    ensures StableConfig(c, Core(Layer(Do, map[], plan)), Rank(OnSuccess) + 1)
  {
    var layer := Layer(Do, map[], plan);
    assert StableLayer(c, layer);
  }

  /** A job whose parts are stable builds a step that survives printing and parsing as it is. */
  lemma JobRoundTrip(c: Codec, job: Job)
    requires Lawful(c) && StableJob(c, job)
    ensures Parse(c, Print(Step(JobConfig(job), map[]))) == Some(Step(JobConfig(job), map[]))
  {
    var core := Core(Layer(Do, map[], job.plan));
    var success := Under(OnSuccess, job.onSuccess, core);
    var failure := Under(OnFailure, job.onFailure, success);
    var abort := Under(OnAbort, job.onAbort, failure);
    var error := Under(OnError, job.onError, abort);
    PlanIsStable(c, job.plan);
    UnderIsStable(c, OnSuccess, job.onSuccess, core);
    UnderIsStable(c, OnFailure, job.onFailure, success);
    UnderIsStable(c, OnAbort, job.onAbort, failure);
    UnderIsStable(c, OnError, job.onError, abort);
    UnderIsStable(c, Ensure, job.ensureHook, error);
    StableRoundTrip(c, Step(JobConfig(job), map[]));
  }
}
