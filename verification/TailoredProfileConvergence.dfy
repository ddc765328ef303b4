/** TailoredProfile reconciles on their own: what one pass does to the store when nobody else writes,
    when it returns an error, and why the passes converge. */
module TailoredProfileConvergence {
  import opened ApiTypes
  import opened ApiStore
  import opened Text
  import opened Xccdf
  import opened Variables
  import opened TailoredProfileReconcile

  // --- lookups in a fixed store ------------------------------------------------------------

  function FindRules(s: Store, ns: string, names: seq<string>, rules: map<string, Rule>): (r: Lookup<map<string, Rule>>)
    ensures r.Found? ==> r.value.Keys == rules.Keys + set n | n in names
    ensures !r.Unavailable?
  {
    if names == [] then Found(rules)
    else if names[0] in rules then Broken(RuleRepeated(names[0]))
    else if RuleKey(ns, names[0]) !in s.objects then Broken(RuleMissing(names[0]))
    else
      assert names == [names[0]] + names[1..];
      FindRules(s, ns, names[1..], rules[names[0] := s.objects[RuleKey(ns, names[0])].body.rule])
  }

  function FindVariables(s: Store, ns: string, settings: seq<ValueSetting>, variables: seq<VariableData>)
    : (r: Lookup<seq<VariableData>>)
    ensures !r.Unavailable?
  {
    if settings == [] then Found(variables)
    else if VariableKey(ns, settings[0].name) !in s.objects then Broken(VariableMissing(settings[0].name))
    else
      var v := s.objects[VariableKey(ns, settings[0].name)].body.variable;
      if Legal(v, settings[0].value) then
        FindVariables(s, ns, settings[1..], variables + [AfterSet(v, settings[0].value)])
      else Broken(ValueRejected(settings[0].value))
  }

  lemma {:induction false} QuietFetchRules(w: World, ns: string, names: seq<string>, rules: map<string, Rule>)
    requires Quiet(w)
    ensures var r := FetchRules(w, ns, names, rules);
      && r.0.store == w.store && Quiet(r.0)
      && (r.1.Unavailable? || r.1 == FindRules(w.store, ns, names, rules))
      && (Calm(w) ==> Calm(r.0) && r.1 == FindRules(w.store, ns, names, rules))
    decreases |names|
  {
    if names != [] && names[0] !in rules {
      QuietCall(w);
      var got := Get(w, RuleKey(ns, names[0]));
      if got.1.Ok? {
        QuietFetchRules(got.0, ns, names[1..], rules[names[0] := got.1.value.body.rule]);
      }
    }
  }

  lemma {:induction false} QuietFetchVariables(w: World, ns: string, settings: seq<ValueSetting>,
                                               variables: seq<VariableData>)
    requires Quiet(w)
    ensures var r := FetchVariables(w, ns, settings, variables);
      && r.0.store == w.store && Quiet(r.0)
      && (r.1.Unavailable? || r.1 == FindVariables(w.store, ns, settings, variables))
      && (Calm(w) ==> Calm(r.0) && r.1 == FindVariables(w.store, ns, settings, variables))
    decreases |settings|
  {
    if settings != [] {
      QuietCall(w);
      var got := Get(w, VariableKey(ns, settings[0].name));
      if got.1.Ok? && Legal(got.1.value.body.variable, settings[0].value) {
        QuietFetchVariables(got.0, ns, settings[1..],
          variables + [AfterSet(got.1.value.body.variable, settings[0].value)]);
      }
    }
  }

  /** The rules are found exactly when no name repeats and every one names a Rule. */
  lemma {:induction false} RulesFoundExactly(s: Store, ns: string, names: seq<string>, rules: map<string, Rule>)
    ensures FindRules(s, ns, names, rules).Found? <==>
      && Distinct(names)
      && (forall n <- names :: n !in rules && RuleKey(ns, n) in s.objects)
    decreases |names|
  {
    if names != [] {
      assert names == [names[0]] + names[1..];
      DistinctCons(names[0], names[1..]);
      if names[0] !in rules && RuleKey(ns, names[0]) in s.objects {
        RulesFoundExactly(s, ns, names[1..], rules[names[0] := s.objects[RuleKey(ns, names[0])].body.rule]);
      }
    }
  }

  /** The variables are found exactly when each setting names a Variable that accepts its value. */
  lemma {:induction false} VariablesFoundExactly(s: Store, ns: string, settings: seq<ValueSetting>,
                                                 variables: seq<VariableData>)
    ensures FindVariables(s, ns, settings, variables).Found? <==>
      forall v <- settings ::
        VariableKey(ns, v.name) in s.objects && Legal(s.objects[VariableKey(ns, v.name)].body.variable, v.value)
    decreases |settings|
  {
    if settings != [] {
      assert settings == [settings[0]] + settings[1..];
      var key := VariableKey(ns, settings[0].name);
      if key in s.objects && Legal(s.objects[key].body.variable, settings[0].value) {
        VariablesFoundExactly(s, ns, settings[1..],
          variables + [AfterSet(s.objects[key].body.variable, settings[0].value)]);
      }
    }
  }

  // --- what the next pass is about ---------------------------------------------------------

  /** What a store has in mind for a TailoredProfile whose output type is set and which is owned. */
  datatype Verdict =
    | Complain(problem: Problem)
    | NoBundle
    | Publish(profile: Profile, bundle: BundleSpec, rules: map<string, Rule>, variables: seq<VariableData>)

  ghost predicate KnownOutput(outputType: string) { outputType in {CONFIG_MAP_OUTPUT, POLICY_OUTPUT} }

  function VerdictOnSelections(s: Store, ns: string, spec: TailoredProfileSpec, profile: Profile,
                               bundle: BundleSpec): (v: Verdict)
    ensures v.Publish? ==> forall n <- spec.Selected() :: n in v.rules
  {
    match FindRules(s, ns, spec.Selected(), map[])
    case Broken(problem) => Complain(problem)
    case Found(rules) =>
      (match FindVariables(s, ns, spec.setValues, [])
       case Broken(problem) => Complain(problem)
       case Found(variables) => Publish(profile, bundle, rules, variables))
  }

  /** The bundle of a Profile, if the Profile names one that exists. */
  function BundleOf(s: Store, ns: string, p: Object): Option<BundleSpec> {
    var ref := BundleReference(p.owners);
    if ref.Some? && BundleKey(ns, ref.value.name) in s.objects then
      Some(s.objects[BundleKey(ns, ref.value.name)].body.bundleSpec)
    else None
  }

  ghost function VerdictOn(s: Store, ns: string, spec: TailoredProfileSpec): (v: Verdict)
    ensures v.Publish? ==> forall n <- spec.Selected() :: n in v.rules
  {
    if spec.extended == "" then Complain(ExtendsEmpty)
    else if spec.outputType != "" && !KnownOutput(spec.outputType) then Complain(OutputTypeInvalid)
    else if ProfileKey(ns, spec.extended) !in s.objects then Complain(ProfileMissing(spec.extended))
    else
      var p := s.objects[ProfileKey(ns, spec.extended)];
      var bundle := BundleOf(s, ns, p);
      if bundle.None? then NoBundle
      else VerdictOnSelections(s, ns, spec, p.body.profile, bundle.value)
  }

  ghost predicate NeedsOutputType(spec: TailoredProfileSpec) { spec.extended != "" && spec.outputType == "" }

  ghost predicate NeedsOwner(s: Store, ns: string, tp: Object)
    requires tp.body.TailoredProfileBody?
  {
    var spec := tp.body.spec;
    && spec.extended != "" && (spec.outputType == "" || KnownOutput(spec.outputType))
    && ProfileKey(ns, spec.extended) in s.objects
    && !OwnedBy(tp.owners, s.objects[ProfileKey(ns, spec.extended)].uid)
  }

  function OutputKey(ns: string, name: string, outputType: string): Key {
    if outputType == POLICY_OUTPUT then Key(PolicyKind, ns, name) else Key(ConfigMapKind, ns, ConfigMapName(name))
  }

  /** The verdict is already on record: the same error, or an object where the output goes. */
  ghost predicate Settled(s: Store, ns: string, name: string, tp: Object)
    requires tp.body.TailoredProfileBody?
  {
    match VerdictOn(s, ns, tp.body.spec)
    case Complain(problem) => tp.body.status.state == StateError && tp.body.status.problem == problem
    case NoBundle => true
    case Publish(_, _, _, _) => OutputKey(ns, name, tp.body.spec.outputType) in s.objects
  }

  function Bit(b: bool): nat { if b then 1 else 0 }

  /** How many state-changing passes are left: output type unset, not owned, result not settled. */
  ghost function Measure(s: Store, ns: string, name: string): (m: nat)
    ensures m <= 3
  {
    var key := TailoredProfileKey(ns, name);
    if key !in s.objects then 0
    else
      var tp := s.objects[key];
      Bit(NeedsOutputType(tp.body.spec)) + Bit(NeedsOwner(s, ns, tp)) + Bit(!Settled(s, ns, name, tp))
  }

  // --- what one pass does ------------------------------------------------------------------

  function WithStatus(s: Store, key: Key, status: TailoredProfileStatus): Store
    requires key in s.objects && key.kind == TailoredProfileKind
  {
    Put(s, key, s.objects[key].owners, TailoredProfileBody(s.objects[key].body.spec, status))
  }

  ghost function OutputOf(ns: string, name: string, tp: Object, v: Verdict, time: string): (r: Output)
    requires tp.body.TailoredProfileBody? && v.Publish? && forall n <- tp.body.spec.Selected() :: n in v.rules
    ensures r.body.BodyKind() == r.key.kind
    ensures KnownOutput(tp.body.spec.outputType) ==> r.key == OutputKey(ns, name, tp.body.spec.outputType)
  {
    OutputFor(ns, name, tp, v.bundle, TailoringFor(name, tp.body.spec, v.profile, v.bundle, v.rules, v.variables, time))
  }

  /** The store once a verdict has been acted on, and half-way: with the status written and the
      output still missing. */
  ghost function HalfVerdict(s: Store, ns: string, name: string, v: Verdict, time: string): Store
    requires TailoredProfileKey(ns, name) in s.objects
    requires v.Publish? ==> forall n <- s.objects[TailoredProfileKey(ns, name)].body.spec.Selected() :: n in v.rules
  {
    var tp := s.objects[TailoredProfileKey(ns, name)];
    if v.Publish? && OutputOf(ns, name, tp, v, time).key !in s.objects then
      WithStatus(s, TailoredProfileKey(ns, name),
        ReadyStatus(tp.body.status, name, OutputOf(ns, name, tp, v, time).ref))
    else s
  }

  ghost function FullVerdict(s: Store, ns: string, name: string, v: Verdict, time: string): Store
    requires TailoredProfileKey(ns, name) in s.objects
    requires v.Publish? ==> forall n <- s.objects[TailoredProfileKey(ns, name)].body.spec.Selected() :: n in v.rules
  {
    var tp := s.objects[TailoredProfileKey(ns, name)];
    match v
    case NoBundle => s
    case Complain(problem) => WithStatus(s, TailoredProfileKey(ns, name), ErrorStatus(tp.body.status, problem))
    case Publish(_, _, _, _) =>
      var out := OutputOf(ns, name, tp, v, time);
      if out.key in s.objects then s else Put(HalfVerdict(s, ns, name, v, time), out.key, out.owners, out.body)
  }

  ghost predicate ReadyForVerdict(s: Store, ns: string, tp: Object)
    requires tp.body.TailoredProfileBody?
  {
    !NeedsOutputType(tp.body.spec) && !NeedsOwner(s, ns, tp)
  }

  /** The store after a pass stopped half-way through its verdict. */
  ghost function HalfEffect(s: Store, ns: string, name: string, time: string): Store {
    var key := TailoredProfileKey(ns, name);
    if key in s.objects && ReadyForVerdict(s, ns, s.objects[key]) then
      HalfVerdict(s, ns, name, VerdictOn(s, ns, s.objects[key].body.spec), time)
    else s
  }

  /** The store after a full pass. */
  ghost function Effect(s: Store, ns: string, name: string, time: string): Store {
    var key := TailoredProfileKey(ns, name);
    if key !in s.objects then s
    else
      var tp := s.objects[key];
      var spec := tp.body.spec;
      if NeedsOutputType(spec) then
        Put(s, key, tp.owners, TailoredProfileBody(spec.(outputType := CONFIG_MAP_OUTPUT), tp.body.status))
      else if NeedsOwner(s, ns, tp) then
        var p := s.objects[ProfileKey(ns, spec.extended)];
        Put(s, key, Upsert(tp.owners, OwnerOf("Profile", spec.extended, p.uid, false)), tp.body)
      else FullVerdict(s, ns, name, VerdictOn(s, ns, spec), time)
  }

  /** A Profile that is extended and already an owner, but whose bundle cannot be found, is the one
      condition a reconcile keeps retrying. */
  ghost predicate Stuck(s: Store, ns: string, name: string) {
    var key := TailoredProfileKey(ns, name);
    && key in s.objects
    && !NeedsOutputType(s.objects[key].body.spec)
    && !NeedsOwner(s, ns, s.objects[key])
    && VerdictOn(s, ns, s.objects[key].body.spec).NoBundle?
  }

  /** A pass has had its whole effect, or half of it, or none; the whole of it if it returns no error. */
  ghost predicate Partial(w: World, r: (World, Outcome), half: Store, full: Store) {
    && Quiet(r.0) && r.0.store in {w.store, half, full}
    && (r.1.Done? ==> r.0.store == full)
    && (Calm(w) ==> Calm(r.0) && r.0.store == full)
  }

  lemma QuietReport(w: World, ns: string, name: string, problem: Problem)
    requires Quiet(w) && TailoredProfileKey(ns, name) in w.store.objects
    ensures var key := TailoredProfileKey(ns, name); var tp := w.store.objects[key];
      var r := ReportProblem(w, ns, name, tp, problem);
      Partial(w, r, w.store, WithStatus(w.store, key, ErrorStatus(tp.body.status, problem))) && (Calm(w) ==> r.1.Done?)
  {
    QuietCall(w);
  }

  lemma QuietEnsureOutput(w: World, ns: string, name: string, out: Output)
    requires Quiet(w) && TailoredProfileKey(ns, name) in w.store.objects
    requires out.body.BodyKind() == out.key.kind && out.key.kind != TailoredProfileKind
    ensures var key := TailoredProfileKey(ns, name); var tp := w.store.objects[key];
      var r := EnsureOutput(w, ns, name, tp, out);
      var half := if out.key in w.store.objects then w.store
                  else WithStatus(w.store, key, ReadyStatus(tp.body.status, name, out.ref));
      var full := if out.key in w.store.objects then w.store else Put(half, out.key, out.owners, out.body);
      Partial(w, r, half, full) && (Calm(w) ==> r.1.Done?)
  {
    var tp := w.store.objects[TailoredProfileKey(ns, name)];
    QuietCall(w);
    var found := Get(w, out.key);
    if found.1 == Err(NotFound) {
      QuietCall(found.0);
      var ready := UpdateStatus(found.0, TailoredProfileKey(ns, name), tp.version,
        TailoredProfileBody(tp.body.spec, ReadyStatus(tp.body.status, name, out.ref)));
      QuietCall(ready.0);
    }
  }

  lemma QuietSelections(w: World, ns: string, name: string, p: Object, pb: Object, time: string)
    requires Quiet(w) && TailoredProfileKey(ns, name) in w.store.objects
    requires p.body.ProfileBody? && pb.body.ProfileBundleBody?
    ensures var tp := w.store.objects[TailoredProfileKey(ns, name)];
      var v := VerdictOnSelections(w.store, ns, tp.body.spec, p.body.profile, pb.body.bundleSpec);
      var r := ReconcileSelections(w, ns, name, tp, p, pb, time);
      Partial(w, r, HalfVerdict(w.store, ns, name, v, time), FullVerdict(w.store, ns, name, v, time))
      && (Calm(w) ==> r.1.Done?)
  {
    var tp := w.store.objects[TailoredProfileKey(ns, name)];
    QuietFetchRules(w, ns, tp.body.spec.Selected(), map[]);
    var rules := FetchRules(w, ns, tp.body.spec.Selected(), map[]);
    if rules.1.Found? {
      QuietFetchVariables(rules.0, ns, tp.body.spec.setValues, []);
      var variables := FetchVariables(rules.0, ns, tp.body.spec.setValues, []);
      if variables.1.Found? {
        var v := VerdictOnSelections(w.store, ns, tp.body.spec, p.body.profile, pb.body.bundleSpec);
        QuietEnsureOutput(variables.0, ns, name, OutputOf(ns, name, tp, v, time));
      } else if variables.1.Broken? {
        QuietReport(variables.0, ns, name, variables.1.problem);
      }
    } else if rules.1.Broken? {
      QuietReport(rules.0, ns, name, rules.1.problem);
    }
  }

  lemma QuietOwned(w: World, ns: string, name: string, p: Object, time: string)
    requires Quiet(w) && TailoredProfileKey(ns, name) in w.store.objects && p.body.ProfileBody?
    ensures var tp := w.store.objects[TailoredProfileKey(ns, name)];
      var bundle := BundleOf(w.store, ns, p);
      var v := if bundle.None? then NoBundle
               else VerdictOnSelections(w.store, ns, tp.body.spec, p.body.profile, bundle.value);
      var r := ReconcileOwned(w, ns, name, tp, p, time);
      && Partial(w, r, HalfVerdict(w.store, ns, name, v, time), FullVerdict(w.store, ns, name, v, time))
      && (Calm(w) ==> (r.1.Requeue? <==> v.NoBundle?))
  {
    QuietCall(w);
    var ref := BundleReference(p.owners);
    if ref.Some? {
      var got := Get(w, BundleKey(ns, ref.value.name));
      if got.1.Ok? {
        QuietSelections(got.0, ns, name, p, got.1.value, time);
      }
    }
  }

  lemma QuietProfile(w: World, ns: string, name: string, time: string)
    requires Quiet(w) && TailoredProfileKey(ns, name) in w.store.objects
    requires var spec := w.store.objects[TailoredProfileKey(ns, name)].body.spec;
      spec.extended != "" && KnownOutput(spec.outputType)
    ensures var tp := w.store.objects[TailoredProfileKey(ns, name)];
      var r := ReconcileProfile(w, ns, name, tp, time);
      && Partial(w, r, HalfEffect(w.store, ns, name, time), Effect(w.store, ns, name, time))
      && (Calm(w) ==> (r.1.Requeue? <==> Stuck(w.store, ns, name)))
  {
    var tp := w.store.objects[TailoredProfileKey(ns, name)];
    QuietCall(w);
    var profile := Get(w, ProfileKey(ns, tp.body.spec.extended));
    if profile.1 == Err(NotFound) {
      QuietReport(profile.0, ns, name, ProfileMissing(tp.body.spec.extended));
    } else if profile.1.Ok? {
      if OwnedBy(tp.owners, profile.1.value.uid) {
        QuietOwned(profile.0, ns, name, profile.1.value, time);
      } else {
        QuietCall(profile.0);
      }
    }
  }

  /** A pass with no other writers leaves the store as it was, or after its whole effect, or, if it
      publishes, with the status written and the output missing. With no failures it has its whole
      effect, and returns an error exactly when it is stuck on a missing bundle. */
  lemma QuietReconcile(w: World, ns: string, name: string, time: string)
    requires Quiet(w)
    ensures var r := Reconcile(w, ns, name, time);
      && Partial(w, r, HalfEffect(w.store, ns, name, time), Effect(w.store, ns, name, time))
      && (Calm(w) ==> (r.1.Requeue? <==> Stuck(w.store, ns, name)))
  {
    QuietCall(w);
    var got := Get(w, TailoredProfileKey(ns, name));
    if got.1.Ok? {
      var spec := got.1.value.body.spec;
      if spec.extended == "" {
        QuietReport(got.0, ns, name, ExtendsEmpty);
      } else if KnownOutput(spec.outputType) {
        QuietProfile(got.0, ns, name, time);
      } else if spec.outputType != "" {
        QuietReport(got.0, ns, name, OutputTypeInvalid);
      } else {
        QuietCall(got.0);
      }
    }
  }

  // --- convergence -------------------------------------------------------------------------

  /** The stores agree on everything a verdict is based on. */
  ghost predicate SameInputs(s: Store, t: Store) {
    forall k: Key | k.kind in {ProfileKind, ProfileBundleKind, RuleKind, VariableKind} ::
      (k in s.objects <==> k in t.objects) && (k in s.objects ==> s.objects[k] == t.objects[k])
  }

  lemma {:induction false} SameRules(s: Store, t: Store, ns: string, names: seq<string>, rules: map<string, Rule>)
    requires SameInputs(s, t)
    ensures FindRules(s, ns, names, rules) == FindRules(t, ns, names, rules)
    decreases |names|
  {
    if names != [] && RuleKey(ns, names[0]) in s.objects {
      SameRules(s, t, ns, names[1..], rules[names[0] := s.objects[RuleKey(ns, names[0])].body.rule]);
    }
  }

  lemma {:induction false} SameVariables(s: Store, t: Store, ns: string, settings: seq<ValueSetting>,
                                         variables: seq<VariableData>)
    requires SameInputs(s, t)
    ensures FindVariables(s, ns, settings, variables) == FindVariables(t, ns, settings, variables)
    decreases |settings|
  {
    if settings != [] && VariableKey(ns, settings[0].name) in s.objects {
      var v := s.objects[VariableKey(ns, settings[0].name)].body.variable;
      SameVariables(s, t, ns, settings[1..], variables + [AfterSet(v, settings[0].value)]);
    }
  }

  lemma SameVerdict(s: Store, t: Store, ns: string, spec: TailoredProfileSpec)
    requires SameInputs(s, t)
    ensures VerdictOn(s, ns, spec) == VerdictOn(t, ns, spec)
    ensures spec.outputType == "" ==> VerdictOn(t, ns, spec.(outputType := CONFIG_MAP_OUTPUT)) == VerdictOn(s, ns, spec)
  {
    SameRules(s, t, ns, spec.Selected(), map[]);
    SameVariables(s, t, ns, spec.setValues, []);
  }

  lemma DefaultingLowersMeasure(s: Store, ns: string, name: string, time: string)
    requires TailoredProfileKey(ns, name) in s.objects
    requires NeedsOutputType(s.objects[TailoredProfileKey(ns, name)].body.spec)
    ensures Measure(Effect(s, ns, name, time), ns, name) == Measure(s, ns, name) - 1
  {
    SameVerdict(s, Effect(s, ns, name, time), ns, s.objects[TailoredProfileKey(ns, name)].body.spec);
  }

  lemma OwningLowersMeasure(s: Store, ns: string, name: string, time: string)
    requires var key := TailoredProfileKey(ns, name);
      key in s.objects && !NeedsOutputType(s.objects[key].body.spec) && NeedsOwner(s, ns, s.objects[key])
    ensures Measure(Effect(s, ns, name, time), ns, name) == Measure(s, ns, name) - 1
  {
    SameVerdict(s, Effect(s, ns, name, time), ns, s.objects[TailoredProfileKey(ns, name)].body.spec);
  }

  lemma PutKeepsInputs(s: Store, t: Store, k: Key, owners: seq<OwnerRef>, body: Body)
    requires body.BodyKind() == k.kind && k.kind !in {ProfileKind, ProfileBundleKind, RuleKind, VariableKind}
    requires SameInputs(s, t)
    ensures SameInputs(s, Put(t, k, owners, body))
  {
  }

  lemma FullVerdictKeepsInputs(s: Store, ns: string, name: string, v: Verdict, time: string)
    requires TailoredProfileKey(ns, name) in s.objects
    requires v.Publish? ==> forall n <- s.objects[TailoredProfileKey(ns, name)].body.spec.Selected() :: n in v.rules
    ensures SameInputs(s, FullVerdict(s, ns, name, v, time))
  {
    var key := TailoredProfileKey(ns, name);
    var tp := s.objects[key];
    match v {
      case NoBundle =>
      case Complain(problem) =>
        PutKeepsInputs(s, s, key, tp.owners, TailoredProfileBody(tp.body.spec, ErrorStatus(tp.body.status, problem)));
      case Publish(_, _, _, _) =>
        var out := OutputOf(ns, name, tp, v, time);
        if out.key !in s.objects {
          var half := HalfVerdict(s, ns, name, v, time);
          PutKeepsInputs(s, s, key, tp.owners,
            TailoredProfileBody(tp.body.spec, ReadyStatus(tp.body.status, name, out.ref)));
          PutKeepsInputs(s, half, out.key, out.owners, out.body);
        }
    }
  }

  /** Acting on a verdict puts it on record, and acting on a recorded verdict changes nothing. */
  lemma VerdictSettles(s: Store, ns: string, name: string, time: string)
    requires var key := TailoredProfileKey(ns, name); key in s.objects && ReadyForVerdict(s, ns, s.objects[key])
    ensures var tp := s.objects[TailoredProfileKey(ns, name)];
      var t := FullVerdict(s, ns, name, VerdictOn(s, ns, tp.body.spec), time);
      && SameInputs(s, t)
      && TailoredProfileKey(ns, name) in t.objects
      && t.objects[TailoredProfileKey(ns, name)].body.spec == tp.body.spec
      && t.objects[TailoredProfileKey(ns, name)].owners == tp.owners
      && Settled(t, ns, name, t.objects[TailoredProfileKey(ns, name)])
      && (Settled(s, ns, name, tp) ==> t == s)
  {
    var tp := s.objects[TailoredProfileKey(ns, name)];
    var v := VerdictOn(s, ns, tp.body.spec);
    var t := FullVerdict(s, ns, name, v, time);
    FullVerdictKeepsInputs(s, ns, name, v, time);
    SameVerdict(s, t, ns, tp.body.spec);
  }

  lemma VerdictLowersMeasure(s: Store, ns: string, name: string, time: string)
    requires var key := TailoredProfileKey(ns, name); key in s.objects && ReadyForVerdict(s, ns, s.objects[key])
    ensures var t := Effect(s, ns, name, time);
      if Measure(s, ns, name) == 0 then t == s else Measure(t, ns, name) == Measure(s, ns, name) - 1
  {
    VerdictSettles(s, ns, name, time);
  }

  /** Every full pass that changes the store takes one off the measure, and only a measure of zero
      leaves nothing to do. */
  lemma PassLowersMeasure(s: Store, ns: string, name: string, time: string)
    ensures var t := Effect(s, ns, name, time);
      if Measure(s, ns, name) == 0 then t == s else Measure(t, ns, name) == Measure(s, ns, name) - 1
  {
    var key := TailoredProfileKey(ns, name);
    if key in s.objects {
      if NeedsOutputType(s.objects[key].body.spec) {
        DefaultingLowersMeasure(s, ns, name, time);
      } else if NeedsOwner(s, ns, s.objects[key]) {
        OwningLowersMeasure(s, ns, name, time);
      } else {
        VerdictLowersMeasure(s, ns, name, time);
      }
    }
  }

  lemma StatusKeepsMeasure(s: Store, ns: string, name: string, status: TailoredProfileStatus)
    requires TailoredProfileKey(ns, name) in s.objects
    requires VerdictOn(s, ns, s.objects[TailoredProfileKey(ns, name)].body.spec).Publish?
    ensures Measure(WithStatus(s, TailoredProfileKey(ns, name), status), ns, name) == Measure(s, ns, name)
  {
    var key := TailoredProfileKey(ns, name);
    SameVerdict(s, WithStatus(s, key, status), ns, s.objects[key].body.spec);
  }

  lemma HalfPassKeepsMeasure(s: Store, ns: string, name: string, time: string)
    ensures Measure(HalfEffect(s, ns, name, time), ns, name) <= Measure(s, ns, name)
  {
    var key := TailoredProfileKey(ns, name);
    if HalfEffect(s, ns, name, time) != s {
      var tp := s.objects[key];
      var out := OutputOf(ns, name, tp, VerdictOn(s, ns, tp.body.spec), time);
      StatusKeepsMeasure(s, ns, name, ReadyStatus(tp.body.status, name, out.ref));
    }
  }

  /** A pass cut short by any pattern of failures never raises the measure. */
  lemma FailuresNeverRaiseMeasure(w: World, ns: string, name: string, time: string)
    requires Quiet(w)
    ensures Measure(Reconcile(w, ns, name, time).0.store, ns, name) <= Measure(w.store, ns, name)
  {
    QuietReconcile(w, ns, name, time);
    PassLowersMeasure(w.store, ns, name, time);
    HalfPassKeepsMeasure(w.store, ns, name, time);
  }

  function Passes(w: World, ns: string, name: string, times: seq<string>): World
    decreases |times|
  {
    if times == [] then w else Passes(Reconcile(w, ns, name, times[0]).0, ns, name, times[1..])
  }

  /** Three passes without failures or other writers settle a TailoredProfile: no later pass, however
      many there are, changes the store. */
  lemma {:induction false} PassesConverge(w: World, ns: string, name: string, times: seq<string>)
    requires Calm(w)
    ensures Calm(Passes(w, ns, name, times))
    ensures Measure(Passes(w, ns, name, times).store, ns, name)
         == if |times| >= Measure(w.store, ns, name) then 0 else Measure(w.store, ns, name) - |times|
    ensures Measure(w.store, ns, name) == 0 ==> Passes(w, ns, name, times).store == w.store
    decreases |times|
  {
    if times != [] {
      QuietReconcile(w, ns, name, times[0]);
      PassLowersMeasure(w.store, ns, name, times[0]);
      PassesConverge(Reconcile(w, ns, name, times[0]).0, ns, name, times[1..]);
    }
  }

  /** Three passes are enough, from any store: no further pass changes anything. */
  lemma ThreePassesReachAFixedPoint(w: World, ns: string, name: string, times: seq<string>, more: seq<string>)
    requires Calm(w) && |times| == 3
    ensures var settled := Passes(w, ns, name, times);
      Passes(settled, ns, name, more).store == settled.store
  {
    PassesConverge(w, ns, name, times);
    PassesConverge(Passes(w, ns, name, times), ns, name, more);
  }

  // --- passes that may fail --------------------------------------------------------------------

  /** One pass: what happens to its calls, and what the clock says. */
  datatype Try = Try(time: string, faults: seq<Fault>, after: Fault)

  /** The world of a pass among no other writers whose calls fail in this way. */
  function Faulty(s: Store, faults: seq<Fault>, after: Fault): (w: World)
    ensures Quiet(w)
  {
    World(s, seq(|faults|, i requires 0 <= i < |faults| => Event([], faults[i])), after, [])
  }

  function OneTry(s: Store, ns: string, name: string, t: Try): (Store, Outcome) {
    var r := Reconcile(Faulty(s, t.faults, t.after), ns, name, t.time);
    (r.0.store, r.1)
  }

  function AllTries(s: Store, ns: string, name: string, tries: seq<Try>): Store
    decreases |tries|
  {
    if tries == [] then s else AllTries(OneTry(s, ns, name, tries[0]).0, ns, name, tries[1..])
  }

  /** How many of the passes return no error. */
  function Successes(s: Store, ns: string, name: string, tries: seq<Try>): nat
    decreases |tries|
  {
    if tries == [] then 0
    else
      var r := OneTry(s, ns, name, tries[0]);
      Bit(r.1.Done?) + Successes(r.0, ns, name, tries[1..])
  }

  /** What a pass over a TailoredProfile does to its measure: an error never raises it, no error takes
      something off it, and at zero nothing is left to do. */
  ghost predicate Lowers(s: Store, t: Store, done: bool, ns: string, name: string) {
    && Measure(t, ns, name) <= Measure(s, ns, name)
    && (done && Measure(s, ns, name) > 0 ==> Measure(t, ns, name) < Measure(s, ns, name))
    && (Measure(s, ns, name) == 0 ==> t == s)
  }

  lemma EffectLowers(s: Store, ns: string, name: string, time: string)
    ensures Lowers(s, Effect(s, ns, name, time), true, ns, name)
  {
    PassLowersMeasure(s, ns, name, time);
  }

  lemma HalfEffectLowers(s: Store, ns: string, name: string, time: string)
    ensures Lowers(s, HalfEffect(s, ns, name, time), false, ns, name)
  {
    HalfPassKeepsMeasure(s, ns, name, time);
  }

  lemma TryLowersMeasure(s: Store, ns: string, name: string, t: Try)
    ensures Lowers(s, OneTry(s, ns, name, t).0, OneTry(s, ns, name, t).1.Done?, ns, name)
  {
    QuietReconcile(Faulty(s, t.faults, t.after), ns, name, t.time);
    EffectLowers(s, ns, name, t.time);
    HalfEffectLowers(s, ns, name, t.time);
  }

  /** In any sequence of passes among no other writers, each failing in its own way or not at all: once as
      many have returned no error as the measure says, no later pass, failing or not, changes the store. */
  lemma {:induction false} SuccessesConverge(s: Store, ns: string, name: string, tries: seq<Try>, more: seq<Try>)
    requires Successes(s, ns, name, tries) >= Measure(s, ns, name)
    ensures var settled := AllTries(s, ns, name, tries);
      Measure(settled, ns, name) == 0 && AllTries(settled, ns, name, more) == settled
    decreases |tries|
  {
    if Measure(s, ns, name) == 0 {
      SettledStays(s, ns, name, tries);
      SettledStays(s, ns, name, more);
    } else {
      TryLowersMeasure(s, ns, name, tries[0]);
      SuccessesConverge(OneTry(s, ns, name, tries[0]).0, ns, name, tries[1..], more);
    }
  }

  lemma {:induction false} SettledStays(s: Store, ns: string, name: string, tries: seq<Try>)
    requires Measure(s, ns, name) == 0
    ensures AllTries(s, ns, name, tries) == s
    decreases |tries|
  {
    if tries != [] {
      TryLowersMeasure(s, ns, name, tries[0]);
      SettledStays(s, ns, name, tries[1..]);
    }
  }
}
