/** What one TailoredProfile reconcile does to the world: a function of the world it starts in, with
    every API call in the order in which the controller makes it. */
module TailoredProfileReconcile {
  import opened ApiTypes
  import opened ApiStore
  import opened Xccdf
  import opened Variables

  // --- owner references --------------------------------------------------------------------

  predicate ReferToSame(a: OwnerRef, b: OwnerRef) { a.group == b.group && a.kind == b.kind && a.name == b.name }

  /** SetOwnerReference: replaces the first reference to the same object, or adds one. */
  function Upsert(owners: seq<OwnerRef>, ref: OwnerRef): (r: seq<OwnerRef>)
    ensures OwnedBy(r, ref.uid)
  {
    if owners == [] then [ref]
    else if ReferToSame(owners[0], ref) then [ref] + owners[1..]
    else
      var rest := Upsert(owners[1..], ref);
      var i :| 0 <= i < |rest| && rest[i].uid == ref.uid;
      assert ([owners[0]] + rest)[i + 1].uid == ref.uid;
      [owners[0]] + rest
  }

  /** Setting an owner replaces the first reference of the same group, kind and name, or adds one at the end;
      nothing else about the owners changes. */
  lemma {:induction false} SettingAnOwner(before: seq<OwnerRef>, same: OwnerRef, after: seq<OwnerRef>, ref: OwnerRef)
    requires forall o <- before :: !(o.group == ref.group && o.kind == ref.kind && o.name == ref.name)
    ensures Upsert(before, ref) == before + [ref]
    ensures same.group == ref.group && same.kind == ref.kind && same.name == ref.name ==>
      Upsert(before + [same] + after, ref) == before + [ref] + after
    decreases |before|
  {
    if before == [] {
      assert before + [same] + after == [same] + after;
    } else {
      var all := before + [same] + after;
      assert all[0] == before[0] && all[1..] == before[1..] + [same] + after;
      SettingAnOwner(before[1..], same, after, ref);
      assert before == [before[0]] + before[1..];
    }
  }

  predicate RefersToBundle(r: OwnerRef) {
    r.kind == "ProfileBundle" && r.group == API_GROUP && r.version == API_VERSION
  }

  /** The first reference to a ProfileBundle among a Profile's owners. */
  function BundleReference(owners: seq<OwnerRef>): (r: Option<OwnerRef>)
    ensures r.None? <==> forall o <- owners :: !RefersToBundle(o)
    ensures r.Some? ==> r.value in owners && RefersToBundle(r.value)
  {
    if owners == [] then None
    else if RefersToBundle(owners[0]) then Some(owners[0])
    else BundleReference(owners[1..])
  }

  ghost predicate NamesBundle(r: OwnerRef) {
    r.kind == "ProfileBundle" && r.group == "compliance.openshift.io" && r.version == "v1alpha1"
  }

  /** The bundle reference of a Profile is its first owner of kind ProfileBundle in the operator's API version. */
  lemma {:induction false} FirstBundleIsReferredTo(before: seq<OwnerRef>, ref: OwnerRef, after: seq<OwnerRef>)
    requires forall r <- before :: !NamesBundle(r)
    ensures BundleReference(before) == None
    ensures NamesBundle(ref) ==> BundleReference(before + [ref] + after) == Some(ref)
    decreases |before|
  {
    if before == [] {
      assert before + [ref] + after == [ref] + after;
    } else {
      var all := before + [ref] + after;
      assert all[0] == before[0] && all[1..] == before[1..] + [ref] + after;
      FirstBundleIsReferredTo(before[1..], ref, after);
    }
  }

  // --- status writes -----------------------------------------------------------------------

  function ErrorStatus(s: TailoredProfileStatus, problem: Problem): TailoredProfileStatus {
    s.(state := StateError, problem := problem)
  }

  /** The error message of an earlier pass is not cleared. */
  function ReadyStatus(s: TailoredProfileStatus, name: string, ref: OutputRef): TailoredProfileStatus {
    s.(state := StateReady, outputRef := ref, id := XccdfProfileID(name))
  }

  function ReportProblem(w: World, ns: string, name: string, tp: Object, problem: Problem): (World, Outcome)
    requires tp.body.TailoredProfileBody?
  {
    var r := UpdateStatus(w, TailoredProfileKey(ns, name), tp.version,
      TailoredProfileBody(tp.body.spec, ErrorStatus(tp.body.status, problem)));
    (r.0, OutcomeOf(r.1))
  }

  // --- lookups -----------------------------------------------------------------------------

  /** A lookup ends with a value, with a mistake of the user's, or with an API failure. */
  datatype Lookup<+T> = Found(value: T) | Broken(problem: Problem) | Unavailable

  function FetchRules(w: World, ns: string, names: seq<string>, rules: map<string, Rule>)
    : (r: (World, Lookup<map<string, Rule>>))
    ensures r.1.Found? ==> r.1.value.Keys == rules.Keys + set n | n in names
    decreases |names|
  {
    if names == [] then (w, Found(rules))
    else if names[0] in rules then (w, Broken(RuleRepeated(names[0])))
    else
      var got := Get(w, RuleKey(ns, names[0]));
      match got.1
      case Ok(o) =>
        assert names == [names[0]] + names[1..];
        FetchRules(got.0, ns, names[1..], rules[names[0] := o.body.rule])
      case Err(NotFound) => (got.0, Broken(RuleMissing(names[0])))
      case Err(_) => (got.0, Unavailable)
  }

  function FetchVariables(w: World, ns: string, settings: seq<ValueSetting>, variables: seq<VariableData>)
    : (World, Lookup<seq<VariableData>>)
    decreases |settings|
  {
    if settings == [] then (w, Found(variables))
    else
      var got := Get(w, VariableKey(ns, settings[0].name));
      match got.1
      case Ok(o) =>
        if Legal(o.body.variable, settings[0].value) then
          FetchVariables(got.0, ns, settings[1..], variables + [AfterSet(o.body.variable, settings[0].value)])
        else (got.0, Broken(ValueRejected(settings[0].value)))
      case Err(NotFound) => (got.0, Broken(VariableMissing(settings[0].name)))
      case Err(_) => (got.0, Unavailable)
  }

  // --- the output --------------------------------------------------------------------------

  /** An object to be published, and the reference to it that goes into the status. */
  datatype Output = Output(key: Key, owners: seq<OwnerRef>, body: Body, ref: OutputRef)

  function ConfigMapName(name: string): string { name + "-tp" }

  function ConfigMapOutput(ns: string, name: string, uid: nat, tailoring: Tailoring): (r: Output)
    ensures r.body.BodyKind() == r.key.kind
  {
    Output(Key(ConfigMapKind, ns, ConfigMapName(name)), [OwnerOf("TailoredProfile", name, uid, true)],
      ConfigMapBody(tailoring), OutputRef(ConfigMapName(name), ns))
  }

  /** The Policy embeds the ConfigMap, whose name, without a namespace, is what the status refers to. */
  function PolicyOutput(ns: string, name: string, bundle: BundleSpec, tailoring: Tailoring): (r: Output)
    ensures r.body.BodyKind() == r.key.kind
  {
    Output(Key(PolicyKind, ns, name), [],
      PolicyBody(Policy(ConfigMapName(name), tailoring, XccdfProfileID(name), bundle.contentFile, bundle.contentImage,
        ConfigMapName(name))),
      OutputRef(ConfigMapName(name), ""))
  }

  function OutputFor(ns: string, name: string, tp: Object, bundle: BundleSpec, tailoring: Tailoring): (r: Output)
    requires tp.body.TailoredProfileBody?
    ensures r.body.BodyKind() == r.key.kind
  {
    if tp.body.spec.outputType == CONFIG_MAP_OUTPUT then ConfigMapOutput(ns, name, tp.uid, tailoring)
    else PolicyOutput(ns, name, bundle, tailoring)
  }

  function EnsureOutput(w: World, ns: string, name: string, tp: Object, out: Output): (World, Outcome)
    requires tp.body.TailoredProfileBody? && out.body.BodyKind() == out.key.kind
  {
    var found := Get(w, out.key);
    match found.1
    case Ok(_) => (found.0, Done)
    case Err(NotFound) =>
      var ready := UpdateStatus(found.0, TailoredProfileKey(ns, name), tp.version,
        TailoredProfileBody(tp.body.spec, ReadyStatus(tp.body.status, name, out.ref)));
      if ready.1.Err? then (ready.0, Requeue)
      else
        var made := Create(ready.0, out.key, out.owners, out.body);
        (made.0, OutcomeOf(made.1))
    case Err(_) => (found.0, Requeue)
  }

  // --- the phases of a reconcile -----------------------------------------------------------

  function Reconcile(w: World, ns: string, name: string, time: string): (World, Outcome) {
    var got := Get(w, TailoredProfileKey(ns, name));
    match got.1
    case Ok(tp) => ReconcileInstance(got.0, ns, name, tp, time)
    case Err(NotFound) => (got.0, Done)
    case Err(_) => (got.0, Requeue)
  }

  function ReconcileInstance(w: World, ns: string, name: string, tp: Object, time: string): (World, Outcome)
    requires tp.body.TailoredProfileBody?
  {
    var spec := tp.body.spec;
    if spec.extended == "" then ReportProblem(w, ns, name, tp, ExtendsEmpty)
    else if spec.outputType == CONFIG_MAP_OUTPUT || spec.outputType == POLICY_OUTPUT then
      ReconcileProfile(w, ns, name, tp, time)
    else if spec.outputType == "" then
      var r := Update(w, TailoredProfileKey(ns, name), tp.version, tp.owners,
        TailoredProfileBody(spec.(outputType := CONFIG_MAP_OUTPUT), tp.body.status));
      (r.0, OutcomeOf(r.1))
    else ReportProblem(w, ns, name, tp, OutputTypeInvalid)
  }

  function ReconcileProfile(w: World, ns: string, name: string, tp: Object, time: string): (World, Outcome)
    requires tp.body.TailoredProfileBody?
  {
    var got := Get(w, ProfileKey(ns, tp.body.spec.extended));
    match got.1
    case Ok(p) =>
      if OwnedBy(tp.owners, p.uid) then ReconcileOwned(got.0, ns, name, tp, p, time)
      else
        var r := Update(got.0, TailoredProfileKey(ns, name), tp.version,
          Upsert(tp.owners, OwnerOf("Profile", tp.body.spec.extended, p.uid, false)), tp.body);
        (r.0, OutcomeOf(r.1))
    case Err(NotFound) => ReportProblem(got.0, ns, name, tp, ProfileMissing(tp.body.spec.extended))
    case Err(_) => (got.0, Requeue)
  }

  function ReconcileOwned(w: World, ns: string, name: string, tp: Object, p: Object, time: string): (World, Outcome)
    requires tp.body.TailoredProfileBody? && p.body.ProfileBody?
  {
    var ref := BundleReference(p.owners);
    if ref.None? then (w, Requeue)
    else
      var got := Get(w, BundleKey(ns, ref.value.name));
      match got.1
      case Ok(pb) => ReconcileSelections(got.0, ns, name, tp, p, pb, time)
      case Err(_) => (got.0, Requeue)
  }

  function ReconcileSelections(w: World, ns: string, name: string, tp: Object, p: Object, pb: Object, time: string)
    : (World, Outcome)
    requires tp.body.TailoredProfileBody? && p.body.ProfileBody? && pb.body.ProfileBundleBody?
  {
    var spec := tp.body.spec;
    var rules := FetchRules(w, ns, spec.Selected(), map[]);
    match rules.1
    case Broken(problem) => ReportProblem(rules.0, ns, name, tp, problem)
    case Unavailable => (rules.0, Requeue)
    case Found(rs) =>
      var variables := FetchVariables(rules.0, ns, spec.setValues, []);
      match variables.1
      case Broken(problem) => ReportProblem(variables.0, ns, name, tp, problem)
      case Unavailable => (variables.0, Requeue)
      case Found(vs) =>
        var tailoring := TailoringFor(name, spec, p.body.profile, pb.body.bundleSpec, rs, vs, time);
        EnsureOutput(variables.0, ns, name, tp, OutputFor(ns, name, tp, pb.body.bundleSpec, tailoring))
  }
}
