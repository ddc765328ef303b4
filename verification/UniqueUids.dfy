/** No run of any of the three programs makes two objects share a uid, whatever others write in between
    and however calls fail. */
module UniqueUids {
  import opened ApiTypes
  import opened ApiStore
  import opened Variables
  import opened Import
  import opened TailoredProfileReconcile
  import opened TailoredProfilePublication
  import Xccdf
  import BundleReconcile

  ghost predicate Unique(w: World) { ApiStore.UniqueUids(w.store) }

  lemma GetKeeps(w: World, key: Key)
    requires Unique(w)
    ensures Unique(Get(w, key).0)
  {
    BeginKeepsUids(w);
  }

  // --- the parser ------------------------------------------------------------------------------

  lemma {:induction false} StepsKeep(w: World, steps: seq<Step>)
    requires Unique(w)
    ensures Unique(RunSteps(w, steps).0)
    decreases |steps|
  {
    if steps != [] {
      match steps[0] {
        case Stop(_) =>
        case Skip => StepsKeep(w, steps[1..]);
        case Make(item, _) =>
          CreateKeepsUids(w, item.key, item.owners, item.body);
          StepsKeep(CreateUnlessPresent(w, item).0, steps[1..]);
      }
    }
  }

  lemma VerdictKeeps(w: World, c: Config, pb: Object, error: Option<string>)
    requires Unique(w) && pb.body.ProfileBundleBody?
    ensures Unique(StoreVerdict(w, c, pb, error).0)
  {
    UpdateStatusKeepsUids(w, BundleKey(c.ns, c.bundle), pb.version,
      ProfileBundleBody(pb.body.bundleSpec, VerdictStatus(pb.body.bundleStatus, error)));
  }

  lemma ImportKeeps(w: World, c: Config, content: Content)
    requires Unique(w)
    ensures Unique(ImportContent(w, c, content).0)
  {
    GetKeeps(w, BundleKey(c.ns, c.bundle));
    var got := Get(w, BundleKey(c.ns, c.bundle));
    if got.1.Ok? {
      ImportIntoKeeps(got.0, c, got.1.value, content);
    }
  }

  lemma ImportIntoKeeps(w: World, c: Config, pb: Object, content: Content)
    requires Unique(w) && pb.body.ProfileBundleBody?
    ensures Unique(ImportInto(w, c, pb, content).0)
  {
    match content {
      case Unreadable(error) => VerdictKeeps(w, c, pb, Some("Couldn't read content file: " + error));
      case Malformed(error) => VerdictKeeps(w, c, pb, Some("Couldn't read content XML: " + error));
      case Parsed(d) =>
        StepsKeep(w, Steps(c, pb.uid, d));
        var done := RunSteps(w, Steps(c, pb.uid, d));
        VerdictKeeps(done.0, c, pb, done.1);
    }
  }

  // --- the ProfileBundle controller ------------------------------------------------------------

  lemma StatusKeeps(w: World, ns: string, name: string, pb: Object, status: BundleStatus)
    requires Unique(w) && pb.body.ProfileBundleBody?
    ensures Unique(BundleReconcile.StoreStatus(w, ns, name, pb, status).0)
  {
    UpdateStatusKeepsUids(w, BundleKey(ns, name), pb.version, ProfileBundleBody(pb.body.bundleSpec, status));
  }

  lemma ActKeeps(w: World, ns: string, name: string, pb: Object, decision: BundleReconcile.Decision)
    requires Unique(w) && pb.body.ProfileBundleBody?
    ensures Unique(BundleReconcile.Act(w, ns, name, pb, decision).0)
  {
    StatusKeeps(w, ns, name, pb, BundleReconcile.StartupErrorStatus(pb.body.bundleStatus));
    StatusKeeps(w, ns, name, pb, BundleReconcile.PendingStatus(pb.body.bundleStatus));
    var r := BundleReconcile.StoreStatus(w, ns, name, pb, BundleReconcile.PendingStatus(pb.body.bundleStatus));
    CreateKeepsUids(r.0, BundleReconcile.PodKey(ns, name), BundleOwners(name, pb.uid), PodBody(Pod([])));
  }

  lemma BundleReconcileKeeps(w: World, ns: string, name: string)
    requires Unique(w)
    ensures Unique(BundleReconcile.Reconcile(w, ns, name).0)
  {
    GetKeeps(w, BundleKey(ns, name));
    var got := Get(w, BundleKey(ns, name));
    if got.1.Ok? {
      GetKeeps(got.0, BundleReconcile.PodKey(ns, name));
      var found := Get(got.0, BundleReconcile.PodKey(ns, name));
      if found.1.Ok? || found.1.error == NotFound {
        ActKeeps(found.0, ns, name, got.1.value, BundleReconcile.Decide(BundleReconcile.PodFound(found.1)));
      }
    }
  }

  // --- the TailoredProfile controller ----------------------------------------------------------

  lemma {:induction false} FetchRulesKeeps(w: World, ns: string, names: seq<string>, rules: map<string, Rule>)
    requires Unique(w)
    ensures Unique(FetchRules(w, ns, names, rules).0)
    decreases |names|
  {
    if names != [] && names[0] !in rules {
      GetKeeps(w, RuleKey(ns, names[0]));
      var got := Get(w, RuleKey(ns, names[0]));
      if got.1.Ok? {
        FetchRulesKeeps(got.0, ns, names[1..], rules[names[0] := got.1.value.body.rule]);
      }
    }
  }

  lemma {:induction false} FetchVariablesKeeps(w: World, ns: string, settings: seq<ValueSetting>,
                                               variables: seq<VariableData>)
    requires Unique(w)
    ensures Unique(FetchVariables(w, ns, settings, variables).0)
    decreases |settings|
  {
    if settings != [] {
      GetKeeps(w, VariableKey(ns, settings[0].name));
      var got := Get(w, VariableKey(ns, settings[0].name));
      if got.1.Ok? && Legal(got.1.value.body.variable, settings[0].value) {
        FetchVariablesKeeps(got.0, ns, settings[1..],
          variables + [AfterSet(got.1.value.body.variable, settings[0].value)]);
      }
    }
  }

  lemma ReportKeeps(w: World, ns: string, name: string, tp: Object, problem: Problem)
    requires Unique(w) && tp.body.TailoredProfileBody?
    ensures Unique(ReportProblem(w, ns, name, tp, problem).0)
  {
    UpdateStatusKeepsUids(w, TailoredProfileKey(ns, name), tp.version,
      TailoredProfileBody(tp.body.spec, ErrorStatus(tp.body.status, problem)));
  }

  lemma EnsureOutputKeeps(w: World, ns: string, name: string, tp: Object, out: Output)
    requires Unique(w) && tp.body.TailoredProfileBody? && out.body.BodyKind() == out.key.kind
    ensures Unique(EnsureOutput(w, ns, name, tp, out).0)
  {
    GetKeeps(w, out.key);
    var found := Get(w, out.key).0;
    var body := TailoredProfileBody(tp.body.spec, ReadyStatus(tp.body.status, name, out.ref));
    UpdateStatusKeepsUids(found, TailoredProfileKey(ns, name), tp.version, body);
    var ready := UpdateStatus(found, TailoredProfileKey(ns, name), tp.version, body).0;
    CreateKeepsUids(ready, out.key, out.owners, out.body);
  }

  lemma SelectionsKeep(w: World, ns: string, name: string, tp: Object, p: Object, pb: Object, time: string)
    requires Unique(w) && tp.body.TailoredProfileBody? && p.body.ProfileBody? && pb.body.ProfileBundleBody?
    ensures Unique(ReconcileSelections(w, ns, name, tp, p, pb, time).0)
  {
    var spec := tp.body.spec;
    FetchRulesKeeps(w, ns, spec.Selected(), map[]);
    var rules := FetchRules(w, ns, spec.Selected(), map[]);
    if rules.1.Found? {
      FetchVariablesKeeps(rules.0, ns, spec.setValues, []);
      var variables := FetchVariables(rules.0, ns, spec.setValues, []);
      if variables.1.Found? {
        var tailoring := Xccdf.TailoringFor(
          name, spec, p.body.profile, pb.body.bundleSpec, rules.1.value, variables.1.value, time);
        EnsureOutputKeeps(variables.0, ns, name, tp, OutputFor(ns, name, tp, pb.body.bundleSpec, tailoring));
      } else if variables.1.Broken? {
        ReportKeeps(variables.0, ns, name, tp, variables.1.problem);
      }
    } else if rules.1.Broken? {
      ReportKeeps(rules.0, ns, name, tp, rules.1.problem);
    }
  }

  lemma OwnedKeeps(w: World, ns: string, name: string, tp: Object, p: Object, time: string)
    requires Unique(w) && tp.body.TailoredProfileBody? && p.body.ProfileBody?
    ensures Unique(ReconcileOwned(w, ns, name, tp, p, time).0)
  {
    var ref := BundleReference(p.owners);
    if ref.Some? {
      GetKeeps(w, BundleKey(ns, ref.value.name));
      var got := Get(w, BundleKey(ns, ref.value.name));
      if got.1.Ok? {
        SelectionsKeep(got.0, ns, name, tp, p, got.1.value, time);
      }
    }
  }

  lemma ProfileKeeps(w: World, ns: string, name: string, tp: Object, time: string)
    requires Unique(w) && tp.body.TailoredProfileBody?
    ensures Unique(ReconcileProfile(w, ns, name, tp, time).0)
  {
    var extended := tp.body.spec.extended;
    GetKeeps(w, ProfileKey(ns, extended));
    var got := Get(w, ProfileKey(ns, extended));
    if got.1.Ok? {
      OwnedKeeps(got.0, ns, name, tp, got.1.value, time);
      UpdateKeepsUids(got.0, TailoredProfileKey(ns, name), tp.version,
        Upsert(tp.owners, OwnerOf("Profile", extended, got.1.value.uid, false)), tp.body);
    } else {
      ReportKeeps(got.0, ns, name, tp, ProfileMissing(extended));
    }
  }

  lemma InstanceKeeps(w: World, ns: string, name: string, tp: Object, time: string)
    requires Unique(w) && tp.body.TailoredProfileBody?
    ensures Unique(ReconcileInstance(w, ns, name, tp, time).0)
  {
    var spec := tp.body.spec;
    if spec.extended == "" {
      ReportKeeps(w, ns, name, tp, ExtendsEmpty);
    } else if spec.outputType in {CONFIG_MAP_OUTPUT, POLICY_OUTPUT} {
      ProfileKeeps(w, ns, name, tp, time);
    } else if spec.outputType == "" {
      UpdateKeepsUids(w, TailoredProfileKey(ns, name), tp.version, tp.owners,
        TailoredProfileBody(spec.(outputType := CONFIG_MAP_OUTPUT), tp.body.status));
    } else {
      ReportKeeps(w, ns, name, tp, OutputTypeInvalid);
    }
  }

  lemma PassKeeps(w: World, ns: string, name: string, time: string)
    requires Unique(w)
    ensures Unique(Reconcile(w, ns, name, time).0)
  {
    GetKeeps(w, TailoredProfileKey(ns, name));
    var got := Get(w, TailoredProfileKey(ns, name));
    if got.1.Ok? {
      InstanceKeeps(got.0, ns, name, got.1.value, time);
    }
  }

  lemma {:induction false} RunKeeps(w: World, requests: seq<Request>)
    requires Unique(w)
    ensures Unique(Run(w, requests))
    decreases |requests|
  {
    if requests != [] {
      PassKeeps(w, requests[0].ns, requests[0].name, requests[0].time);
      RunKeeps(Reconcile(w, requests[0].ns, requests[0].name, requests[0].time).0, requests[1..]);
    }
  }
}
