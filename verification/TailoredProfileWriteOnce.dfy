/** Once an output is stored, no later reconcile of any TailoredProfile changes it. */
module TailoredProfileWriteOnce {
  import opened ApiTypes
  import opened ApiStore
  import opened Variables
  import opened Xccdf
  import opened TailoredProfileReconcile
  import opened TailoredProfilePublication

  ghost predicate Untouched(script: seq<Event>, key: Key) {
    forall event <- script :: UntouchedBy(event.edits, key)
  }

  ghost predicate UntouchedBy(edits: seq<Edit>, key: Key) { forall e <- edits :: e.key != key }

  /** `o` is stored under the output key `k`, and no other writer will touch it. */
  ghost predicate Safe(w: World, k: Key, o: Object) {
    && k.kind in {ConfigMapKind, PolicyKind}
    && k in w.store.objects && w.store.objects[k] == o
    && Untouched(w.script, k)
  }

  lemma {:induction false} EditsKeep(s: Store, edits: seq<Edit>, key: Key)
    requires key in s.objects && UntouchedBy(edits, key)
    ensures key in ApplyEdits(s, edits).objects && ApplyEdits(s, edits).objects[key] == s.objects[key]
    decreases |edits|
  {
    if edits != [] {
      assert edits[0] in edits;
      EditsKeep(ApplyEdit(s, edits[0]), edits[1..], key);
    }
  }

  lemma BeginKeeps(w: World, k: Key, o: Object)
    requires Safe(w, k, o)
    ensures Safe(Begin(w), k, o)
  {
    if w.script != [] {
      assert w.script[0] in w.script;
      EditsKeep(w.store, w.script[0].edits, k);
    }
  }

  /** No API call the reconciler makes changes a stored output: a creation under its key is refused. */
  lemma CallsKeep(w: World, k: Key, o: Object)
    requires Safe(w, k, o)
    ensures forall key :: Safe(Get(w, key).0, k, o)
    ensures forall key: Key, owners, body: Body | body.BodyKind() == key.kind ::
        Safe(Create(w, key, owners, body).0, k, o)
    ensures forall key: Key, version, owners, body: Body | body.BodyKind() == key.kind == TailoredProfileKind ::
      Safe(Update(w, key, version, owners, body).0, k, o)
    ensures forall key: Key, version, body: Body | body.BodyKind() == key.kind == TailoredProfileKind ::
      Safe(UpdateStatus(w, key, version, body).0, k, o)
  {
    BeginKeeps(w, k, o);
  }

  lemma {:induction false} FetchRulesKeeps(w: World, ns: string, names: seq<string>, rules: map<string, Rule>, k: Key,
                                           o: Object)
    requires Safe(w, k, o)
    ensures Safe(FetchRules(w, ns, names, rules).0, k, o)
    decreases |names|
  {
    if names != [] && names[0] !in rules {
      CallsKeep(w, k, o);
      var got := Get(w, RuleKey(ns, names[0]));
      if got.1.Ok? {
        FetchRulesKeeps(got.0, ns, names[1..], rules[names[0] := got.1.value.body.rule], k, o);
      }
    }
  }

  lemma {:induction false} FetchVariablesKeeps(w: World, ns: string, settings: seq<ValueSetting>,
                                               variables: seq<VariableData>, k: Key, o: Object)
    requires Safe(w, k, o)
    ensures Safe(FetchVariables(w, ns, settings, variables).0, k, o)
    decreases |settings|
  {
    if settings != [] {
      CallsKeep(w, k, o);
      var got := Get(w, VariableKey(ns, settings[0].name));
      if got.1.Ok? && Legal(got.1.value.body.variable, settings[0].value) {
        FetchVariablesKeeps(got.0, ns, settings[1..],
          variables + [AfterSet(got.1.value.body.variable, settings[0].value)], k, o);
      }
    }
  }

  lemma EnsureOutputKeeps(w: World, ns: string, name: string, tp: Object, out: Output, k: Key, o: Object)
    requires tp.body.TailoredProfileBody? && out.body.BodyKind() == out.key.kind && Safe(w, k, o)
    ensures Safe(EnsureOutput(w, ns, name, tp, out).0, k, o)
  {
    CallsKeep(w, k, o);
    var found := Get(w, out.key);
    CallsKeep(found.0, k, o);
    var ready := UpdateStatus(found.0, TailoredProfileKey(ns, name), tp.version,
      TailoredProfileBody(tp.body.spec, ReadyStatus(tp.body.status, name, out.ref)));
    CallsKeep(ready.0, k, o);
  }

  lemma SelectionsKeep(w: World, ns: string, name: string, tp: Object, p: Object, pb: Object, time: string, k: Key,
                       o: Object)
    requires tp.body.TailoredProfileBody? && p.body.ProfileBody? && pb.body.ProfileBundleBody? && Safe(w, k, o)
    ensures Safe(ReconcileSelections(w, ns, name, tp, p, pb, time).0, k, o)
  {
    var spec := tp.body.spec;
    FetchRulesKeeps(w, ns, spec.Selected(), map[], k, o);
    var rules := FetchRules(w, ns, spec.Selected(), map[]);
    if rules.1.Found? {
      FetchVariablesKeeps(rules.0, ns, spec.setValues, [], k, o);
      var variables := FetchVariables(rules.0, ns, spec.setValues, []);
      if variables.1.Found? {
        var tailoring := TailoringFor(name, spec, p.body.profile, pb.body.bundleSpec, rules.1.value, variables.1.value,
          time);
        EnsureOutputKeeps(variables.0, ns, name, tp, OutputFor(ns, name, tp, pb.body.bundleSpec, tailoring), k, o);
      } else {
        CallsKeep(variables.0, k, o);
      }
    } else {
      CallsKeep(rules.0, k, o);
    }
  }

  lemma OwnedKeeps(w: World, ns: string, name: string, tp: Object, p: Object, time: string, k: Key, o: Object)
    requires tp.body.TailoredProfileBody? && p.body.ProfileBody? && Safe(w, k, o)
    ensures Safe(ReconcileOwned(w, ns, name, tp, p, time).0, k, o)
  {
    var ref := BundleReference(p.owners);
    if ref.Some? {
      CallsKeep(w, k, o);
      var got := Get(w, BundleKey(ns, ref.value.name));
      if got.1.Ok? {
        SelectionsKeep(got.0, ns, name, tp, p, got.1.value, time, k, o);
      }
    }
  }

  lemma ProfileKeeps(w: World, ns: string, name: string, tp: Object, time: string, k: Key, o: Object)
    requires tp.body.TailoredProfileBody? && Safe(w, k, o)
    ensures Safe(ReconcileProfile(w, ns, name, tp, time).0, k, o)
  {
    CallsKeep(w, k, o);
    var profile := Get(w, ProfileKey(ns, tp.body.spec.extended));
    CallsKeep(profile.0, k, o);
    if profile.1.Ok? && OwnedBy(tp.owners, profile.1.value.uid) {
      OwnedKeeps(profile.0, ns, name, tp, profile.1.value, time, k, o);
    }
  }

  lemma InstanceKeeps(w: World, ns: string, name: string, tp: Object, time: string, k: Key, o: Object)
    requires tp.body.TailoredProfileBody? && Safe(w, k, o)
    ensures Safe(ReconcileInstance(w, ns, name, tp, time).0, k, o)
  {
    CallsKeep(w, k, o);
    ProfileKeeps(w, ns, name, tp, time, k, o);
  }

  lemma PassKeeps(w: World, ns: string, name: string, time: string, k: Key, o: Object)
    requires Safe(w, k, o)
    ensures Safe(Reconcile(w, ns, name, time).0, k, o)
  {
    BeginKeeps(w, k, o);
    var got := Get(w, TailoredProfileKey(ns, name));
    assert Safe(got.0, k, o);
    if got.1.Ok? {
      InstanceKeeps(got.0, ns, name, got.1.value, time, k, o);
    }
  }

  /** A stored ConfigMap or Policy that nobody else writes is the same object after any run. */
  lemma {:induction false} OutputsAreWrittenOnce(w: World, requests: seq<Request>, k: Key, o: Object)
    requires Safe(w, k, o)
    ensures Safe(Run(w, requests), k, o)
    decreases |requests|
  {
    if requests != [] {
      PassKeeps(w, requests[0].ns, requests[0].name, requests[0].time, k, o);
      OutputsAreWrittenOnce(Reconcile(w, requests[0].ns, requests[0].name, requests[0].time).0, requests[1..], k, o);
    }
  }
}
