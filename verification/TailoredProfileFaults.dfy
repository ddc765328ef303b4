/** Which failures stop a TailoredProfile reconcile where: a publication told by the faults of its calls,
    counted from the first call of the reconcile. */
module TailoredProfileFaults {
  import opened ApiTypes
  import opened ApiStore
  import opened Xccdf
  import opened Variables
  import opened TailoredProfileReconcile
  import opened TailoredProfileConvergence
  import opened TailoredProfileOutcomes

  /** What happens to the i-th call from here. */
  function FaultAt(w: World, i: nat): Fault { if i < |w.script| then w.script[i].fault else w.after }

  ghost predicate AllHealthy(w: World, n: nat) { forall i: nat | i < n :: FaultAt(w, i) == Healthy }

  // --- calls -------------------------------------------------------------------------------------

  /** From `w` to `v` there were `n` calls, which wrote nothing. */
  ghost predicate CallsLater(w: World, v: World, n: nat) {
    v.store == w.store && Quiet(v) && forall i: nat :: FaultAt(v, i) == FaultAt(w, n + i)
  }

  lemma OneCall(w: World, key: Key)
    requires Quiet(w)
    ensures CallsLater(w, Get(w, key).0, 1)
    ensures AllHealthy(w, 1) <==> NextFault(w) == Healthy
  {
    QuietCall(w);
    assert NextFault(w) == FaultAt(w, 0);
  }

  lemma HealthyInTurn(w: World, v: World, m: nat, n: nat)
    requires CallsLater(w, v, m)
    ensures AllHealthy(w, m + n) <==> AllHealthy(w, m) && AllHealthy(v, n)
  {
    if AllHealthy(w, m + n) {
      forall i: nat | i < n ensures FaultAt(v, i) == Healthy {
        assert FaultAt(w, m + i) == Healthy;
      }
    }
    if AllHealthy(w, m) && AllHealthy(v, n) {
      forall i: nat | i < m + n ensures FaultAt(w, i) == Healthy {
        assert i < m || FaultAt(v, i - m) == FaultAt(w, m + (i - m));
      }
    }
  }

  /** A lookup of `n` objects in a row finds what there is to find, unless one of its calls fails. */
  ghost predicate TakesCalls<T>(w: World, r: (World, Lookup<T>), n: nat, found: Lookup<T>) {
    if AllHealthy(w, n) then r.1 == found && CallsLater(w, r.0, n) else r.1.Unavailable? && r.0.store == w.store
  }

  lemma OneMoreCall<T>(w: World, v: World, r: (World, Lookup<T>), n: nat, found: Lookup<T>)
    requires CallsLater(w, v, 1) && AllHealthy(w, 1) && TakesCalls(v, r, n, found)
    ensures TakesCalls(w, r, n + 1, found)
  {
    HealthyInTurn(w, v, 1, n);
    forall i: nat | CallsLater(v, r.0, n) ensures FaultAt(r.0, i) == FaultAt(w, (n + 1) + i) {
      assert FaultAt(r.0, i) == FaultAt(v, n + i);
    }
  }

  lemma FirstCallFails<T>(w: World, r: (World, Lookup<T>), n: nat, found: Lookup<T>)
    requires n > 0 && !AllHealthy(w, 1) && r.1.Unavailable? && r.0.store == w.store
    ensures TakesCalls(w, r, n, found)
  {
    assert !AllHealthy(w, n);
  }

  lemma {:induction false} RulesTakeOneCallEach(w: World, ns: string, names: seq<string>, rules: map<string, Rule>)
    requires Quiet(w) && FindRules(w.store, ns, names, rules).Found?
    ensures TakesCalls(w, FetchRules(w, ns, names, rules), |names|, FindRules(w.store, ns, names, rules))
    decreases |names|
  {
    if names != [] {
      var found, r := FindRules(w.store, ns, names, rules), FetchRules(w, ns, names, rules);
      OneCall(w, RuleKey(ns, names[0]));
      var got := Get(w, RuleKey(ns, names[0]));
      if NextFault(w) == Healthy {
        RulesTakeOneCallEach(got.0, ns, names[1..], rules[names[0] := got.1.value.body.rule]);
        OneMoreCall(w, got.0, r, |names| - 1, found);
      } else {
        FirstCallFails(w, r, |names|, found);
      }
    }
  }

  lemma {:induction false} VariablesTakeOneCallEach(w: World, ns: string, settings: seq<ValueSetting>,
                                                    variables: seq<VariableData>)
    requires Quiet(w) && FindVariables(w.store, ns, settings, variables).Found?
    ensures TakesCalls(w, FetchVariables(w, ns, settings, variables), |settings|,
              FindVariables(w.store, ns, settings, variables))
    decreases |settings|
  {
    if settings != [] {
      var found, r := FindVariables(w.store, ns, settings, variables), FetchVariables(w, ns, settings, variables);
      OneCall(w, VariableKey(ns, settings[0].name));
      var got := Get(w, VariableKey(ns, settings[0].name));
      if NextFault(w) == Healthy {
        VariablesTakeOneCallEach(got.0, ns, settings[1..],
          variables + [AfterSet(got.1.value.body.variable, settings[0].value)]);
        OneMoreCall(w, got.0, r, |settings| - 1, found);
      } else {
        FirstCallFails(w, r, |settings|, found);
      }
    }
  }

  // --- where a publication stops -----------------------------------------------------------------

  /** A TailoredProfile, its output, its status once that is published, and how many rules and variables it
      names. */
  datatype Target = Target(key: Key, output: Key, ready: TailoredProfileStatus, names: nat)

  /** The output that a stored TailoredProfile asks for, and that is not there. */
  ghost predicate AimsAt(s: Store, ns: string, name: string, tp: Object, g: Target) {
    && g.key == TailoredProfileKey(ns, name) && g.key in s.objects && s.objects[g.key] == tp
    && tp.body.TailoredProfileBody? && KnownOutput(tp.body.spec.outputType)
    && g.output == OutputKey(ns, name, tp.body.spec.outputType) && g.output !in s.objects
    && g.ready == ReadyStatus(tp.body.status, name, RefFor(ns, name, tp.body.spec.outputType))
    && g.names == |tp.body.spec.Selected()| + |tp.body.spec.setValues|
  }

  /** With this Profile everything is in order for a publication, ... */
  ghost predicate PublishesWith(s: Store, ns: string, tp: Object, p: Object) {
    && tp.body.TailoredProfileBody? && p.body.ProfileBody? && BundleOf(s, ns, p).Some?
    && VerdictOnSelections(s, ns, tp.body.spec, p.body.profile, BundleOf(s, ns, p).value).Publish?
  }

  /** ... and that is the Profile it extends and is owned by. */
  ghost predicate InOrder(s: Store, ns: string, tp: Object) {
    && tp.body.TailoredProfileBody? && tp.body.spec.extended != ""
    && var key := ProfileKey(ns, tp.body.spec.extended);
    && key in s.objects && OwnedBy(tp.owners, s.objects[key].uid)
    && PublishesWith(s, ns, tp, s.objects[key])
  }

  lemma PublishableIsInOrder(s: Store, ns: string, name: string)
    requires Publishable(s, ns, name)
    ensures InOrder(s, ns, s.objects[TailoredProfileKey(ns, name)])
  {
  }

  lemma PublishableIsAimedAt(s: Store, ns: string, name: string) returns (g: Target)
    requires Publishable(s, ns, name)
    ensures AimsAt(s, ns, name, s.objects[TailoredProfileKey(ns, name)], g)
  {
    PublishableHasKnownOutput(s, ns, name);
    var tp := s.objects[TailoredProfileKey(ns, name)];
    g := Target(TailoredProfileKey(ns, name), OutputKey(ns, name, tp.body.spec.outputType),
      ReadyStatus(tp.body.status, name, RefFor(ns, name, tp.body.spec.outputType)),
      |tp.body.spec.Selected()| + |tp.body.spec.setValues|);
  }

  /** What `t` has of a publication that starts with `n` lookups: the output exactly when these, the lookup
      of the output and the status write succeed and the creation is not refused; READY exactly when it
      was there, or the lookups succeed and the status write is not refused. */
  ghost predicate StopsAfter(w: World, t: Store, n: nat, g: Target) {
    && g.key.kind == TailoredProfileKind && g.key in w.store.objects && g.key in t.objects
    && (g.output in t.objects <==> AllHealthy(w, n + 2) && FaultAt(w, n + 2) != Refused)
    && (t.objects[g.key].body.status == g.ready <==>
          w.store.objects[g.key].body.status == g.ready || (AllHealthy(w, n + 1) && FaultAt(w, n + 1) != Refused))
  }

  /** A phase of a reconcile that ends in `t`: its `m` calls succeed and the rest goes on from `v`, or the
      reconcile ends there. */
  ghost predicate Phase(w: World, v: World, m: nat, t: Store) {
    if AllHealthy(w, m) then CallsLater(w, v, m) else t == w.store
  }

  lemma PhaseStops(w: World, v: World, m: nat, n: nat, t: Store, g: Target)
    requires g.key.kind == TailoredProfileKind && g.key in w.store.objects && g.output !in w.store.objects
    requires Phase(w, v, m, t) && (AllHealthy(w, m) ==> StopsAfter(v, t, n, g))
    ensures StopsAfter(w, t, m + n, g)
  {
    if AllHealthy(w, m) {
      HealthyInTurn(w, v, m, n + 1);
      HealthyInTurn(w, v, m, n + 2);
      assert FaultAt(v, n + 1) == FaultAt(w, m + (n + 1)) && FaultAt(v, n + 2) == FaultAt(w, m + (n + 2));
    } else {
      var i: nat :| i < m && FaultAt(w, i) != Healthy;
      assert !AllHealthy(w, m + n + 1) && !AllHealthy(w, m + n + 2);
    }
  }

  lemma FirstFaults(w: World)
    ensures FaultAt(w, 0) == NextFault(w) && FaultAt(w, 1) == NextFault(Begin(w))
    ensures FaultAt(w, 2) == NextFault(Begin(Begin(w)))
    ensures AllHealthy(w, 1) <==> NextFault(w) == Healthy
    ensures AllHealthy(w, 2) <==> NextFault(w) == Healthy && NextFault(Begin(w)) == Healthy
  {
  }

  lemma EnsuringStops(w: World, ns: string, name: string, tp: Object, out: Output, names: nat)
    requires var key := TailoredProfileKey(ns, name); key in w.store.objects && w.store.objects[key] == tp
    requires Quiet(w) && out.key !in w.store.objects
    requires tp.body.TailoredProfileBody?
    requires out.body.BodyKind() == out.key.kind && out.key.kind != TailoredProfileKind
    ensures StopsAfter(w, EnsureOutput(w, ns, name, tp, out).0.store, 0,
              Target(TailoredProfileKey(ns, name), out.key, ReadyStatus(tp.body.status, name, out.ref), names))
  {
    PublicationStopsExactly(w, ns, name, out);
    FirstFaults(w);
  }

  lemma OutputStops(w: World, ns: string, name: string, tp: Object, v: Verdict, time: string, g: Target)
    requires Quiet(w) && AimsAt(w.store, ns, name, tp, g) && v.Publish?
    requires forall n <- tp.body.spec.Selected() :: n in v.rules
    ensures StopsAfter(w, EnsureOutput(w, ns, name, tp, OutputOf(ns, name, tp, v, time)).0.store, 0, g)
  {
    EnsuringStops(w, ns, name, tp, OutputOf(ns, name, tp, v, time), g.names);
  }

  // --- the phases of a reconcile -----------------------------------------------------------------

  lemma SelectionPhases(w: World, ns: string, name: string, tp: Object, p: Object, pb: Object, v: Verdict, time: string)
    returns (a: World, b: World)
    requires Quiet(w) && tp.body.TailoredProfileBody? && p.body.ProfileBody? && pb.body.ProfileBundleBody?
    requires v == VerdictOnSelections(w.store, ns, tp.body.spec, p.body.profile, pb.body.bundleSpec) && v.Publish?
    ensures var t := ReconcileSelections(w, ns, name, tp, p, pb, time).0.store;
      && Phase(w, a, |tp.body.spec.Selected()|, t)
      && (AllHealthy(w, |tp.body.spec.Selected()|) ==>
            && Phase(a, b, |tp.body.spec.setValues|, t)
            && (AllHealthy(a, |tp.body.spec.setValues|) ==>
                  t == EnsureOutput(b, ns, name, tp, OutputOf(ns, name, tp, v, time)).0.store))
  {
    var spec := tp.body.spec;
    a := FetchRules(w, ns, spec.Selected(), map[]).0;
    b := FetchVariables(a, ns, spec.setValues, []).0;
    RulesTakeOneCallEach(w, ns, spec.Selected(), map[]);
    if AllHealthy(w, |spec.Selected()|) {
      VariablesTakeOneCallEach(a, ns, spec.setValues, []);
    }
  }

  lemma BundlePhase(w: World, ns: string, name: string, tp: Object, p: Object, time: string)
    requires Quiet(w) && tp.body.TailoredProfileBody? && p.body.ProfileBody? && BundleOf(w.store, ns, p).Some?
    ensures var key := BundleKey(ns, BundleReference(p.owners).value.name);
      var t := ReconcileOwned(w, ns, name, tp, p, time).0.store;
      && Phase(w, Get(w, key).0, 1, t)
      && (AllHealthy(w, 1) ==>
            t == ReconcileSelections(Get(w, key).0, ns, name, tp, p, w.store.objects[key], time).0.store)
  {
    OneCall(w, BundleKey(ns, BundleReference(p.owners).value.name));
  }

  lemma ProfilePhase(w: World, ns: string, name: string, tp: Object, time: string)
    requires Quiet(w) && tp.body.TailoredProfileBody? && ProfileKey(ns, tp.body.spec.extended) in w.store.objects
    requires OwnedBy(tp.owners, w.store.objects[ProfileKey(ns, tp.body.spec.extended)].uid)
    ensures var key := ProfileKey(ns, tp.body.spec.extended);
      var t := ReconcileProfile(w, ns, name, tp, time).0.store;
      && Phase(w, Get(w, key).0, 1, t)
      && (AllHealthy(w, 1) ==> t == ReconcileOwned(Get(w, key).0, ns, name, tp, w.store.objects[key], time).0.store)
  {
    OneCall(w, ProfileKey(ns, tp.body.spec.extended));
  }

  lemma FirstPhase(w: World, ns: string, name: string, time: string)
    requires var key := TailoredProfileKey(ns, name);
      && Quiet(w) && key in w.store.objects
      && w.store.objects[key].body.spec.extended != "" && KnownOutput(w.store.objects[key].body.spec.outputType)
    ensures var key := TailoredProfileKey(ns, name);
      var t := Reconcile(w, ns, name, time).0.store;
      && Phase(w, Get(w, key).0, 1, t)
      && (AllHealthy(w, 1) ==> t == ReconcileProfile(Get(w, key).0, ns, name, w.store.objects[key], time).0.store)
  {
    OneCall(w, TailoredProfileKey(ns, name));
  }

  // --- a whole reconcile -------------------------------------------------------------------------

  lemma SelectionsStop(w: World, ns: string, name: string, tp: Object, p: Object, pb: Object, time: string, g: Target)
    requires Quiet(w) && AimsAt(w.store, ns, name, tp, g) && p.body.ProfileBody? && pb.body.ProfileBundleBody?
    requires VerdictOnSelections(w.store, ns, tp.body.spec, p.body.profile, pb.body.bundleSpec).Publish?
    ensures StopsAfter(w, ReconcileSelections(w, ns, name, tp, p, pb, time).0.store, g.names, g)
  {
    var v := VerdictOnSelections(w.store, ns, tp.body.spec, p.body.profile, pb.body.bundleSpec);
    var t := ReconcileSelections(w, ns, name, tp, p, pb, time).0.store;
    var a, b := SelectionPhases(w, ns, name, tp, p, pb, v, time);
    SelectionPhasesStop(w, a, b, ns, name, tp, v, t, time, g);
  }

  lemma SelectionPhasesStop(w: World, a: World, b: World, ns: string, name: string, tp: Object, v: Verdict, t: Store,
                            time: string, g: Target)
    requires AimsAt(w.store, ns, name, tp, g)
    requires v.Publish? && forall n <- tp.body.spec.Selected() :: n in v.rules
    requires Phase(w, a, |tp.body.spec.Selected()|, t)
    requires AllHealthy(w, |tp.body.spec.Selected()|) ==>
      && Phase(a, b, |tp.body.spec.setValues|, t)
      && (AllHealthy(a, |tp.body.spec.setValues|) ==>
            t == EnsureOutput(b, ns, name, tp, OutputOf(ns, name, tp, v, time)).0.store)
    ensures StopsAfter(w, t, g.names, g)
  {
    if AllHealthy(w, |tp.body.spec.Selected()|) {
      if AllHealthy(a, |tp.body.spec.setValues|) {
        OutputStops(b, ns, name, tp, v, time, g);
      }
      PhaseStops(a, b, |tp.body.spec.setValues|, 0, t, g);
    }
    PhaseStops(w, a, |tp.body.spec.Selected()|, |tp.body.spec.setValues|, t, g);
  }

  lemma OwnedStops(w: World, ns: string, name: string, tp: Object, p: Object, time: string, t: Store, g: Target)
    requires Quiet(w) && AimsAt(w.store, ns, name, tp, g) && PublishesWith(w.store, ns, tp, p)
    requires t == ReconcileOwned(w, ns, name, tp, p, time).0.store
    ensures StopsAfter(w, t, 1 + g.names, g)
  {
    var key := BundleKey(ns, BundleReference(p.owners).value.name);
    BundlePhase(w, ns, name, tp, p, time);
    BundlePhaseStops(w, Get(w, key).0, ns, name, tp, p, w.store.objects[key], time, t, g);
  }

  lemma BundlePhaseStops(w: World, v: World, ns: string, name: string, tp: Object, p: Object, pb: Object, time: string,
                         t: Store, g: Target)
    requires AimsAt(w.store, ns, name, tp, g) && p.body.ProfileBody? && pb.body.ProfileBundleBody?
    requires VerdictOnSelections(w.store, ns, tp.body.spec, p.body.profile, pb.body.bundleSpec).Publish?
    requires Phase(w, v, 1, t)
    requires AllHealthy(w, 1) ==> t == ReconcileSelections(v, ns, name, tp, p, pb, time).0.store
    ensures StopsAfter(w, t, 1 + g.names, g)
  {
    if AllHealthy(w, 1) {
      SelectionsStop(v, ns, name, tp, p, pb, time, g);
    }
    PhaseStops(w, v, 1, g.names, t, g);
  }

  lemma ProfileStops(w: World, ns: string, name: string, tp: Object, time: string, t: Store, g: Target)
    requires Quiet(w) && InOrder(w.store, ns, tp) && AimsAt(w.store, ns, name, tp, g)
    requires t == ReconcileProfile(w, ns, name, tp, time).0.store
    ensures StopsAfter(w, t, 2 + g.names, g)
  {
    var key := ProfileKey(ns, tp.body.spec.extended);
    ProfilePhase(w, ns, name, tp, time);
    ProfilePhaseStops(w, Get(w, key).0, ns, name, tp, w.store.objects[key], time, t, g);
  }

  lemma ProfilePhaseStops(w: World, v: World, ns: string, name: string, tp: Object, p: Object, time: string,
                          t: Store, g: Target)
    requires AimsAt(w.store, ns, name, tp, g) && PublishesWith(w.store, ns, tp, p) && Phase(w, v, 1, t)
    requires AllHealthy(w, 1) ==> t == ReconcileOwned(v, ns, name, tp, p, time).0.store
    ensures StopsAfter(w, t, 2 + g.names, g)
  {
    if AllHealthy(w, 1) {
      OwnedStops(v, ns, name, tp, p, time, t, g);
    }
    PhaseStops(w, v, 1, 1 + g.names, t, g);
  }

  /** What a reconcile among no other writers that is to publish leaves, told by which of its calls fail. */
  lemma ReconcileStopsExactly(w: World, ns: string, name: string, tp: Object, time: string, g: Target)
    requires Quiet(w) && InOrder(w.store, ns, tp) && AimsAt(w.store, ns, name, tp, g)
    ensures StopsAfter(w, Reconcile(w, ns, name, time).0.store, 3 + g.names, g)
  {
    FirstPhase(w, ns, name, time);
    FirstPhaseStops(w, Get(w, g.key).0, ns, name, tp, time, Reconcile(w, ns, name, time).0.store, g);
  }

  lemma FirstPhaseStops(w: World, v: World, ns: string, name: string, tp: Object, time: string, t: Store, g: Target)
    requires InOrder(w.store, ns, tp) && AimsAt(w.store, ns, name, tp, g) && Phase(w, v, 1, t)
    requires AllHealthy(w, 1) ==> t == ReconcileProfile(v, ns, name, tp, time).0.store
    ensures StopsAfter(w, t, 3 + g.names, g)
  {
    if AllHealthy(w, 1) {
      ProfileStops(v, ns, name, tp, time, t, g);
    }
    PhaseStops(w, v, 1, 2 + g.names, t, g);
  }

  /** A reconcile with an output to publish makes three calls for the TailoredProfile, the Profile and the
      bundle, and one for each rule and each setting; then it looks for the output, stores READY, and
      creates the output. */
  function CallsBefore(s: Store, ns: string, name: string): nat
    requires TailoredProfileKey(ns, name) in s.objects
  {
    var spec := s.objects[TailoredProfileKey(ns, name)].body.spec;
    3 + (|spec.Selected()| + |spec.setValues|)
  }

  /** What the faults say of the publication: whether the output is in `t`, and whether READY is without it. */
  ghost predicate LeftByFaults(w: World, t: Store, ns: string, name: string)
    requires TailoredProfileKey(ns, name) in w.store.objects
  {
    var n := CallsBefore(w.store, ns, name);
    var published := AllHealthy(w, n + 2) && FaultAt(w, n + 2) != Refused;
    var ready := AllHealthy(w, n + 1) && FaultAt(w, n + 1) != Refused;
    var output := OutputKey(ns, name, w.store.objects[TailoredProfileKey(ns, name)].body.spec.outputType);
    && (output in t.objects <==> published)
    && (ReadyWithoutOutput(w.store, t, ns, name) <==>
          !published && (ready || ReadyWithoutOutput(w.store, w.store, ns, name)))
  }

  lemma StopsAreLeft(w: World, t: Store, ns: string, name: string, tp: Object, g: Target)
    requires AimsAt(w.store, ns, name, tp, g) && StopsAfter(w, t, 3 + g.names, g)
    ensures LeftByFaults(w, t, ns, name)
  {
  }

  lemma InOrderIsLeft(w: World, ns: string, name: string, tp: Object, time: string, g: Target)
    requires Quiet(w) && InOrder(w.store, ns, tp) && AimsAt(w.store, ns, name, tp, g)
    ensures LeftByFaults(w, Reconcile(w, ns, name, time).0.store, ns, name)
  {
    ReconcileStopsExactly(w, ns, name, tp, time, g);
    StopsAreLeft(w, Reconcile(w, ns, name, time).0.store, ns, name, tp, g);
  }

  /** So the output is stored exactly when all calls up to its lookup and the status write succeed and its
      creation is not refused. READY is left without it exactly when it is not stored, and the lookups succeed
      and the status write takes effect, though its reply may be lost, or READY was there already. */
  lemma ReadyWithoutOutputByFaults(w: World, ns: string, name: string, time: string)
    requires Quiet(w) && Publishable(w.store, ns, name)
    ensures LeftByFaults(w, Reconcile(w, ns, name, time).0.store, ns, name)
  {
    var g := PublishableIsAimedAt(w.store, ns, name);
    PublishableIsInOrder(w.store, ns, name);
    InOrderIsLeft(w, ns, name, w.store.objects[TailoredProfileKey(ns, name)], time, g);
  }
}
