/** What one pass that publishes nothing leaves of a TailoredProfile: the default output type, a new owner, or
    ERROR with the problem that comes first. */
module TailoredProfileProblems {
  import opened ApiTypes
  import opened ApiStore
  import opened Text
  import opened Variables
  import opened TailoredProfileReconcile
  import opened TailoredProfileConvergence
  import opened TailoredProfileOutcomes

  // --- which problem comes first -----------------------------------------------------------------

  ghost predicate RulesFine(s: Store, ns: string, names: seq<string>) {
    Distinct(names) && forall n <- names :: Key(RuleKind, ns, n) in s.objects
  }

  ghost predicate Accepted(s: Store, ns: string, v: ValueSetting) {
    var key := Key(VariableKind, ns, v.name);
    key in s.objects && Legal(s.objects[key].body.variable, v.value)
  }

  /** Everything before name `i` is in order, and that name repeats one of these or is no stored Rule's. */
  ghost predicate RuleProblemAt(s: Store, ns: string, names: seq<string>, i: nat, p: Problem) {
    && i < |names| && RulesFine(s, ns, names[..i])
    && if names[i] in names[..i] then p == RuleRepeated(names[i])
       else Key(RuleKind, ns, names[i]) !in s.objects && p == RuleMissing(names[i])
  }

  /** Everything before setting `i` is accepted, and that one is not. */
  ghost predicate SettingProblemAt(s: Store, ns: string, settings: seq<ValueSetting>, i: nat, p: Problem) {
    && i < |settings| && (forall j :: 0 <= j < i ==> Accepted(s, ns, settings[j])) && !Accepted(s, ns, settings[i])
    && p == if Key(VariableKind, ns, settings[i].name) in s.objects then ValueRejected(settings[i].value)
            else VariableMissing(settings[i].name)
  }

  /** The first thing that is wrong: the extended Profile, the output type, the Profile object, a rule in the
      order of enabled and then disabled rules, a setting in order. */
  ghost predicate FirstProblem(s: Store, ns: string, spec: TailoredProfileSpec, p: Problem) {
    if spec.extended == "" then p == ExtendsEmpty
    else if spec.outputType != "" && spec.outputType != "ConfigMap" && spec.outputType != "Policy" then
      p == OutputTypeInvalid
    else if Key(ProfileKind, ns, spec.extended) !in s.objects then p == ProfileMissing(spec.extended)
    else
      var names := spec.enableRules + spec.disableRules;
      || (exists i :: RuleProblemAt(s, ns, names, i, p))
      || (RulesFine(s, ns, names) && exists i :: SettingProblemAt(s, ns, spec.setValues, i, p))
  }

  lemma {:induction false} BrokenAtFirstRule(s: Store, ns: string, done: seq<string>, names: seq<string>,
                                             rules: map<string, Rule>)
    requires RulesFine(s, ns, done) && rules.Keys == set n | n in done
    requires FindRules(s, ns, names, rules).Broken?
    ensures exists i :: RuleProblemAt(s, ns, done + names, i, FindRules(s, ns, names, rules).problem)
    decreases |names|
  {
    var all, i := done + names, |done|;
    assert all[..i] == done;
    if names[0] in rules || RuleKey(ns, names[0]) !in s.objects {
      assert RuleProblemAt(s, ns, all, i, FindRules(s, ns, names, rules).problem);
    } else {
      assert done + [names[0]] + names[1..] == all;
      BrokenAtFirstRule(s, ns, done + [names[0]], names[1..],
        rules[names[0] := s.objects[RuleKey(ns, names[0])].body.rule]);
    }
  }

  lemma {:induction false} BrokenAtFirstSetting(s: Store, ns: string, done: seq<ValueSetting>,
                                                settings: seq<ValueSetting>, variables: seq<VariableData>)
    requires forall j :: 0 <= j < |done| ==> Accepted(s, ns, done[j])
    requires FindVariables(s, ns, settings, variables).Broken?
    ensures exists i ::
      SettingProblemAt(s, ns, done + settings, i, FindVariables(s, ns, settings, variables).problem)
    decreases |settings|
  {
    var all, i := done + settings, |done|;
    if Accepted(s, ns, settings[0]) {
      assert done + [settings[0]] + settings[1..] == all;
      var v := s.objects[VariableKey(ns, settings[0].name)].body.variable;
      BrokenAtFirstSetting(s, ns, done + [settings[0]], settings[1..], variables + [AfterSet(v, settings[0].value)]);
    } else {
      assert SettingProblemAt(s, ns, all, i, FindVariables(s, ns, settings, variables).problem);
    }
  }

  lemma SelectionsNameFirstProblem(s: Store, ns: string, spec: TailoredProfileSpec, profile: Profile,
                                   bundle: BundleSpec)
    requires VerdictOnSelections(s, ns, spec, profile, bundle).Complain?
    ensures var p, names := VerdictOnSelections(s, ns, spec, profile, bundle).problem, spec.Selected();
      || (exists i :: RuleProblemAt(s, ns, names, i, p))
      || (RulesFine(s, ns, names) && exists i :: SettingProblemAt(s, ns, spec.setValues, i, p))
  {
    var names := spec.Selected();
    if FindRules(s, ns, names, map[]).Broken? {
      BrokenAtFirstRule(s, ns, [], names, map[]);
      assert [] + names == names;
    } else {
      RulesFoundExactly(s, ns, names, map[]);
      BrokenAtFirstSetting(s, ns, [], spec.setValues, []);
      assert [] + spec.setValues == spec.setValues;
    }
  }

  lemma VerdictNamesFirstProblem(s: Store, ns: string, spec: TailoredProfileSpec)
    requires VerdictOn(s, ns, spec).Complain?
    ensures FirstProblem(s, ns, spec, VerdictOn(s, ns, spec).problem)
  {
    if spec.extended != "" && ProfileKey(ns, spec.extended) in s.objects {
      var p := s.objects[ProfileKey(ns, spec.extended)];
      if BundleOf(s, ns, p).Some? && (spec.outputType == "" || KnownOutput(spec.outputType)) {
        SelectionsNameFirstProblem(s, ns, spec, p.body.profile, BundleOf(s, ns, p).value);
      }
    }
  }

  // --- what a pass leaves --------------------------------------------------------------------------

  /** In `t` the TailoredProfile has ERROR with this problem, the ID and the reference it had, and the same spec
      and owners; everything else is as in `s`. */
  ghost predicate OnlyReports(s: Store, t: Store, ns: string, name: string, p: Problem) {
    var key := Key(TailoredProfileKind, ns, name);
    && key in s.objects && OnlyChanges(s, t, {key})
    && var before, after := s.objects[key], t.objects[key];
    && after.owners == before.owners && after.body.spec == before.body.spec
    && after.body.status
       == TailoredProfileStatus(before.body.status.id, before.body.status.outputRef, StateError, p)
  }

  /** A complete pass over a mistaken spec, with type and ownership in place, records what is wrong first. */
  lemma FirstProblemIsRecorded(w: World, ns: string, name: string, time: string) returns (p: Problem)
    requires Completes(w, ns, name, time) && TailoredProfileKey(ns, name) in w.store.objects
    requires var tp := w.store.objects[TailoredProfileKey(ns, name)];
      ReadyForVerdict(w.store, ns, tp) && Mistaken(w.store, ns, tp.body.spec)
    ensures FirstProblem(w.store, ns, w.store.objects[TailoredProfileKey(ns, name)].body.spec, p)
    ensures OnlyReports(w.store, Reconcile(w, ns, name, time).0.store, ns, name, p)
  {
    var spec := w.store.objects[TailoredProfileKey(ns, name)].body.spec;
    MistakesAreWhatIsComplainedAbout(w.store, ns, spec);
    VerdictNamesFirstProblem(w.store, ns, spec);
    CompletePassHasItsEffect(w, ns, name, time);
    p := VerdictOn(w.store, ns, spec).problem;
  }

  /** A complete pass over a TailoredProfile without an output type sets it, and does nothing else. */
  lemma OutputTypeIsDefaulted(w: World, ns: string, name: string, time: string)
    requires Completes(w, ns, name, time)
    requires var key := Key(TailoredProfileKind, ns, name);
      && key in w.store.objects
      && w.store.objects[key].body.spec.extended != "" && w.store.objects[key].body.spec.outputType == ""
    ensures var key, t := Key(TailoredProfileKind, ns, name), Reconcile(w, ns, name, time).0.store;
      && OnlyChanges(w.store, t, {key})
      && var before, after := w.store.objects[key], t.objects[key];
      && after.owners == before.owners
      && after.body == TailoredProfileBody(before.body.spec.(outputType := "ConfigMap"), before.body.status)
  {
    CompletePassHasItsEffect(w, ns, name, time);
  }

  /** A complete pass over a TailoredProfile that the Profile it extends does not own yet makes that Profile an
      owner, without control, and does nothing else. */
  lemma ProfileBecomesOwner(w: World, ns: string, name: string, time: string)
    requires Completes(w, ns, name, time)
    requires var key := Key(TailoredProfileKind, ns, name);
      && key in w.store.objects
      && var spec, owners := w.store.objects[key].body.spec, w.store.objects[key].owners;
      && spec.extended != "" && (spec.outputType == "ConfigMap" || spec.outputType == "Policy")
      && Key(ProfileKind, ns, spec.extended) in w.store.objects
      && forall o <- owners :: o.uid != w.store.objects[Key(ProfileKind, ns, spec.extended)].uid
    ensures var key, t := Key(TailoredProfileKind, ns, name), Reconcile(w, ns, name, time).0.store;
      && OnlyChanges(w.store, t, {key})
      && var before, after := w.store.objects[key], t.objects[key];
      var extended := before.body.spec.extended;
      && after.body == before.body
      && after.owners == Upsert(before.owners, OwnerRef("compliance.openshift.io", "v1alpha1", "Profile", extended,
           w.store.objects[Key(ProfileKind, ns, extended)].uid, false))
  {
    CompletePassHasItsEffect(w, ns, name, time);
  }
}
