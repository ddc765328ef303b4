/** What is true of every object the TailoredProfile reconciler ever publishes, in every run: with
    other writers between any two API calls, failures of any call, and any sequence of requests. */
module TailoredProfilePublication {
  import opened ApiTypes
  import opened ApiStore
  import opened Text
  import opened Xccdf
  import opened Variables
  import opened TailoredProfileReconcile

  // --- frames ------------------------------------------------------------------------------

  /** The world `t` comes after `w`. */
  ghost predicate Follows(w: World, t: World) {
    Later(w.store, t.store) && w.log <= t.log
  }

  lemma FollowsTransitive(w: World, t: World, u: World)
    requires Follows(w, t) && Follows(t, u)
    ensures Follows(w, u)
  {
    LaterTransitive(w.store, t.store, u.store);
  }

  lemma BeginFollows(w: World)
    ensures Follows(w, Begin(w))
  {
    BeginIsLater(w);
  }

  lemma GetFollows(w: World, key: Key)
    ensures Follows(w, Get(w, key).0)
    ensures Get(w, key).1.Ok? ==> Get(w, key).0.log == w.log + [Read(key, Get(w, key).1.value)]
    ensures Get(w, key).1.Err? ==> Get(w, key).0.log == w.log
    ensures Get(w, key).1.Ok? ==> Anchored(Get(w, key).0.store, key, Get(w, key).1.value)
  {
    BeginFollows(w);
  }

  lemma CreateFollows(w: World, key: Key, owners: seq<OwnerRef>, body: Body)
    requires body.BodyKind() == key.kind
    ensures Follows(w, Create(w, key, owners, body).0)
  {
    BeginFollows(w);
    FollowsTransitive(w, Begin(w), Create(w, key, owners, body).0);
  }

  lemma UpdateFollows(w: World, key: Key, version: nat, owners: seq<OwnerRef>, body: Body)
    requires body.BodyKind() == key.kind
    ensures Follows(w, Update(w, key, version, owners, body).0)
  {
    BeginFollows(w);
    FollowsTransitive(w, Begin(w), Update(w, key, version, owners, body).0);
  }

  lemma UpdateStatusFollows(w: World, key: Key, version: nat, body: Body)
    requires body.BodyKind() == key.kind
    ensures Follows(w, UpdateStatus(w, key, version, body).0)
  {
    BeginFollows(w);
    FollowsTransitive(w, Begin(w), UpdateStatus(w, key, version, body).0);
  }

  /** If the version of `o` is still stored under `key`, what is stored is `o`. */
  ghost predicate Anchored(s: Store, key: Key, o: Object) {
    && o.version < s.nextVersion
    && (key in s.objects && s.objects[key].version == o.version ==> s.objects[key] == o)
  }

  lemma StaysAnchored(s: Store, t: Store, key: Key, o: Object)
    requires Anchored(s, key, o) && Later(s, t)
    ensures Anchored(t, key, o)
  {
  }

  // --- what a publication rests on ---------------------------------------------------------

  /** The access is among the entries of the log from `start` up to `end`. */
  ghost predicate Logged(log: seq<Access>, start: nat, end: nat, a: Access) {
    exists i :: start <= i < end <= |log| && log[i] == a
  }

  ghost predicate RuleRead(log: seq<Access>, start: nat, end: nat, ns: string, name: string, rule: Rule) {
    exists o: Object :: o.body == RuleBody(rule) && Logged(log, start, end, Read(RuleKey(ns, name), o))
  }

  /** The variable was read, accepts the value, and now holds it. */
  ghost predicate VariableRead(log: seq<Access>, start: nat, end: nat, ns: string, setting: ValueSetting,
                               v: VariableData) {
    exists o: Object :: Logged(log, start, end, Read(VariableKey(ns, setting.name), o)) && Holds(o, setting, v)
  }

  ghost predicate Holds(o: Object, setting: ValueSetting, v: VariableData) {
    o.body.VariableBody? && Legal(o.body.variable, setting.value) && v == o.body.variable.(value := setting.value)
  }

  /** READY was recorded on a TailoredProfile whose stored spec was still this one. */
  ghost predicate ReadyRecorded(log: seq<Access>, start: nat, end: nat, key: Key, tp: Object)
    requires tp.body.TailoredProfileBody?
  {
    exists o: Object :: Logged(log, start, end, Wrote(key, o)) && o.uid == tp.uid && o.owners == tp.owners
      && o.body.TailoredProfileBody? && o.body.spec == tp.body.spec && o.body.status.state == StateReady
  }

  /** The objects a pass has read. */
  datatype Snapshot = Snapshot(
    tp: Object, profile: Object, bundle: Object, rules: map<string, Rule>, variables: seq<VariableData>)

  ghost predicate SoundRules(log: seq<Access>, start: nat, end: nat, ns: string, names: seq<string>,
                             rules: map<string, Rule>)
  {
    && Distinct(names)
    && rules.Keys == (set n | n in names)
    && (forall n <- names :: RuleRead(log, start, end, ns, n, rules[n]))
  }

  ghost predicate SoundVariables(log: seq<Access>, start: nat, end: nat, ns: string, settings: seq<ValueSetting>,
                                 variables: seq<VariableData>)
  {
    && |variables| == |settings|
    && (forall i :: 0 <= i < |settings| ==> VariableRead(log, start, end, ns, settings[i], variables[i]))
  }

  /** The pass started from the TailoredProfile `tp`, which was owned by the Profile `p` it extends,
      which names the bundle `pb`. */
  ghost predicate SoundOrigin(log: seq<Access>, start: nat, end: nat, ns: string, name: string, tp: Object, p: Object,
                              pb: Object)
  {
    && Logged(log, start, start + 1, Read(TailoredProfileKey(ns, name), tp))
    && tp.body.TailoredProfileBody? && p.body.ProfileBody? && pb.body.ProfileBundleBody?
    && var spec := tp.body.spec;
    && spec.extended != "" && spec.outputType in {CONFIG_MAP_OUTPUT, POLICY_OUTPUT}
    && Logged(log, start, end, Read(ProfileKey(ns, spec.extended), p))
    && OwnedBy(tp.owners, p.uid)
    && BundleReference(p.owners).Some?
    && Logged(log, start, end, Read(BundleKey(ns, BundleReference(p.owners).value.name), pb))
  }

  ghost predicate IsTailoringOf(a: Access, ns: string, name: string, time: string, snap: Snapshot)
    requires snap.tp.body.TailoredProfileBody? && snap.profile.body.ProfileBody? && snap.bundle.body.ProfileBundleBody?
    requires forall n <- snap.tp.body.spec.Selected() :: n in snap.rules
  {
    var bundle := snap.bundle.body.bundleSpec;
    var out := OutputFor(ns, name, snap.tp, bundle,
      TailoringFor(name, snap.tp.body.spec, snap.profile.body.profile, bundle, snap.rules, snap.variables, time));
    a.Made? && a.key == out.key && a.made.owners == out.owners && a.made.body == out.body
  }

  /** Entries `start` to `end` of the log are what one pass did before it published `log[end]`. */
  ghost predicate Justifies(log: seq<Access>, start: nat, end: nat, ns: string, name: string, time: string,
                            snap: Snapshot)
    requires end < |log|
  {
    && SoundOrigin(log, start, end, ns, name, snap.tp, snap.profile, snap.bundle)
    && SoundRules(log, start, end, ns, snap.tp.body.spec.Selected(), snap.rules)
    && SoundVariables(log, start, end, ns, snap.tp.body.spec.setValues, snap.variables)
    && ReadyRecorded(log, start, end, TailoredProfileKey(ns, name), snap.tp)
    && IsTailoringOf(log[end], ns, name, time, snap)
  }

  // --- lookups -----------------------------------------------------------------------------

  lemma FollowsReflexive(w: World)
    ensures Follows(w, w)
  {
  }

  ghost predicate NothingMade(before: seq<Access>, log: seq<Access>) {
    before <= log && forall i :: |before| <= i < |log| ==> !log[i].Made?
  }

  lemma {:induction false} FetchRulesFollows(w: World, ns: string, names: seq<string>, rules: map<string, Rule>)
    ensures var t := FetchRules(w, ns, names, rules).0; Follows(w, t) && NothingMade(w.log, t.log)
    decreases |names|
  {
    if names == [] || names[0] in rules {
      FollowsReflexive(w);
    } else {
      GetFollows(w, RuleKey(ns, names[0]));
      var got := Get(w, RuleKey(ns, names[0]));
      if got.1.Ok? {
        var rules' := rules[names[0] := got.1.value.body.rule];
        FetchRulesFollows(got.0, ns, names[1..], rules');
        FollowsTransitive(w, got.0, FetchRules(got.0, ns, names[1..], rules').0);
      }
    }
  }

  lemma {:induction false} FetchedRulesAreDistinct(w: World, ns: string, names: seq<string>, rules: map<string, Rule>)
    requires FetchRules(w, ns, names, rules).1.Found?
    ensures var r := FetchRules(w, ns, names, rules);
      && Distinct(names)
      && (forall n <- names :: n !in rules)
      && (forall n <- rules :: r.1.value[n] == rules[n])
    decreases |names|
  {
    if names != [] {
      var got := Get(w, RuleKey(ns, names[0]));
      var rules' := rules[names[0] := got.1.value.body.rule];
      FetchedRulesAreDistinct(got.0, ns, names[1..], rules');
      assert names[0] in rules';
      assert names == [names[0]] + names[1..];
      DistinctCons(names[0], names[1..]);
    }
  }

  lemma {:induction false} FetchedRulesWereRead(w: World, ns: string, names: seq<string>, rules: map<string, Rule>,
                                                i: nat)
    requires FetchRules(w, ns, names, rules).1.Found? && i < |names|
    ensures var r := FetchRules(w, ns, names, rules);
      RuleRead(r.0.log, |w.log|, |r.0.log|, ns, names[i], r.1.value[names[i]])
    decreases |names|
  {
    GetFollows(w, RuleKey(ns, names[0]));
    var got := Get(w, RuleKey(ns, names[0]));
    var rules' := rules[names[0] := got.1.value.body.rule];
    var r := FetchRules(got.0, ns, names[1..], rules');
    FetchRulesFollows(got.0, ns, names[1..], rules');
    assert names[i] in names && (i > 0 ==> names[i] == names[1..][i - 1]);
    if i == 0 {
      FetchedRulesAreDistinct(got.0, ns, names[1..], rules');
      assert names[0] in rules' && r.1.value[names[0]] == got.1.value.body.rule;
      assert r.0.log[|w.log|] == Read(RuleKey(ns, names[0]), got.1.value);
      assert Logged(r.0.log, |w.log|, |r.0.log|, Read(RuleKey(ns, names[0]), got.1.value));
    } else {
      FetchedRulesWereRead(got.0, ns, names[1..], rules', i - 1);
      RuleReadMore(r.0.log, |got.0.log|, |r.0.log|, r.0.log, |w.log|, |r.0.log|, ns, names[i], r.1.value[names[i]]);
    }
  }

  lemma RuleReadMore(log: seq<Access>, start: nat, end: nat, log': seq<Access>, start': nat, end': nat,
                     ns: string, name: string, rule: Rule)
    requires log <= log' && start' <= start && end <= end' <= |log'| && RuleRead(log, start, end, ns, name, rule)
    ensures RuleRead(log', start', end', ns, name, rule)
  {
    var o: Object :| o.body == RuleBody(rule) && Logged(log, start, end, Read(RuleKey(ns, name), o));
    LoggedMore(log, start, end, log', start', end', Read(RuleKey(ns, name), o));
  }

  lemma {:induction false} FetchVariablesFollows(w: World, ns: string, settings: seq<ValueSetting>,
                                                 variables: seq<VariableData>)
    ensures var r := FetchVariables(w, ns, settings, variables);
      && Follows(w, r.0) && NothingMade(w.log, r.0.log)
      && (r.1.Found? ==> variables <= r.1.value && |r.1.value| == |variables| + |settings|)
    decreases |settings|
  {
    if settings == [] {
      FollowsReflexive(w);
    } else {
      GetFollows(w, VariableKey(ns, settings[0].name));
      var got := Get(w, VariableKey(ns, settings[0].name));
      if got.1.Ok? && Legal(got.1.value.body.variable, settings[0].value) {
        var variables' := variables + [AfterSet(got.1.value.body.variable, settings[0].value)];
        FetchVariablesFollows(got.0, ns, settings[1..], variables');
        FollowsTransitive(w, got.0, FetchVariables(got.0, ns, settings[1..], variables').0);
      }
    }
  }

  lemma FirstVariableWasRead(w: World, ns: string, settings: seq<ValueSetting>, variables: seq<VariableData>)
    requires FetchVariables(w, ns, settings, variables).1.Found? && settings != []
    ensures var r := FetchVariables(w, ns, settings, variables);
      && |r.1.value| == |variables| + |settings|
      && VariableRead(r.0.log, |w.log|, |r.0.log|, ns, settings[0], r.1.value[|variables|])
  {
    GetFollows(w, VariableKey(ns, settings[0].name));
    var got := Get(w, VariableKey(ns, settings[0].name));
    var variables' := variables + [AfterSet(got.1.value.body.variable, settings[0].value)];
    FetchVariablesFollows(got.0, ns, settings[1..], variables');
    var r := FetchVariables(got.0, ns, settings[1..], variables');
    assert r.0.log[|w.log|] == Read(VariableKey(ns, settings[0].name), got.1.value);
    assert r.1.value[|variables|] == variables'[|variables|];
    VariableJustRead(r.0.log, |w.log|, ns, settings[0], got.1.value);
  }

  lemma {:induction false} FetchedVariablesWereRead(w: World, ns: string, settings: seq<ValueSetting>,
                                                    variables: seq<VariableData>, i: nat)
    requires FetchVariables(w, ns, settings, variables).1.Found? && i < |settings|
    ensures var r := FetchVariables(w, ns, settings, variables);
      && |r.1.value| == |variables| + |settings|
      && VariableRead(r.0.log, |w.log|, |r.0.log|, ns, settings[i], r.1.value[|variables| + i])
    decreases |settings|
  {
    if i == 0 {
      FirstVariableWasRead(w, ns, settings, variables);
    } else {
      GetFollows(w, VariableKey(ns, settings[0].name));
      var got := Get(w, VariableKey(ns, settings[0].name));
      var variables' := variables + [AfterSet(got.1.value.body.variable, settings[0].value)];
      FetchVariablesFollows(got.0, ns, settings[1..], variables');
      var r := FetchVariables(got.0, ns, settings[1..], variables');
      FetchedVariablesWereRead(got.0, ns, settings[1..], variables', i - 1);
      assert settings[1..][i - 1] == settings[i] && |variables'| + (i - 1) == |variables| + i;
      VariableReadMore(r.0.log, |got.0.log|, |r.0.log|, r.0.log, |w.log|, |r.0.log|, ns, settings[i],
        r.1.value[|variables| + i]);
    }
  }

  lemma VariableJustRead(log: seq<Access>, start: nat, ns: string, setting: ValueSetting, o: Object)
    requires o.body.VariableBody? && Legal(o.body.variable, setting.value)
    requires start < |log| && log[start] == Read(VariableKey(ns, setting.name), o)
    ensures VariableRead(log, start, |log|, ns, setting, AfterSet(o.body.variable, setting.value))
  {
    assert Logged(log, start, |log|, Read(VariableKey(ns, setting.name), o));
  }

  lemma VariableReadMore(log: seq<Access>, start: nat, end: nat, log': seq<Access>, start': nat, end': nat,
                         ns: string, setting: ValueSetting, v: VariableData)
    requires log <= log' && start' <= start && end <= end' <= |log'| && VariableRead(log, start, end, ns, setting, v)
    ensures VariableRead(log', start', end', ns, setting, v)
  {
    var o: Object :| Logged(log, start, end, Read(VariableKey(ns, setting.name), o)) && Holds(o, setting, v);
    LoggedMore(log, start, end, log', start', end', Read(VariableKey(ns, setting.name), o));
  }

  lemma LoggedMore(log: seq<Access>, start: nat, end: nat, log': seq<Access>, start': nat, end': nat, a: Access)
    requires log <= log' && start' <= start && end <= end' <= |log'| && Logged(log, start, end, a)
    ensures Logged(log', start', end', a)
  {
  }

  // --- one pass ----------------------------------------------------------------------------

  /** From `w` to `t` everything that was made is justified by what the pass did from `start` on. */
  ghost predicate PassIsSound(start: nat, w: World, t: World, ns: string, name: string, time: string) {
    && Follows(w, t)
    && (forall i :: |w.log| <= i < |t.log| && t.log[i].Made? ==>
          exists snap :: Justifies(t.log, start, i, ns, name, time, snap))
  }

  lemma PassIsSoundAfter(start: nat, w: World, t: World, u: World, ns: string, name: string, time: string)
    requires Follows(w, t) && NothingMade(w.log, t.log) && PassIsSound(start, t, u, ns, name, time)
    ensures PassIsSound(start, w, u, ns, name, time)
  {
    FollowsTransitive(w, t, u);
    assert forall i :: |w.log| <= i < |t.log| ==> u.log[i] == t.log[i];
  }

  lemma ReportIsSound(start: nat, w: World, ns: string, name: string, tp: Object, problem: Problem, time: string)
    requires tp.body.TailoredProfileBody?
    ensures PassIsSound(start, w, ReportProblem(w, ns, name, tp, problem).0, ns, name, time)
  {
    UpdateStatusFollows(w, TailoredProfileKey(ns, name), tp.version,
      TailoredProfileBody(tp.body.spec, ErrorStatus(tp.body.status, problem)));
  }

  /** The READY write, if it is accepted, lands on the spec that was read. */
  lemma ReadyLandsOnWhatWasRead(w: World, key: Key, tp: Object, status: TailoredProfileStatus)
    requires key.kind == TailoredProfileKind && tp.body.TailoredProfileBody? && status.state == StateReady
    requires Anchored(w.store, key, tp)
    requires UpdateStatus(w, key, tp.version, TailoredProfileBody(tp.body.spec, status)).1.Ok?
    ensures var t := UpdateStatus(w, key, tp.version, TailoredProfileBody(tp.body.spec, status)).0;
      && |t.log| == |w.log| + 1 && t.log[|w.log|].Wrote?
      && ReadyRecorded(t.log, |w.log|, |t.log|, key, tp)
  {
    BeginFollows(w);
    StaysAnchored(w.store, Begin(w).store, key, tp);
    var t := UpdateStatus(w, key, tp.version, TailoredProfileBody(tp.body.spec, status)).0;
    assert t.log[|w.log|] == Wrote(key, t.store.objects[key]);
    assert Logged(t.log, |w.log|, |t.log|, Wrote(key, t.store.objects[key]));
  }

  lemma EnsureOutputFollows(w: World, ns: string, name: string, tp: Object, out: Output)
    requires tp.body.TailoredProfileBody? && out.body.BodyKind() == out.key.kind
    ensures Follows(w, EnsureOutput(w, ns, name, tp, out).0)
  {
    GetFollows(w, out.key);
    var found := Get(w, out.key);
    if found.1 == Err(NotFound) {
      var body := TailoredProfileBody(tp.body.spec, ReadyStatus(tp.body.status, name, out.ref));
      var ready := UpdateStatus(found.0, TailoredProfileKey(ns, name), tp.version, body);
      UpdateStatusFollows(found.0, TailoredProfileKey(ns, name), tp.version, body);
      FollowsTransitive(w, found.0, ready.0);
      if ready.1.Ok? {
        CreateFollows(ready.0, out.key, out.owners, out.body);
        FollowsTransitive(w, ready.0, Create(ready.0, out.key, out.owners, out.body).0);
      }
    }
  }

  ghost predicate IsCreationOf(log: seq<Access>, last: nat, out: Output) {
    && |log| == last + 1 && log[last].Made? && log[last].key == out.key
    && log[last].made.owners == out.owners && log[last].made.body == out.body
  }

  /** From `before` on the log has nothing made, or first a READY that landed on the spec that was read and
      then, last, the creation of the output. */
  ghost predicate CreatedLast(before: seq<Access>, log: seq<Access>, key: Key, tp: Object, out: Output)
    requires tp.body.TailoredProfileBody?
  {
    NothingMade(before, log) || (
      && before <= log && IsCreationOf(log, |before| + 1, out) && log[|before|].Wrote?
      && ReadyRecorded(log[..|before| + 1], |before|, |before| + 1, key, tp))
  }

  lemma OutputComesAfterReady(w: World, ns: string, name: string, tp: Object, out: Output)
    requires tp.body.TailoredProfileBody? && out.body.BodyKind() == out.key.kind
    requires Anchored(w.store, TailoredProfileKey(ns, name), tp)
    ensures CreatedLast(w.log, EnsureOutput(w, ns, name, tp, out).0.log, TailoredProfileKey(ns, name), tp, out)
  {
    var key := TailoredProfileKey(ns, name);
    var found := Get(w, out.key);
    if found.1 == Err(NotFound) {
      BeginIsLater(w);
      StaysAnchored(w.store, found.0.store, key, tp);
      ReadyThenCreation(found.0, key, tp, ReadyStatus(tp.body.status, name, out.ref), out);
    }
  }

  lemma ReadyThenCreation(w: World, key: Key, tp: Object, status: TailoredProfileStatus, out: Output)
    requires key.kind == TailoredProfileKind && tp.body.TailoredProfileBody? && status.state == StateReady
    requires out.body.BodyKind() == out.key.kind && Anchored(w.store, key, tp)
    ensures var ready := UpdateStatus(w, key, tp.version, TailoredProfileBody(tp.body.spec, status));
      && CreatedLast(w.log, ready.0.log, key, tp, out)
      && (ready.1.Ok? ==>
            CreatedLast(w.log, Create(ready.0, out.key, out.owners, out.body).0.log, key, tp, out))
  {
    var ready := UpdateStatus(w, key, tp.version, TailoredProfileBody(tp.body.spec, status));
    CreateAfterReady(w, key, tp, status, out);
    if ready.1.Ok? {
      var t := Create(ready.0, out.key, out.owners, out.body).0;
      assert t.log[..|w.log| + 1] == ready.0.log;
    }
  }

  lemma CreateAfterReady(w: World, key: Key, tp: Object, status: TailoredProfileStatus, out: Output)
    requires key.kind == TailoredProfileKind && tp.body.TailoredProfileBody? && status.state == StateReady
    requires out.body.BodyKind() == out.key.kind && Anchored(w.store, key, tp)
    ensures var ready := UpdateStatus(w, key, tp.version, TailoredProfileBody(tp.body.spec, status));
      && NothingMade(w.log, ready.0.log)
      && (ready.1.Ok? ==>
            && |ready.0.log| == |w.log| + 1 && ready.0.log[|w.log|].Wrote?
            && ReadyRecorded(ready.0.log, |w.log|, |ready.0.log|, key, tp)
            && var t := Create(ready.0, out.key, out.owners, out.body).0;
               ready.0.log <= t.log && (t.log == ready.0.log || IsCreationOf(t.log, |w.log| + 1, out)))
  {
    var ready := UpdateStatus(w, key, tp.version, TailoredProfileBody(tp.body.spec, status));
    if ready.1.Ok? {
      ReadyLandsOnWhatWasRead(w, key, tp, status);
      CreationIsLogged(ready.0, out);
    }
  }

  lemma CreationIsLogged(w: World, out: Output)
    requires out.body.BodyKind() == out.key.kind
    ensures var t := Create(w, out.key, out.owners, out.body).0;
      w.log <= t.log && (t.log == w.log || IsCreationOf(t.log, |w.log|, out))
  {
  }

  lemma ReadyStays(log: seq<Access>, start: nat, end: nat, log': seq<Access>, start': nat, key: Key, tp: Object)
    requires tp.body.TailoredProfileBody? && log <= log' && end <= |log| && start' <= start
    requires ReadyRecorded(log, start, end, key, tp)
    ensures ReadyRecorded(log', start', end, key, tp)
  {
    var o: Object :| Logged(log, start, end, Wrote(key, o)) && o.uid == tp.uid && o.owners == tp.owners
      && o.body.TailoredProfileBody? && o.body.spec == tp.body.spec && o.body.status.state == StateReady;
    LoggedMore(log, start, end, log', start', end, Wrote(key, o));
  }

  lemma OriginStays(log: seq<Access>, start: nat, end: nat, log': seq<Access>, end': nat, ns: string, name: string,
                    tp: Object, p: Object, pb: Object)
    requires log <= log' && end <= end' <= |log'| && SoundOrigin(log, start, end, ns, name, tp, p, pb)
    ensures SoundOrigin(log', start, end', ns, name, tp, p, pb)
  {
  }

  /** With everything read, publishing is sound. */
  lemma PublishingIsSound(start: nat, w: World, ns: string, name: string, snap: Snapshot, time: string)
    requires SoundOrigin(w.log, start, |w.log|, ns, name, snap.tp, snap.profile, snap.bundle)
    requires SoundRules(w.log, start, |w.log|, ns, snap.tp.body.spec.Selected(), snap.rules)
    requires SoundVariables(w.log, start, |w.log|, ns, snap.tp.body.spec.setValues, snap.variables)
    requires Anchored(w.store, TailoredProfileKey(ns, name), snap.tp)
    ensures var bundle := snap.bundle.body.bundleSpec;
      var out := OutputFor(ns, name, snap.tp, bundle,
        TailoringFor(name, snap.tp.body.spec, snap.profile.body.profile, bundle, snap.rules, snap.variables, time));
      PassIsSound(start, w, EnsureOutput(w, ns, name, snap.tp, out).0, ns, name, time)
  {
    var bundle := snap.bundle.body.bundleSpec;
    var out := OutputFor(ns, name, snap.tp, bundle,
      TailoringFor(name, snap.tp.body.spec, snap.profile.body.profile, bundle, snap.rules, snap.variables, time));
    EnsureOutputFollows(w, ns, name, snap.tp, out);
    OutputComesAfterReady(w, ns, name, snap.tp, out);
    Conclude(start, w, EnsureOutput(w, ns, name, snap.tp, out).0, ns, name, snap, out, time);
  }

  lemma Conclude(start: nat, w: World, t: World, ns: string, name: string, snap: Snapshot, out: Output, time: string)
    requires SoundOrigin(w.log, start, |w.log|, ns, name, snap.tp, snap.profile, snap.bundle)
    requires SoundRules(w.log, start, |w.log|, ns, snap.tp.body.spec.Selected(), snap.rules)
    requires SoundVariables(w.log, start, |w.log|, ns, snap.tp.body.spec.setValues, snap.variables)
    requires out == OutputFor(ns, name, snap.tp, snap.bundle.body.bundleSpec,
      TailoringFor(name, snap.tp.body.spec, snap.profile.body.profile, snap.bundle.body.bundleSpec, snap.rules,
        snap.variables, time))
    requires Follows(w, t)
    requires NothingMade(w.log, t.log) || (
      && IsCreationOf(t.log, |w.log| + 1, out) && t.log[|w.log|].Wrote?
      && ReadyRecorded(t.log[..|w.log| + 1], |w.log|, |w.log| + 1, TailoredProfileKey(ns, name), snap.tp))
    ensures PassIsSound(start, w, t, ns, name, time)
  {
    if !NothingMade(w.log, t.log) {
      assert Logged(w.log, start, start + 1, Read(TailoredProfileKey(ns, name), snap.tp));
      Collect(start, w.log, t.log, ns, name, snap, out, time);
    }
  }

  lemma Collect(start: nat, log: seq<Access>, log': seq<Access>, ns: string, name: string, snap: Snapshot, out: Output,
                time: string)
    requires SoundOrigin(log, start, |log|, ns, name, snap.tp, snap.profile, snap.bundle)
    requires SoundRules(log, start, |log|, ns, snap.tp.body.spec.Selected(), snap.rules)
    requires SoundVariables(log, start, |log|, ns, snap.tp.body.spec.setValues, snap.variables)
    requires log <= log' && IsCreationOf(log', |log| + 1, out) && start <= |log|
    requires ReadyRecorded(log'[..|log| + 1], |log|, |log| + 1, TailoredProfileKey(ns, name), snap.tp)
    requires out == OutputFor(ns, name, snap.tp, snap.bundle.body.bundleSpec,
      TailoringFor(name, snap.tp.body.spec, snap.profile.body.profile, snap.bundle.body.bundleSpec, snap.rules,
        snap.variables, time))
    ensures Justifies(log', start, |log| + 1, ns, name, time, snap)
  {
    var last := |log| + 1;
    OriginStays(log, start, |log|, log', last, ns, name, snap.tp, snap.profile, snap.bundle);
    ReadyStays(log'[..last], |log|, last, log', start, TailoredProfileKey(ns, name), snap.tp);
    SelectionsStay(log, start, log', last, ns, snap);
  }

  lemma RulesStay(log: seq<Access>, start: nat, log': seq<Access>, end': nat, ns: string, names: seq<string>,
                  rules: map<string, Rule>)
    requires log <= log' && |log| <= end' <= |log'| && SoundRules(log, start, |log|, ns, names, rules)
    ensures SoundRules(log', start, end', ns, names, rules)
  {
    forall n <- names ensures RuleRead(log', start, end', ns, n, rules[n]) {
      RuleReadMore(log, start, |log|, log', start, end', ns, n, rules[n]);
    }
  }

  lemma SelectionsStay(log: seq<Access>, start: nat, log': seq<Access>, end': nat, ns: string, snap: Snapshot)
    requires log <= log' && |log| <= end' <= |log'| && snap.tp.body.TailoredProfileBody?
    requires SoundRules(log, start, |log|, ns, snap.tp.body.spec.Selected(), snap.rules)
    requires SoundVariables(log, start, |log|, ns, snap.tp.body.spec.setValues, snap.variables)
    ensures SoundRules(log', start, end', ns, snap.tp.body.spec.Selected(), snap.rules)
    ensures SoundVariables(log', start, end', ns, snap.tp.body.spec.setValues, snap.variables)
  {
    RulesStay(log, start, log', end', ns, snap.tp.body.spec.Selected(), snap.rules);
    var settings := snap.tp.body.spec.setValues;
    forall i | 0 <= i < |settings| ensures VariableRead(log', start, end', ns, settings[i], snap.variables[i]) {
      VariableReadMore(log, start, |log|, log', start, end', ns, settings[i], snap.variables[i]);
    }
  }

  lemma SelectionsAreSound(start: nat, w: World, ns: string, name: string, tp: Object, p: Object, pb: Object,
                           time: string)
    requires SoundOrigin(w.log, start, |w.log|, ns, name, tp, p, pb)
    requires Anchored(w.store, TailoredProfileKey(ns, name), tp) && start <= |w.log|
    ensures PassIsSound(start, w, ReconcileSelections(w, ns, name, tp, p, pb, time).0, ns, name, time)
  {
    var spec := tp.body.spec;
    var rules := FetchRules(w, ns, spec.Selected(), map[]);
    FetchRulesFollows(w, ns, spec.Selected(), map[]);
    if rules.1.Broken? {
      ReportIsSound(start, rules.0, ns, name, tp, rules.1.problem, time);
      PassIsSoundAfter(start, w, rules.0, ReconcileSelections(w, ns, name, tp, p, pb, time).0, ns, name, time);
    } else if rules.1.Found? {
      RulesAreSound(start, w, ns, spec.Selected());
      StaysAnchored(w.store, rules.0.store, TailoredProfileKey(ns, name), tp);
      var variables := FetchVariables(rules.0, ns, spec.setValues, []);
      FetchVariablesFollows(rules.0, ns, spec.setValues, []);
      if variables.1.Broken? {
        ReportIsSound(start, variables.0, ns, name, tp, variables.1.problem, time);
      } else if variables.1.Found? {
        var snap := Snapshot(tp, p, pb, rules.1.value, variables.1.value);
        LookupsAreSound(start, w, ns, name, snap);
        PublishingIsSound(start, variables.0, ns, name, snap, time);
      }
      PassIsSoundAfter(start, rules.0, variables.0, ReconcileSelections(w, ns, name, tp, p, pb, time).0, ns, name,
        time);
      PassIsSoundAfter(start, w, rules.0, ReconcileSelections(w, ns, name, tp, p, pb, time).0, ns, name, time);
    }
  }

  lemma RulesAreSound(start: nat, w: World, ns: string, names: seq<string>)
    requires FetchRules(w, ns, names, map[]).1.Found? && start <= |w.log|
    ensures var r := FetchRules(w, ns, names, map[]);
      SoundRules(r.0.log, start, |r.0.log|, ns, names, r.1.value)
  {
    var r := FetchRules(w, ns, names, map[]);
    FetchedRulesAreDistinct(w, ns, names, map[]);
    forall n <- names ensures RuleRead(r.0.log, start, |r.0.log|, ns, n, r.1.value[n]) {
      var i :| 0 <= i < |names| && names[i] == n;
      FetchedRulesWereRead(w, ns, names, map[], i);
      RuleReadMore(r.0.log, |w.log|, |r.0.log|, r.0.log, start, |r.0.log|, ns, n, r.1.value[n]);
    }
  }

  lemma VariablesAreSound(start: nat, w: World, ns: string, settings: seq<ValueSetting>)
    requires FetchVariables(w, ns, settings, []).1.Found? && start <= |w.log|
    ensures var r := FetchVariables(w, ns, settings, []);
      SoundVariables(r.0.log, start, |r.0.log|, ns, settings, r.1.value)
  {
    var r := FetchVariables(w, ns, settings, []);
    FetchVariablesFollows(w, ns, settings, []);
    forall i | 0 <= i < |settings| ensures VariableRead(r.0.log, start, |r.0.log|, ns, settings[i], r.1.value[i]) {
      FetchedVariablesWereRead(w, ns, settings, [], i);
      VariableReadMore(r.0.log, |w.log|, |r.0.log|, r.0.log, start, |r.0.log|, ns, settings[i], r.1.value[i]);
    }
  }

  /** After both lookups everything read is on record in the final log. */
  lemma LookupsAreSound(start: nat, w: World, ns: string, name: string, snap: Snapshot)
    requires SoundOrigin(w.log, start, |w.log|, ns, name, snap.tp, snap.profile, snap.bundle) && start <= |w.log|
    requires Anchored(w.store, TailoredProfileKey(ns, name), snap.tp)
    requires FetchRules(w, ns, snap.tp.body.spec.Selected(), map[]).1 == Found(snap.rules)
    requires FetchVariables(
        FetchRules(w, ns, snap.tp.body.spec.Selected(), map[]).0, ns, snap.tp.body.spec.setValues, []).1
      == Found(snap.variables)
    ensures var found := FetchRules(w, ns, snap.tp.body.spec.Selected(), map[]).0;
      var t := FetchVariables(found, ns, snap.tp.body.spec.setValues, []).0;
      && SoundOrigin(t.log, start, |t.log|, ns, name, snap.tp, snap.profile, snap.bundle)
      && SoundRules(t.log, start, |t.log|, ns, snap.tp.body.spec.Selected(), snap.rules)
      && SoundVariables(t.log, start, |t.log|, ns, snap.tp.body.spec.setValues, snap.variables)
      && Anchored(t.store, TailoredProfileKey(ns, name), snap.tp)
  {
    var spec := snap.tp.body.spec;
    var rules := FetchRules(w, ns, spec.Selected(), map[]);
    var t := FetchVariables(rules.0, ns, spec.setValues, []).0;
    FetchRulesFollows(w, ns, spec.Selected(), map[]);
    FetchVariablesFollows(rules.0, ns, spec.setValues, []);
    StaysAnchored(w.store, rules.0.store, TailoredProfileKey(ns, name), snap.tp);
    StaysAnchored(rules.0.store, t.store, TailoredProfileKey(ns, name), snap.tp);
    RulesAreSound(start, w, ns, spec.Selected());
    VariablesAreSound(start, rules.0, ns, spec.setValues);
    OriginStays(w.log, start, |w.log|, rules.0.log, |rules.0.log|, ns, name, snap.tp, snap.profile, snap.bundle);
    OriginStays(rules.0.log, start, |rules.0.log|, t.log, |t.log|, ns, name, snap.tp, snap.profile, snap.bundle);
    RulesStay(rules.0.log, start, t.log, |t.log|, ns, spec.Selected(), snap.rules);
  }

  lemma OwnedIsSound(start: nat, w: World, ns: string, name: string, tp: Object, p: Object, time: string)
    requires tp.body.TailoredProfileBody? && p.body.ProfileBody? && start < |w.log|
    requires tp.body.spec.extended != "" && tp.body.spec.outputType in {CONFIG_MAP_OUTPUT, POLICY_OUTPUT}
    requires Logged(w.log, start, start + 1, Read(TailoredProfileKey(ns, name), tp))
    requires Logged(w.log, start, |w.log|, Read(ProfileKey(ns, tp.body.spec.extended), p))
    requires OwnedBy(tp.owners, p.uid) && Anchored(w.store, TailoredProfileKey(ns, name), tp)
    ensures PassIsSound(start, w, ReconcileOwned(w, ns, name, tp, p, time).0, ns, name, time)
  {
    var ref := BundleReference(p.owners);
    if ref.None? {
      FollowsReflexive(w);
    } else {
      GetFollows(w, BundleKey(ns, ref.value.name));
      var got := Get(w, BundleKey(ns, ref.value.name));
      if got.1.Ok? {
        StaysAnchored(w.store, got.0.store, TailoredProfileKey(ns, name), tp);
        assert got.0.log[|w.log|] == Read(BundleKey(ns, ref.value.name), got.1.value);
        SelectionsAreSound(start, got.0, ns, name, tp, p, got.1.value, time);
        PassIsSoundAfter(start, w, got.0, ReconcileOwned(w, ns, name, tp, p, time).0, ns, name, time);
      }
    }
  }

  lemma ProfileIsSound(start: nat, w: World, ns: string, name: string, tp: Object, time: string)
    requires tp.body.TailoredProfileBody? && start < |w.log|
    requires tp.body.spec.extended != "" && tp.body.spec.outputType in {CONFIG_MAP_OUTPUT, POLICY_OUTPUT}
    requires Logged(w.log, start, start + 1, Read(TailoredProfileKey(ns, name), tp))
    requires Anchored(w.store, TailoredProfileKey(ns, name), tp)
    ensures PassIsSound(start, w, ReconcileProfile(w, ns, name, tp, time).0, ns, name, time)
  {
    var key := ProfileKey(ns, tp.body.spec.extended);
    GetFollows(w, key);
    var got := Get(w, key);
    if got.1.Ok? {
      StaysAnchored(w.store, got.0.store, TailoredProfileKey(ns, name), tp);
      assert got.0.log[|w.log|] == Read(key, got.1.value);
      if OwnedBy(tp.owners, got.1.value.uid) {
        OwnedIsSound(start, got.0, ns, name, tp, got.1.value, time);
      } else {
        WriteIsSound(start, got.0, ns, name, tp,
          Upsert(tp.owners, OwnerOf("Profile", tp.body.spec.extended, got.1.value.uid, false)), tp.body, time);
      }
    } else {
      ReportIsSound(start, got.0, ns, name, tp, ProfileMissing(tp.body.spec.extended), time);
    }
    PassIsSoundAfter(start, w, got.0, ReconcileProfile(w, ns, name, tp, time).0, ns, name, time);
  }

  lemma WriteIsSound(start: nat, w: World, ns: string, name: string, tp: Object, owners: seq<OwnerRef>, body: Body,
                     time: string)
    requires body.TailoredProfileBody?
    ensures PassIsSound(start, w, Update(w, TailoredProfileKey(ns, name), tp.version, owners, body).0, ns, name, time)
  {
    UpdateFollows(w, TailoredProfileKey(ns, name), tp.version, owners, body);
  }

  lemma InstanceIsSound(start: nat, w: World, ns: string, name: string, tp: Object, time: string)
    requires tp.body.TailoredProfileBody? && start < |w.log|
    requires Logged(w.log, start, start + 1, Read(TailoredProfileKey(ns, name), tp))
    requires Anchored(w.store, TailoredProfileKey(ns, name), tp)
    ensures PassIsSound(start, w, ReconcileInstance(w, ns, name, tp, time).0, ns, name, time)
  {
    var spec := tp.body.spec;
    if spec.extended == "" {
      ReportIsSound(start, w, ns, name, tp, ExtendsEmpty, time);
    } else if spec.outputType in {CONFIG_MAP_OUTPUT, POLICY_OUTPUT} {
      ProfileIsSound(start, w, ns, name, tp, time);
    } else if spec.outputType == "" {
      WriteIsSound(start, w, ns, name, tp, tp.owners,
        TailoredProfileBody(spec.(outputType := CONFIG_MAP_OUTPUT), tp.body.status), time);
    } else {
      ReportIsSound(start, w, ns, name, tp, OutputTypeInvalid, time);
    }
  }

  /** Whatever other writers and failures do in between, whatever one pass publishes is justified by
      what that very pass read and wrote. */
  lemma EveryPassIsSound(w: World, ns: string, name: string, time: string)
    ensures PassIsSound(|w.log|, w, Reconcile(w, ns, name, time).0, ns, name, time)
  {
    var key := TailoredProfileKey(ns, name);
    GetFollows(w, key);
    var got := Get(w, key);
    if got.1.Ok? {
      assert got.0.log[|w.log|] == Read(key, got.1.value);
      InstanceIsSound(|w.log|, got.0, ns, name, got.1.value, time);
      PassIsSoundAfter(|w.log|, w, got.0, Reconcile(w, ns, name, time).0, ns, name, time);
    }
  }

  // --- every run ---------------------------------------------------------------------------

  datatype Request = Request(ns: string, name: string, time: string)

  function Run(w: World, requests: seq<Request>): World
    decreases |requests|
  {
    if requests == [] then w
    else Run(Reconcile(w, requests[0].ns, requests[0].name, requests[0].time).0, requests[1..])
  }

  ghost predicate JustifiedBy(log: seq<Access>, i: nat, requests: seq<Request>)
    requires i < |log|
  {
    exists r, start: nat, snap :: r in requests && Justifies(log, start, i, r.ns, r.name, r.time, snap)
  }

  lemma JustificationStays(log: seq<Access>, log': seq<Access>, start: nat, i: nat, r: Request, snap: Snapshot)
    requires log <= log' && i < |log| && Justifies(log, start, i, r.ns, r.name, r.time, snap)
    ensures Justifies(log', start, i, r.ns, r.name, r.time, snap)
  {
    var upTo := log[..i];
    OriginStays(log, start, i, log', i, r.ns, r.name, snap.tp, snap.profile, snap.bundle);
    ReadyStays(log, start, i, log', start, TailoredProfileKey(r.ns, r.name), snap.tp);
    forall n <- snap.tp.body.spec.Selected() ensures RuleRead(log', start, i, r.ns, n, snap.rules[n]) {
      RuleReadMore(log, start, i, log', start, i, r.ns, n, snap.rules[n]);
    }
    var settings := snap.tp.body.spec.setValues;
    forall k | 0 <= k < |settings| ensures VariableRead(log', start, i, r.ns, settings[k], snap.variables[k]) {
      VariableReadMore(log, start, i, log', start, i, r.ns, settings[k], snap.variables[k]);
    }
  }

  /** In every run, everything that is ever published is the tailoring of a TailoredProfile as it was
      read in that pass: its selected rules are pairwise distinct and were all there, every value it
      sets was accepted, and READY was recorded while that spec was still stored. */
  lemma {:induction false} EverythingPublishedIsJustified(w: World, requests: seq<Request>, i: nat)
    requires |w.log| <= i < |Run(w, requests).log| && Run(w, requests).log[i].Made?
    ensures Follows(w, Run(w, requests))
    ensures JustifiedBy(Run(w, requests).log, i, requests)
    decreases |requests|
  {
    var r := requests[0];
    EveryPassIsSound(w, r.ns, r.name, r.time);
    var t := Reconcile(w, r.ns, r.name, r.time).0;
    RunFollows(t, requests[1..]);
    var u := Run(t, requests[1..]);
    FollowsTransitive(w, t, u);
    if i < |t.log| {
      assert t.log[i] == u.log[i];
      var snap :| Justifies(t.log, |w.log|, i, r.ns, r.name, r.time, snap);
      JustificationStays(t.log, u.log, |w.log|, i, r, snap);
    } else {
      EverythingPublishedIsJustified(t, requests[1..], i);
      var r', start: nat, snap :| r' in requests[1..] && Justifies(u.log, start, i, r'.ns, r'.name, r'.time, snap);
      assert r' in requests;
    }
  }

  lemma {:induction false} RunFollows(w: World, requests: seq<Request>)
    ensures Follows(w, Run(w, requests))
    decreases |requests|
  {
    if requests == [] {
      FollowsReflexive(w);
    } else {
      var r := requests[0];
      EveryPassIsSound(w, r.ns, r.name, r.time);
      var t := Reconcile(w, r.ns, r.name, r.time).0;
      RunFollows(t, requests[1..]);
      FollowsTransitive(w, t, Run(t, requests[1..]));
    }
  }
}
