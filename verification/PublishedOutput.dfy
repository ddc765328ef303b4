/** What a published output holds, field by field and in the terms of the stored objects; and that an imported
    Profile leads to its bundle, so that a TailoredProfile extending it is published at all. */
module PublishedOutput {
  import opened ApiTypes
  import opened ApiStore
  import opened Text
  import opened Xccdf
  import opened Variables
  import opened Datastream
  import opened Import
  import opened ImportRestart
  import opened ImportedObjects
  import opened TailoredProfileReconcile
  import opened TailoredProfileConvergence
  import opened TailoredProfileOutcomes
  import opened EndToEnd
  import Publication = TailoredProfilePublication

  // --- the tailoring -------------------------------------------------------------------------------

  /** The optional element is there exactly when the spec has a text for it, and then holds that text. */
  ghost predicate Carries(element: Option<string>, text: string) {
    if text == "" then element.None? else element == Some(text)
  }

  /** Everything about the tailoring of a TailoredProfile but its select and set-value elements. */
  ghost predicate Heads(t: Tailoring, name: string, spec: TailoredProfileSpec, profile: Profile, contentFile: string,
                        time: string)
  {
    && t.id == "xccdf_compliance.openshift.io_tailoring_" + name && t.time == time
    && t.href == "/" + Join(CleanParts(["content"] + Split(contentFile, '/')), '/')
    && t.profileId == "xccdf_compliance.openshift.io_profile_" + name && t.extended == profile.id
    && Carries(t.title, spec.title) && Carries(t.description, spec.description)
  }

  lemma TailoringHasHead(name: string, spec: TailoredProfileSpec, profile: Profile, bundle: BundleSpec,
                         rules: map<string, Rule>, variables: seq<VariableData>, time: string)
    requires forall n <- spec.Selected() :: n in rules
    ensures Heads(TailoringFor(name, spec, profile, bundle, rules, variables, time), name, spec, profile,
              bundle.contentFile, time)
  {
    IdsAreLiteral(name);
    HrefIsCleaned(bundle.contentFile);
  }

  lemma IdsAreLiteral(name: string)
    ensures XccdfProfileID(name) == "xccdf_compliance.openshift.io_profile_" + name
    ensures TailoringID(name) == "xccdf_compliance.openshift.io_tailoring_" + name
  {
    ProfilePrefixIsLiteral();
    TailoringPrefixIsLiteral();
  }

  lemma ProfilePrefixIsLiteral()
    ensures "xccdf_" + XCCDF_NAMESPACE + "_profile_" == "xccdf_compliance.openshift.io_profile_"
  {
  }

  lemma TailoringPrefixIsLiteral()
    ensures "xccdf_" + XCCDF_NAMESPACE + "_tailoring_" == "xccdf_compliance.openshift.io_tailoring_"
  {
  }

  lemma HrefIsCleaned(contentFile: string)
    ensures BenchmarkHref(contentFile) == "/" + Join(CleanParts(["content"] + Split(contentFile, '/')), '/')
  {
    SplitPrefixed("content", contentFile, '/');
    assert "content" + ['/'] + contentFile == "content/" + contentFile;
  }

  /** Setting by setting, the set-value elements carry the ID of the Variable object and the value set. */
  ghost predicate CarriesValues(s: Store, ns: string, settings: seq<ValueSetting>, values: seq<SetValue>) {
    && |values| == |settings|
    && forall i :: 0 <= i < |settings| ==>
         var key := Key(VariableKind, ns, settings[i].name);
         key in s.objects && values[i] == SetValue(s.objects[key].body.variable.id, settings[i].value)
  }

  lemma {:induction false} FoundVariablesAreStored(s: Store, ns: string, done: seq<ValueSetting>,
                                                   settings: seq<ValueSetting>, variables: seq<VariableData>)
    requires CarriesValues(s, ns, done, SetValues(variables)) && FindVariables(s, ns, settings, variables).Found?
    ensures CarriesValues(s, ns, done + settings, SetValues(FindVariables(s, ns, settings, variables).value))
    decreases |settings|
  {
    if settings == [] {
      assert done + settings == done;
    } else {
      var v := s.objects[VariableKey(ns, settings[0].name)].body.variable;
      assert done + [settings[0]] + settings[1..] == done + settings;
      FoundVariablesAreStored(s, ns, done + [settings[0]], settings[1..], variables + [AfterSet(v, settings[0].value)]);
    }
  }

  // --- the object ----------------------------------------------------------------------------------

  /** An output of a TailoredProfile of this name and uid: a ConfigMap that it controls, or a Policy without
      owners, which embeds the ConfigMap and scans the bundle's content with the tailored profile. */
  ghost predicate IsOutput(key: Key, owners: seq<OwnerRef>, body: Body, ns: string, name: string, uid: nat,
                           outputType: string, bundle: BundleSpec, tailoring: Tailoring)
  {
    if outputType == "ConfigMap" then
      && key == Key(ConfigMapKind, ns, name + "-tp") && body == ConfigMapBody(tailoring)
      && owners == [OwnerRef("compliance.openshift.io", "v1alpha1", "TailoredProfile", name, uid, true)]
    else
      && outputType == "Policy"
      && key == Key(PolicyKind, ns, name) && owners == []
      && body == PolicyBody(Policy(name + "-tp", tailoring, "xccdf_compliance.openshift.io_profile_" + name,
           bundle.contentFile, bundle.contentImage, name + "-tp"))
  }

  lemma OutputIsOutput(ns: string, name: string, tp: Object, bundle: BundleSpec, tailoring: Tailoring)
    requires tp.body.TailoredProfileBody? && KnownOutput(tp.body.spec.outputType)
    ensures var out := OutputFor(ns, name, tp, bundle, tailoring);
      IsOutput(out.key, out.owners, out.body, ns, name, tp.uid, tp.body.spec.outputType, bundle, tailoring)
  {
    OutputTypesAreApart();
    IdsAreLiteral(name);
  }

  lemma OutputTypesAreApart()
    ensures CONFIG_MAP_OUTPUT != POLICY_OUTPUT
  {
    assert CONFIG_MAP_OUTPUT[0] == 'C' && POLICY_OUTPUT[0] == 'P';
  }

  /** Whatever has been published, in any run, is such an output, made of what its pass has read. */
  lemma PublishedIsOutput(log: seq<Access>, start: nat, end: nat, ns: string, name: string, time: string,
                          snap: Publication.Snapshot) returns (tailoring: Tailoring)
    requires end < |log| && Publication.Justifies(log, start, end, ns, name, time, snap)
    ensures log[end].Made?
    ensures var spec, bundle, a := snap.tp.body.spec, snap.bundle.body.bundleSpec, log[end];
      && Heads(tailoring, name, spec, snap.profile.body.profile, bundle.contentFile, time)
      && IsOutput(a.key, a.made.owners, a.made.body, ns, name, snap.tp.uid, spec.outputType, bundle, tailoring)
  {
    var spec, bundle := snap.tp.body.spec, snap.bundle.body.bundleSpec;
    tailoring := TailoringFor(name, spec, snap.profile.body.profile, bundle, snap.rules, snap.variables, time);
    TailoringHasHead(name, spec, snap.profile.body.profile, bundle, snap.rules, snap.variables, time);
    OutputIsOutput(ns, name, snap.tp, bundle, tailoring);
  }

  // --- what a publishing pass leaves ---------------------------------------------------------------

  /** The stored Profile that a spec extends, and the stored bundle of that Profile. */
  ghost predicate BasedOn(s: Store, ns: string, spec: TailoredProfileSpec, profile: Profile, bundle: BundleSpec) {
    var key := Key(ProfileKind, ns, spec.extended);
    && key in s.objects && s.objects[key].body == ProfileBody(profile)
    && BundleOf(s, ns, s.objects[key]) == Some(bundle)
  }

  /** From `before` to `after` the TailoredProfile has got READY, with the ID of the tailored profile, the name of
      the ConfigMap, and the message it had. */
  ghost predicate BecomesReady(before: Object, after: Object, ns: string, name: string) {
    && before.body.TailoredProfileBody? && after.uid == before.uid && after.owners == before.owners
    && after.body == TailoredProfileBody(before.body.spec,
         TailoredProfileStatus("xccdf_compliance.openshift.io_profile_" + name,
           OutputRef(name + "-tp", if before.body.spec.outputType == "ConfigMap" then ns else ""), StateReady,
           before.body.status.problem))
  }

  lemma ReadyStatusIsReady(before: Object, after: Object, ns: string, name: string)
    requires before.body.TailoredProfileBody? && after.uid == before.uid && after.owners == before.owners
    requires after.body == TailoredProfileBody(before.body.spec,
      ReadyStatus(before.body.status, name, RefFor(ns, name, before.body.spec.outputType)))
    ensures BecomesReady(before, after, ns, name)
  {
    IdsAreLiteral(name);
  }

  /** The output asked for has been added, and the TailoredProfile has become READY; nothing else is new. */
  ghost predicate HasPublished(s: Store, t: Store, ns: string, name: string, bundle: BundleSpec, output: Key,
                               tailoring: Tailoring)
  {
    var key := Key(TailoredProfileKind, ns, name);
    && key in s.objects && output !in s.objects && OnlyChanges(s, t, {key, output})
    && BecomesReady(s.objects[key], t.objects[key], ns, name)
    && IsOutput(output, t.objects[output].owners, t.objects[output].body, ns, name, s.objects[key].uid,
         s.objects[key].body.spec.outputType, bundle, tailoring)
  }

  /** What acting on a verdict to publish does to the store. */
  lemma FullVerdictAdds(s: Store, ns: string, name: string, v: Verdict, time: string, out: Output)
    requires TailoredProfileKey(ns, name) in s.objects && v.Publish?
    requires var tp := s.objects[TailoredProfileKey(ns, name)];
      && (forall n <- tp.body.spec.Selected() :: n in v.rules) && KnownOutput(tp.body.spec.outputType)
      && out == OutputOf(ns, name, tp, v, time) && out.key !in s.objects
    ensures var key, t := TailoredProfileKey(ns, name), FullVerdict(s, ns, name, v, time);
      var before := s.objects[key];
      && OnlyChanges(s, t, {key, out.key})
      && t.objects[key].uid == before.uid && t.objects[key].owners == before.owners
      && t.objects[key].body == TailoredProfileBody(before.body.spec,
           ReadyStatus(before.body.status, name, RefFor(ns, name, before.body.spec.outputType)))
      && t.objects[out.key].owners == out.owners && t.objects[out.key].body == out.body
  {
  }

  lemma EffectHasPublished(s: Store, ns: string, name: string, spec: TailoredProfileSpec, time: string, out: Output,
                           bundle: BundleSpec, tailoring: Tailoring)
    requires Publishable(s, ns, name) && HasSpec(s, ns, name, spec)
    requires var tp := s.objects[TailoredProfileKey(ns, name)];
      && out == OutputOf(ns, name, tp, VerdictOn(s, ns, spec), time)
      && out == OutputFor(ns, name, tp, bundle, tailoring)
    ensures HasPublished(s, Effect(s, ns, name, time), ns, name, bundle, out.key, tailoring)
  {
    PublishableHasKnownOutput(s, ns, name);
    var key, t := TailoredProfileKey(ns, name), Effect(s, ns, name, time);
    FullVerdictAdds(s, ns, name, VerdictOn(s, ns, spec), time, out);
    OutputIsOutput(ns, name, s.objects[key], bundle, tailoring);
    ReadyStatusIsReady(s.objects[key], t.objects[key], ns, name);
  }

  lemma VerdictIsBased(s: Store, ns: string, name: string, spec: TailoredProfileSpec)
    returns (profile: Profile, bundle: BundleSpec)
    requires Publishable(s, ns, name) && HasSpec(s, ns, name, spec)
    ensures BasedOn(s, ns, spec, profile, bundle)
    ensures VerdictOn(s, ns, spec) == VerdictOnSelections(s, ns, spec, profile, bundle)
    ensures VerdictOn(s, ns, spec).Publish?
    ensures VerdictOn(s, ns, spec).profile == profile && VerdictOn(s, ns, spec).bundle == bundle
    ensures CarriesValues(s, ns, spec.setValues, SetValues(VerdictOn(s, ns, spec).variables))
  {
    var p := s.objects[ProfileKey(ns, spec.extended)];
    profile, bundle := p.body.profile, BundleOf(s, ns, p).value;
    FoundVariablesAreStored(s, ns, [], spec.setValues, []);
    assert [] + spec.setValues == spec.setValues;
  }

  /** The tailoring that a pass publishes is that of the stored objects: its head of the spec, the Profile and the
      bundle, its select elements of the Rules and its set-value elements of the Variables that the spec names. */
  lemma PassPublishesStoredObjects(w: World, ns: string, name: string, spec: TailoredProfileSpec, time: string)
    returns (profile: Profile, bundle: BundleSpec, output: Key, tailoring: Tailoring)
    requires Publishes(w, ns, name, time) && HasSpec(w.store, ns, name, spec)
    ensures BasedOn(w.store, ns, spec, profile, bundle)
    ensures HasPublished(w.store, Reconcile(w, ns, name, time).0.store, ns, name, bundle, output, tailoring)
    ensures Heads(tailoring, name, spec, profile, bundle.contentFile, time)
    ensures CarriesIds(w.store, ns, spec, tailoring.selections)
    ensures CarriesValues(w.store, ns, spec.setValues, tailoring.values)
  {
    CompletePassHasItsEffect(w, ns, name, time);
    profile, bundle, output, tailoring := EffectPublishesStoredObjects(w.store, ns, name, spec, time);
  }

  lemma EffectPublishesStoredObjects(s: Store, ns: string, name: string, spec: TailoredProfileSpec, time: string)
    returns (profile: Profile, bundle: BundleSpec, output: Key, tailoring: Tailoring)
    requires Publishable(s, ns, name) && HasSpec(s, ns, name, spec)
    ensures BasedOn(s, ns, spec, profile, bundle)
    ensures HasPublished(s, Effect(s, ns, name, time), ns, name, bundle, output, tailoring)
    ensures Heads(tailoring, name, spec, profile, bundle.contentFile, time)
    ensures CarriesIds(s, ns, spec, tailoring.selections)
    ensures CarriesValues(s, ns, spec.setValues, tailoring.values)
  {
    profile, bundle := VerdictIsBased(s, ns, name, spec);
    var v, tp := VerdictOn(s, ns, spec), s.objects[TailoredProfileKey(ns, name)];
    tailoring := TailoringFor(name, spec, profile, bundle, v.rules, v.variables, time);
    var out := OutputFor(ns, name, tp, bundle, tailoring);
    output := out.key;
    EffectHasPublished(s, ns, name, spec, time, out, bundle, tailoring);
    TailoringHasHead(name, spec, profile, bundle, v.rules, v.variables, time);
    VerdictCarriesIds(s, ns, spec);
  }

  // --- from an imported Profile to an output -------------------------------------------------------

  /** An object of this bundle, and of nothing else, as the operator owns its objects. */
  ghost predicate BelongsTo(o: Object, bundle: string, uid: nat) {
    o.owners == [OwnerRef("compliance.openshift.io", "v1alpha1", "ProfileBundle", bundle, uid, true)]
  }

  lemma BundleOfItsOwn(s: Store, ns: string, o: Object, bundle: string, uid: nat)
    requires BelongsTo(o, bundle, uid) && Key(ProfileBundleKind, ns, bundle) in s.objects
    ensures BundleOf(s, ns, o) == Some(s.objects[Key(ProfileBundleKind, ns, bundle)].body.bundleSpec)
  {
    FirstBundleIsReferredTo([], o.owners[0], []);
    assert [] + [o.owners[0]] + [] == o.owners;
  }

  lemma NewProfileBelongs(s0: Store, s: Store, c: Config, uid: nat, d: Document, k: Key)
    requires Reached(s0, s, BundleKey(c.ns, c.bundle), Plan(Steps(c, uid, d)))
    requires k in s.objects && k !in s0.objects && k.kind == ProfileKind
    ensures BelongsTo(s.objects[k], c.bundle, uid) && k.namespace == c.ns && k.name != ""
  {
    NewProfilesAreMadeFromTheDocument(s0, s, c, uid, d, k);
    var n :| n in d.profiles && ProfileMadeFrom(c, uid, k, s.objects[k], n);
    assert |PrefixedName(c.bundle, ProfileNameFromID(n.id))| > 0;
  }

  /** Every Profile that an import, however interrupted, has newly made leads a reconcile to the stored bundle. */
  lemma ImportedProfileLeadsToItsBundle(s0: Store, s: Store, c: Config, uid: nat, d: Document, k: Key)
    requires Reached(s0, s, BundleKey(c.ns, c.bundle), Plan(Steps(c, uid, d)))
    requires k in s.objects && k !in s0.objects && k.kind == ProfileKind
    ensures var bundle := Key(ProfileBundleKind, c.ns, c.bundle);
      bundle in s.objects && BundleOf(s, c.ns, s.objects[k]) == Some(s.objects[bundle].body.bundleSpec)
  {
    NewProfileBelongs(s0, s, c, uid, d, k);
    BundleOfItsOwn(s, c.ns, s.objects[k], c.bundle, uid);
  }

  function AskedFor(ns: string, name: string, outputType: string): Key {
    if outputType == "ConfigMap" then Key(ConfigMapKind, ns, name + "-tp") else Key(PolicyKind, ns, name)
  }

  /** A TailoredProfile with a known output type and no output yet, owned by the Profile it extends, whose
      selections and settings are in order. */
  ghost predicate AwaitsOutput(s: Store, ns: string, name: string, spec: TailoredProfileSpec) {
    var key, profile := Key(TailoredProfileKind, ns, name), Key(ProfileKind, ns, spec.extended);
    && HasSpec(s, ns, name, spec) && profile in s.objects
    && (spec.outputType == "ConfigMap" || spec.outputType == "Policy")
    && AskedFor(ns, name, spec.outputType) !in s.objects
    && OwnedBy(s.objects[key].owners, s.objects[profile].uid)
    && SelectionsInOrder(s, ns, spec)
  }

  lemma InOrderIsPublishable(s: Store, ns: string, name: string, spec: TailoredProfileSpec)
    requires AwaitsOutput(s, ns, name, spec) && spec.extended != ""
    requires BundleOf(s, ns, s.objects[Key(ProfileKind, ns, spec.extended)]).Some?
    ensures Publishable(s, ns, name)
  {
    MistakesAreWhatIsComplainedAbout(s, ns, spec);
    OutputTypesAreApart();
  }

  /** A TailoredProfile in order that extends a newly imported Profile is published by one undisturbed pass, with
      the content file and image of the bundle that was imported. */
  lemma ImportedProfileIsPublished(s0: Store, s: Store, c: Config, uid: nat, d: Document, w: World, name: string,
                                   spec: TailoredProfileSpec, time: string)
    returns (profile: Profile, output: Key, tailoring: Tailoring)
    requires Reached(s0, s, BundleKey(c.ns, c.bundle), Plan(Steps(c, uid, d)))
    requires var k := Key(ProfileKind, c.ns, spec.extended);
      k in s.objects && k !in s0.objects && k in w.store.objects && w.store.objects[k] == s.objects[k]
    requires Key(ProfileBundleKind, c.ns, c.bundle) in w.store.objects
    requires Calm(w) && AwaitsOutput(w.store, c.ns, name, spec)
    ensures Reconcile(w, c.ns, name, time).1 == Done
    ensures w.store.objects[Key(ProfileKind, c.ns, spec.extended)].body == ProfileBody(profile)
    ensures var bundle := w.store.objects[Key(ProfileBundleKind, c.ns, c.bundle)].body.bundleSpec;
      && HasPublished(w.store, Reconcile(w, c.ns, name, time).0.store, c.ns, name, bundle, output, tailoring)
      && Heads(tailoring, name, spec, profile, bundle.contentFile, time)
    ensures CarriesIds(w.store, c.ns, spec, tailoring.selections)
    ensures CarriesValues(w.store, c.ns, spec.setValues, tailoring.values)
  {
    var k := Key(ProfileKind, c.ns, spec.extended);
    NewProfileBelongs(s0, s, c, uid, d, k);
    BundleOfItsOwn(w.store, c.ns, w.store.objects[k], c.bundle, uid);
    profile, output, tailoring := InOrderIsPublished(w, c.ns, name, spec, time,
      w.store.objects[Key(ProfileBundleKind, c.ns, c.bundle)].body.bundleSpec);
  }

  lemma InOrderIsPublished(w: World, ns: string, name: string, spec: TailoredProfileSpec, time: string,
                           bundle: BundleSpec)
    returns (profile: Profile, output: Key, tailoring: Tailoring)
    requires Calm(w) && AwaitsOutput(w.store, ns, name, spec) && spec.extended != ""
    requires BundleOf(w.store, ns, w.store.objects[Key(ProfileKind, ns, spec.extended)]) == Some(bundle)
    ensures Reconcile(w, ns, name, time).1 == Done
    ensures BasedOn(w.store, ns, spec, profile, bundle)
    ensures HasPublished(w.store, Reconcile(w, ns, name, time).0.store, ns, name, bundle, output, tailoring)
    ensures Heads(tailoring, name, spec, profile, bundle.contentFile, time)
    ensures CarriesIds(w.store, ns, spec, tailoring.selections)
    ensures CarriesValues(w.store, ns, spec.setValues, tailoring.values)
  {
    var b: BundleSpec;
    InOrderIsPublishable(w.store, ns, name, spec);
    PublishableIsDone(w, ns, name, time);
    profile, b, output, tailoring := PassPublishesStoredObjects(w, ns, name, spec, time);
  }

  lemma PublishableIsDone(w: World, ns: string, name: string, time: string)
    requires Calm(w) && Publishable(w.store, ns, name)
    ensures Reconcile(w, ns, name, time).1 == Done
  {
    QuietReconcile(w, ns, name, time);
  }
}
