/** How TailoredProfile reconciles end: in an error state, in a retry, or in READY; and where the
    status falls short of what a reader may expect, exactly when it does. */
module TailoredProfileOutcomes {
  import opened ApiTypes
  import opened ApiStore
  import opened Text
  import opened Xccdf
  import opened Variables
  import opened TailoredProfileReconcile
  import opened TailoredProfileConvergence

  ghost predicate SelectionsInOrder(s: Store, ns: string, spec: TailoredProfileSpec) {
    && Distinct(spec.Selected())
    && (forall n <- spec.Selected() :: RuleKey(ns, n) in s.objects)
    && (forall v <- spec.setValues ::
          VariableKey(ns, v.name) in s.objects && Legal(s.objects[VariableKey(ns, v.name)].body.variable, v.value))
  }

  /** What a user can get wrong in a spec. */
  ghost predicate Mistaken(s: Store, ns: string, spec: TailoredProfileSpec) {
    || spec.extended == ""
    || (spec.outputType != "" && !KnownOutput(spec.outputType))
    || ProfileKey(ns, spec.extended) !in s.objects
    || (BundleOf(s, ns, s.objects[ProfileKey(ns, spec.extended)]).Some? && !SelectionsInOrder(s, ns, spec))
  }

  ghost predicate BundleMissing(s: Store, ns: string, spec: TailoredProfileSpec) {
    && ProfileKey(ns, spec.extended) in s.objects
    && BundleOf(s, ns, s.objects[ProfileKey(ns, spec.extended)]).None?
  }

  lemma MistakesAreWhatIsComplainedAbout(s: Store, ns: string, spec: TailoredProfileSpec)
    ensures VerdictOn(s, ns, spec).Complain? <==> Mistaken(s, ns, spec)
    ensures VerdictOn(s, ns, spec).NoBundle? <==> !Mistaken(s, ns, spec) && BundleMissing(s, ns, spec)
  {
    RulesFoundExactly(s, ns, spec.Selected(), map[]);
    VariablesFoundExactly(s, ns, spec.setValues, []);
  }

  /** A pass without API failures returns an error exactly when the extended Profile, already an
      owner, has no existing bundle: no mistake of a user's is ever retried. */
  lemma RetriedExactlyWithoutBundle(w: World, ns: string, name: string, time: string)
    requires Calm(w)
    ensures var key := TailoredProfileKey(ns, name);
      Reconcile(w, ns, name, time).1.Requeue? <==>
        && key in w.store.objects
        && ReadyForVerdict(w.store, ns, w.store.objects[key])
        && !Mistaken(w.store, ns, w.store.objects[key].body.spec)
        && BundleMissing(w.store, ns, w.store.objects[key].body.spec)
  {
    QuietReconcile(w, ns, name, time);
    if TailoredProfileKey(ns, name) in w.store.objects {
      MistakesAreWhatIsComplainedAbout(w.store, ns, w.store.objects[TailoredProfileKey(ns, name)].body.spec);
    }
  }

  /** What the status refers to once an output has been published: the output itself if that is a
      ConfigMap, and for a Policy the ConfigMap inside it, which has no namespace. */
  function RefFor(ns: string, name: string, outputType: string): OutputRef {
    OutputRef(ConfigMapName(name), if outputType == CONFIG_MAP_OUTPUT then ns else "")
  }

  /** The status a TailoredProfile has once a verdict has been acted on. */
  lemma StatusOfVerdict(s: Store, ns: string, name: string, time: string)
    requires TailoredProfileKey(ns, name) in s.objects
    requires ReadyForVerdict(s, ns, s.objects[TailoredProfileKey(ns, name)])
    ensures StatusRecords(s, ns, name, Effect(s, ns, name, time))
  {
  }

  /** What becomes of the status, verdict by verdict. */
  ghost predicate StatusRecords(s: Store, ns: string, name: string, t: Store)
    requires TailoredProfileKey(ns, name) in s.objects
  {
    var key := TailoredProfileKey(ns, name);
    var before := s.objects[key];
    var output := OutputKey(ns, name, before.body.spec.outputType);
    && key in t.objects
    && match VerdictOn(s, ns, before.body.spec)
       case NoBundle => t == s
       case Complain(problem) => t.objects[key].body.status == ErrorStatus(before.body.status, problem)
       case Publish(_, _, _, _) =>
         if output in s.objects then t == s
         else
           && t.objects[key].body.status
              == ReadyStatus(before.body.status, name, RefFor(ns, name, before.body.spec.outputType))
           && output in t.objects
  }

  /** The store `t` records ERROR for every mistake in the spec stored in `s`, and READY for a spec
      without one, unless the output is already there or the bundle is missing; in those two cases
      the status is as it was. READY comes with the ID and the reference, and with the message that
      was there before. */
  ghost predicate Records(s: Store, ns: string, name: string, t: Store)
    requires TailoredProfileKey(ns, name) in s.objects
  {
    var key := TailoredProfileKey(ns, name);
    var before := s.objects[key].body.status;
    var spec := s.objects[key].body.spec;
    && key in t.objects
    && var status := t.objects[key].body.status;
    && (Mistaken(s, ns, spec) ==>
          VerdictOn(s, ns, spec).Complain? && status == ErrorStatus(before, VerdictOn(s, ns, spec).problem))
    && (!Mistaken(s, ns, spec) ==>
          if BundleMissing(s, ns, spec) || OutputKey(ns, name, spec.outputType) in s.objects then status == before
          else
            && status == TailoredProfileStatus(
                 XccdfProfileID(name), RefFor(ns, name, spec.outputType), StateReady, before.problem)
            && OutputKey(ns, name, spec.outputType) in t.objects)
  }

  lemma EffectRecords(s: Store, ns: string, name: string, time: string)
    requires TailoredProfileKey(ns, name) in s.objects
    requires ReadyForVerdict(s, ns, s.objects[TailoredProfileKey(ns, name)])
    ensures Records(s, ns, name, Effect(s, ns, name, time))
  {
    MistakesAreWhatIsComplainedAbout(s, ns, s.objects[TailoredProfileKey(ns, name)].body.spec);
    StatusOfVerdict(s, ns, name, time);
  }

  /** A pass among no other writers that returns no error, or that no call of fails. */
  ghost predicate Completes(w: World, ns: string, name: string, time: string) {
    Calm(w) || (Quiet(w) && Reconcile(w, ns, name, time).1.Done?)
  }

  lemma CompletePassHasItsEffect(w: World, ns: string, name: string, time: string)
    requires Completes(w, ns, name, time)
    ensures Reconcile(w, ns, name, time).0.store == Effect(w.store, ns, name, time)
  {
    QuietReconcile(w, ns, name, time);
  }

  /** With the output type set and ownership in place, a complete pass records the verdict. */
  lemma StatusAfterPass(w: World, ns: string, name: string, time: string)
    requires Completes(w, ns, name, time) && TailoredProfileKey(ns, name) in w.store.objects
    requires ReadyForVerdict(w.store, ns, w.store.objects[TailoredProfileKey(ns, name)])
    ensures Records(w.store, ns, name, Reconcile(w, ns, name, time).0.store)
  {
    CompletePassHasItsEffect(w, ns, name, time);
    EffectRecords(w.store, ns, name, time);
  }

  // --- READY and the output ----------------------------------------------------------------

  /** Everything is in place for an output to be published. */
  ghost predicate Publishable(s: Store, ns: string, name: string) {
    && TailoredProfileKey(ns, name) in s.objects
    && var tp := s.objects[TailoredProfileKey(ns, name)];
    && ReadyForVerdict(s, ns, tp) && VerdictOn(s, ns, tp.body.spec).Publish?
    && OutputKey(ns, name, tp.body.spec.outputType) !in s.objects
  }

  /** A pass that publishes an output. */
  ghost predicate Publishes(w: World, ns: string, name: string, time: string) {
    Publishable(w.store, ns, name) && Completes(w, ns, name, time)
  }

  /** The TailoredProfile and its output as a publishing pass leaves them. */
  ghost predicate PublishedAs(s: Store, t: Store, ns: string, name: string)
    requires TailoredProfileKey(ns, name) in s.objects
  {
    var key := TailoredProfileKey(ns, name);
    var before := s.objects[key];
    var k := OutputKey(ns, name, before.body.spec.outputType);
    && key in t.objects && t.objects[key].uid == before.uid
    && t.objects[key].body == TailoredProfileBody(before.body.spec,
         ReadyStatus(before.body.status, name, RefFor(ns, name, before.body.spec.outputType)))
    && k in t.objects
    && t.objects[k].owners == (if before.body.spec.outputType == CONFIG_MAP_OUTPUT then
                                 [OwnerOf("TailoredProfile", name, before.uid, true)]
                               else [])
  }

  lemma PublishableHasKnownOutput(s: Store, ns: string, name: string)
    requires Publishable(s, ns, name)
    ensures KnownOutput(s.objects[TailoredProfileKey(ns, name)].body.spec.outputType)
  {
  }

  lemma EffectPublishes(s: Store, ns: string, name: string, time: string)
    requires Publishable(s, ns, name)
    ensures PublishedAs(s, Effect(s, ns, name, time), ns, name)
  {
    PublishableHasKnownOutput(s, ns, name);
  }

  lemma PassPublishes(w: World, ns: string, name: string, time: string)
    requires Publishes(w, ns, name, time)
    ensures PublishedAs(w.store, Reconcile(w, ns, name, time).0.store, ns, name)
  {
    CompletePassHasItsEffect(w, ns, name, time);
    EffectPublishes(w.store, ns, name, time);
  }

  /** `t` has READY, with the message that `s` had. */
  ghost predicate KeepsMessage(s: Store, t: Store, ns: string, name: string) {
    var key := TailoredProfileKey(ns, name);
    && key in s.objects && key in t.objects
    && t.objects[key].body.status.state == StateReady
    && t.objects[key].body.status.problem == s.objects[key].body.status.problem
  }

  /** READY leaves the message as it was: an earlier error is not cleared. */
  lemma ReadyKeepsMessage(w: World, ns: string, name: string, time: string)
    requires Publishes(w, ns, name, time)
    ensures KeepsMessage(w.store, Reconcile(w, ns, name, time).0.store, ns, name)
  {
    PassPublishes(w, ns, name, time);
  }

  /** The status in `t` refers to the stored output, and that output is owned by the TailoredProfile of
      `s`, both exactly when a ConfigMap was asked for. */
  ghost predicate RefersExactlyToConfigMaps(s: Store, t: Store, ns: string, name: string) {
    var key := TailoredProfileKey(ns, name);
    && key in s.objects && key in t.objects
    && var tp := s.objects[key];
    var k := OutputKey(ns, name, tp.body.spec.outputType);
    && k in t.objects
    && (t.objects[key].body.status.outputRef == OutputRef(k.name, k.namespace) <==>
          tp.body.spec.outputType == CONFIG_MAP_OUTPUT)
    && (OwnedBy(t.objects[k].owners, tp.uid) <==> tp.body.spec.outputType == CONFIG_MAP_OUTPUT)
  }

  /** The status refers to the object that was published, and that object is owned by the
      TailoredProfile, exactly when it is a ConfigMap. */
  lemma OutputRefNamesTheOutputExactlyForConfigMaps(w: World, ns: string, name: string, time: string)
    requires Publishes(w, ns, name, time)
    ensures RefersExactlyToConfigMaps(w.store, Reconcile(w, ns, name, time).0.store, ns, name)
  {
    PassPublishes(w, ns, name, time);
    PublishedRefersExactly(w.store, Reconcile(w, ns, name, time).0.store, ns, name);
  }

  lemma PublishedRefersExactly(s: Store, t: Store, ns: string, name: string)
    requires Publishable(s, ns, name) && PublishedAs(s, t, ns, name)
    ensures RefersExactlyToConfigMaps(s, t, ns, name)
  {
    PublishableHasKnownOutput(s, ns, name);
    RefsApart(ns, name, s.objects[TailoredProfileKey(ns, name)].uid);
  }

  lemma RefsApart(ns: string, name: string, uid: nat)
    ensures ConfigMapName(name) != name && CONFIG_MAP_OUTPUT != POLICY_OUTPUT
    ensures OwnedBy([OwnerOf("TailoredProfile", name, uid, true)], uid)
  {
    assert |ConfigMapName(name)| != |name| && |CONFIG_MAP_OUTPUT| != |POLICY_OUTPUT|;
    assert [OwnerOf("TailoredProfile", name, uid, true)][0].uid == uid;
  }

  /** READY as a publishing pass stores it, and still no output. */
  ghost predicate ReadyWithoutOutput(s: Store, t: Store, ns: string, name: string)
    requires TailoredProfileKey(ns, name) in s.objects
  {
    var key := TailoredProfileKey(ns, name);
    var spec := s.objects[key].body.spec;
    && OutputKey(ns, name, spec.outputType) !in t.objects
    && key in t.objects
    && t.objects[key].body.status
       == ReadyStatus(s.objects[key].body.status, name, RefFor(ns, name, spec.outputType))
  }

  lemma HalfEffectIsReadyWithoutOutput(s: Store, ns: string, name: string, time: string)
    requires Publishable(s, ns, name)
    ensures ReadyWithoutOutput(s, HalfEffect(s, ns, name, time), ns, name)
    ensures ReadyWithoutOutput(s, s, ns, name) ==> HalfEffect(s, ns, name, time) == s
    ensures !ReadyWithoutOutput(s, Effect(s, ns, name, time), ns, name)
  {
    PublishableHasKnownOutput(s, ns, name);
  }

  /** READY is stored before the output is created. Whatever fails, a pass that is to publish leaves READY
      without the output exactly when it was stopped half-way; it has then returned an error and is
      retried. A pass that returns no error has had its whole effect. */
  lemma ReadyWithoutOutputExactly(w: World, ns: string, name: string, time: string)
    requires Quiet(w)
    ensures var s, r := w.store, Reconcile(w, ns, name, time);
      && (r.1.Done? ==> r.0.store == Effect(s, ns, name, time))
      && (Publishable(s, ns, name) ==>
            && HalfEffect(s, ns, name, time) != Effect(s, ns, name, time)
            && (ReadyWithoutOutput(s, r.0.store, ns, name) <==> r.0.store == HalfEffect(s, ns, name, time))
            && (ReadyWithoutOutput(s, r.0.store, ns, name) ==> r.1.Requeue?))
      && (!Publishable(s, ns, name) ==> HalfEffect(s, ns, name, time) == s)
  {
    QuietReconcile(w, ns, name, time);
    if Publishable(w.store, ns, name) {
      HalfEffectIsReadyWithoutOutput(w.store, ns, name, time);
    } else {
      NoHalfWayOtherwise(w.store, ns, name, time);
    }
  }

  lemma NoHalfWayOtherwise(s: Store, ns: string, name: string, time: string)
    requires !Publishable(s, ns, name)
    ensures HalfEffect(s, ns, name, time) == s
  {
  }

  /** Which failures stop the publication of a missing output half-way: the output is stored exactly when
      the lookup and the status write succeed and the creation is not refused, and READY exactly when
      the lookup succeeds and the status write is not refused. */
  lemma PublicationStopsExactly(w: World, ns: string, name: string, out: Output)
    requires Quiet(w) && TailoredProfileKey(ns, name) in w.store.objects && out.key !in w.store.objects
    requires out.body.BodyKind() == out.key.kind && out.key.kind != TailoredProfileKind
    ensures var key := TailoredProfileKey(ns, name);
      var tp, t := w.store.objects[key], EnsureOutput(w, ns, name, w.store.objects[key], out).0.store;
      var lookup, write, creation := NextFault(w), NextFault(Begin(w)), NextFault(Begin(Begin(w)));
      var ready := ReadyStatus(tp.body.status, name, out.ref);
      && key in t.objects
      && (out.key in t.objects <==> lookup == Healthy && write == Healthy && creation != Refused)
      && (t.objects[key].body.status == ready <==>
            tp.body.status == ready || (lookup == Healthy && write != Refused))
  {
    var tp := w.store.objects[TailoredProfileKey(ns, name)];
    QuietCall(w);
    QuietCall(Begin(w));
    QuietCall(Begin(Begin(w)));
    var found := Get(w, out.key);
    if found.1 == Err(NotFound) {
      var ready := UpdateStatus(found.0, TailoredProfileKey(ns, name), tp.version,
        TailoredProfileBody(tp.body.spec, ReadyStatus(tp.body.status, name, out.ref)));
      assert ready.0.script == Begin(Begin(w)).script && ready.0.after == w.after;
      QuietCall(ready.0);
    }
  }

  lemma ActingOnPublish(s: Store, ns: string, name: string, v: Verdict, time: string)
    requires TailoredProfileKey(ns, name) in s.objects && v.Publish?
    requires forall n <- s.objects[TailoredProfileKey(ns, name)].body.spec.Selected() :: n in v.rules
    ensures var out := OutputOf(ns, name, s.objects[TailoredProfileKey(ns, name)], v, time);
      var t := FullVerdict(s, ns, name, v, time);
      && out.key in t.objects
      && (if out.key in s.objects then t == s
          else t.objects[out.key].body == out.body && t.objects[out.key].owners == out.owners)
  {
  }

  /** A pass that ends in the publication branch leaves the current tailoring stored exactly when no
      output was stored before, or when what was stored already was that tailoring: an output is
      never brought up to date with an edited spec. */
  lemma OutputIsCurrentExactly(w: World, ns: string, name: string, time: string, out: Output)
    requires Completes(w, ns, name, time) && TailoredProfileKey(ns, name) in w.store.objects
    requires var tp := w.store.objects[TailoredProfileKey(ns, name)];
      && ReadyForVerdict(w.store, ns, tp) && VerdictOn(w.store, ns, tp.body.spec).Publish?
      && out == OutputOf(ns, name, tp, VerdictOn(w.store, ns, tp.body.spec), time)
    ensures var t := Reconcile(w, ns, name, time).0.store;
      && out.key in t.objects
      && (t.objects[out.key].body == out.body <==>
            out.key !in w.store.objects || w.store.objects[out.key].body == out.body)
  {
    CompletePassHasItsEffect(w, ns, name, time);
    EffectOfPublish(w.store, ns, name, time, out);
  }

  lemma EffectOfPublish(s: Store, ns: string, name: string, time: string, out: Output)
    requires TailoredProfileKey(ns, name) in s.objects
    requires var tp := s.objects[TailoredProfileKey(ns, name)];
      && ReadyForVerdict(s, ns, tp) && VerdictOn(s, ns, tp.body.spec).Publish?
      && out == OutputOf(ns, name, tp, VerdictOn(s, ns, tp.body.spec), time)
    ensures var t := Effect(s, ns, name, time);
      && out.key in t.objects
      && (t.objects[out.key].body == out.body <==> out.key !in s.objects || s.objects[out.key].body == out.body)
  {
    ActingOnPublish(s, ns, name, VerdictOn(s, ns, s.objects[TailoredProfileKey(ns, name)].body.spec), time);
  }
}
