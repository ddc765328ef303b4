/** What a run of the profile parser guarantees: what its verdict means, and which objects exist when
    VALID is stored. */
module ImportResults {
  import opened ApiTypes
  import opened ApiStore
  import opened Xccdf
  import opened Datastream
  import opened VariableParser
  import opened Import
  import opened ImportRestart
  import opened ImportCollisions

  // --- the verdict -------------------------------------------------------------------------

  ghost predicate CompleteProfile(n: ProfileNode) { n.id != "" && n.title.Some? && n.description.Some? }

  ghost predicate CompleteRule(n: RuleNode) { n.id != "" && n.title.Some? }

  ghost predicate CompleteValue(n: ValueNode) { n.hidden == "true" || (n.id != "" && n.title.Some?) }

  ghost predicate ProfilesComplete(d: Document) { forall n <- d.profiles :: CompleteProfile(n) }

  ghost predicate RulesComplete(d: Document) { forall n <- d.rules :: CompleteRule(n) }

  ghost predicate ValuesComplete(d: Document) { forall n <- d.values :: CompleteValue(n) }

  ghost predicate DocumentComplete(d: Document) { ProfilesComplete(d) && RulesComplete(d) && ValuesComplete(d) }

  ghost predicate NeverStops(steps: seq<Step>) { forall s <- steps :: !s.Stop? }

  lemma {:induction false} StopErrorExactly(steps: seq<Step>)
    ensures StopError(steps).None? <==> NeverStops(steps)
    decreases |steps|
  {
    if steps != [] {
      assert steps == [steps[0]] + steps[1..];
      StopErrorExactly(steps[1..]);
    }
  }

  lemma CompleteExactlyWhenNothingStops(c: Config, uid: nat, d: Document)
    ensures NeverStops(Steps(c, uid, d)) <==> DocumentComplete(d)
  {
    var ps, rs, vs := ProfileSteps(c, uid, d.profiles), RuleSteps(c, uid, d.rules), ValueSteps(c, uid, d.values);
    ProfilesCompleteExactly(c, uid, d);
    RulesCompleteExactly(c, uid, d);
    ValuesCompleteExactly(c, uid, d);
    NeverStopsConcat(ps, rs + vs);
    NeverStopsConcat(rs, vs);
  }

  lemma NeverStopsConcat(a: seq<Step>, b: seq<Step>)
    ensures NeverStops(a + b) <==> NeverStops(a) && NeverStops(b)
  {
    assert forall s :: s in a + b <==> s in a || s in b;
  }

  lemma ProfilesCompleteExactly(c: Config, uid: nat, d: Document)
    ensures NeverStops(ProfileSteps(c, uid, d.profiles)) <==> ProfilesComplete(d)
  {
    var steps := ProfileSteps(c, uid, d.profiles);
    if NeverStops(steps) {
      forall n <- d.profiles ensures CompleteProfile(n) {
        var i :| 0 <= i < |d.profiles| && d.profiles[i] == n;
        assert steps[i] in steps;
      }
    } else {
      var i :| 0 <= i < |steps| && steps[i].Stop?;
      assert d.profiles[i] in d.profiles && !CompleteProfile(d.profiles[i]);
    }
  }

  lemma RulesCompleteExactly(c: Config, uid: nat, d: Document)
    ensures NeverStops(RuleSteps(c, uid, d.rules)) <==> RulesComplete(d)
  {
    var steps := RuleSteps(c, uid, d.rules);
    if NeverStops(steps) {
      forall n <- d.rules ensures CompleteRule(n) {
        var i :| 0 <= i < |d.rules| && d.rules[i] == n;
        assert steps[i] in steps;
      }
    } else {
      var i :| 0 <= i < |steps| && steps[i].Stop?;
      assert d.rules[i] in d.rules && !CompleteRule(d.rules[i]);
    }
  }

  lemma ValuesCompleteExactly(c: Config, uid: nat, d: Document)
    ensures NeverStops(ValueSteps(c, uid, d.values)) <==> ValuesComplete(d)
  {
    var steps := ValueSteps(c, uid, d.values);
    if NeverStops(steps) {
      forall n <- d.values ensures CompleteValue(n) {
        var i :| 0 <= i < |d.values| && d.values[i] == n;
        assert steps[i] in steps;
      }
    } else {
      var i :| 0 <= i < |steps| && steps[i].Stop?;
      assert d.values[i] in d.values && !CompleteValue(d.values[i]);
    }
  }

  /** The steps end with the error of the first node that stops them. */
  lemma {:induction false} FirstStopIsReported(steps: seq<Step>, i: nat)
    requires i < |steps| && steps[i].Stop? && forall j :: 0 <= j < i ==> !steps[j].Stop?
    ensures StopError(steps) == Some(steps[i].error)
    decreases |steps|
  {
    if i > 0 {
      assert !steps[0].Stop?;
      forall j | 0 <= j < i - 1 ensures !steps[1..][j].Stop? {
        assert steps[1..][j] == steps[j + 1];
      }
      FirstStopIsReported(steps[1..], i - 1);
    }
  }

  function StatusOf(s: Store, bundle: Key): BundleStatus
    requires bundle in s.objects && bundle.kind == ProfileBundleKind
  {
    s.objects[bundle].body.bundleStatus
  }

  /** What is wrong with content, if anything is. */
  function ContentError(c: Config, uid: nat, content: Content): Option<string> {
    match content
    case Unreadable(error) => Some("Couldn't read content file: " + error)
    case Malformed(error) => Some("Couldn't read content XML: " + error)
    case Parsed(d) => StopError(Steps(c, uid, d))
  }

  /** An undisturbed run stores INVALID with what is wrong with its content, or VALID with the message that was
      there, and nothing else about the bundle changes. */
  lemma UndisturbedRun(w: World, c: Config, content: Content)
    requires Calm(w) && BundleKey(c.ns, c.bundle) in w.store.objects
    ensures var bundle := BundleKey(c.ns, c.bundle);
      var t := ImportContent(w, c, content).0.store;
      && bundle in t.objects && t.objects[bundle].body.bundleSpec == w.store.objects[bundle].body.bundleSpec
      && match ContentError(c, w.store.objects[bundle].uid, content)
         case Some(error) => StatusOf(t, bundle) == BundleStatus(BundleInvalid, error)
         case None => StatusOf(t, bundle) == BundleStatus(BundleValid, StatusOf(w.store, bundle).message)
  {
    var bundle := BundleKey(c.ns, c.bundle);
    var pb := w.store.objects[bundle];
    var got := Get(w, bundle);
    if content.Parsed? {
      var steps := Steps(c, pb.uid, content.document);
      var n := StepsInStoppingRun(got.0, steps);
      AddingKeepsBundle(w.store, Plan(steps), n, bundle);
    }
  }

  lemma {:induction false} AddingKeepsBundle(s: Store, plan: seq<Item>, n: nat, k: Key)
    requires n <= |plan| && k in s.objects
    ensures k in AddFirst(s, plan, n).objects && AddFirst(s, plan, n).objects[k] == s.objects[k]
    decreases n
  {
    if n > 0 {
      var t := Add(s, plan[0]);
      assert k in t.objects && t.objects[k] == s.objects[k];
      AddingKeepsBundle(t, plan[1..], n - 1, k);
    }
  }

  /** An undisturbed run ends in VALID exactly when the content can be read, every profile has an id, a
      title and a description, and every rule and every value that is not hidden has an id and a title;
      otherwise it ends in INVALID. */
  lemma ValidExactlyWhenComplete(w: World, c: Config, content: Content)
    requires Calm(w) && BundleKey(c.ns, c.bundle) in w.store.objects
    ensures var bundle := BundleKey(c.ns, c.bundle);
      var t := ImportContent(w, c, content).0.store;
      && bundle in t.objects
      && (StatusOf(t, bundle).state == BundleValid <==> content.Parsed? && DocumentComplete(content.document))
      && (StatusOf(t, bundle).state == BundleInvalid <==> !(content.Parsed? && DocumentComplete(content.document)))
  {
    UndisturbedRun(w, c, content);
    if content.Parsed? {
      var uid := w.store.objects[BundleKey(c.ns, c.bundle)].uid;
      StopErrorExactly(Steps(c, uid, content.document));
      CompleteExactlyWhenNothingStops(c, uid, content.document);
    }
  }

  /** VALID leaves the message as it was: that of an earlier verdict is not cleared. */
  lemma ValidKeepsMessage(w: World, c: Config, content: Content)
    requires Calm(w) && BundleKey(c.ns, c.bundle) in w.store.objects
    requires content.Parsed? && DocumentComplete(content.document)
    ensures var bundle := BundleKey(c.ns, c.bundle);
      var t := ImportContent(w, c, content).0.store;
      && bundle in t.objects && StatusOf(t, bundle).state == BundleValid
      && StatusOf(t, bundle).message == StatusOf(w.store, bundle).message
  {
    UndisturbedRun(w, c, content);
    ValidExactlyWhenComplete(w, c, content);
  }

  // --- which error is reported -----------------------------------------------------------------

  /** Profile `i` is the first that lacks something, and this says what. */
  ghost predicate FaultyProfile(nodes: seq<ProfileNode>, i: nat, message: string) {
    && i < |nodes| && !CompleteProfile(nodes[i]) && (forall j :: 0 <= j < i ==> CompleteProfile(nodes[j]))
    && message == if nodes[i].id == "" then "no id in profile"
                  else if nodes[i].title.None? then "no title in profile"
                  else "no description in profile"
  }

  ghost predicate FaultyRule(nodes: seq<RuleNode>, i: nat, message: string) {
    && i < |nodes| && !CompleteRule(nodes[i]) && (forall j :: 0 <= j < i ==> CompleteRule(nodes[j]))
    && message == if nodes[i].id == "" then "no id in rule" else "no title in rule"
  }

  ghost predicate FaultyValue(nodes: seq<ValueNode>, i: nat, message: string) {
    && i < |nodes| && !CompleteValue(nodes[i]) && (forall j :: 0 <= j < i ==> CompleteValue(nodes[j]))
    && message == if nodes[i].id == "" then "no id in variable" else "no title in variable"
  }

  /** The message is about the first incomplete profile, or if there is none about the first incomplete rule,
      or if there is none of these either about the first incomplete value that is not hidden. */
  ghost predicate NamesFirstFault(d: Document, message: string) {
    || (exists i :: FaultyProfile(d.profiles, i, message))
    || (ProfilesComplete(d) && exists i :: FaultyRule(d.rules, i, message))
    || (ProfilesComplete(d) && RulesComplete(d) && exists i :: FaultyValue(d.values, i, message))
  }

  lemma {:induction false} StopErrorConcat(a: seq<Step>, b: seq<Step>)
    ensures StopError(a + b) == if StopError(a).Some? then StopError(a) else StopError(b)
    decreases |a|
  {
    if a == [] {
      assert a + b == b;
    } else {
      assert (a + b)[1..] == a[1..] + b;
      StopErrorConcat(a[1..], b);
    }
  }

  lemma {:induction false} ErrorStopsFirst(steps: seq<Step>) returns (i: nat)
    requires StopError(steps).Some?
    ensures i < |steps| && steps[i] == Stop(StopError(steps).value) && forall j :: 0 <= j < i ==> !steps[j].Stop?
    decreases |steps|
  {
    if steps[0].Stop? {
      i := 0;
    } else {
      var k := ErrorStopsFirst(steps[1..]);
      i := k + 1;
      forall j | 0 <= j < i ensures !steps[j].Stop? {
        assert j > 0 ==> steps[1..][j - 1] == steps[j];
      }
    }
  }

  lemma ProfileErrors(c: Config, uid: nat, nodes: seq<ProfileNode>)
    requires StopError(ProfileSteps(c, uid, nodes)).Some?
    ensures exists i :: FaultyProfile(nodes, i, StopError(ProfileSteps(c, uid, nodes)).value)
  {
    var i := ErrorStopsFirst(ProfileSteps(c, uid, nodes));
    forall j | 0 <= j < i ensures CompleteProfile(nodes[j]) {
      assert !ProfileSteps(c, uid, nodes)[j].Stop?;
    }
    assert FaultyProfile(nodes, i, StopError(ProfileSteps(c, uid, nodes)).value);
  }

  lemma RuleErrors(c: Config, uid: nat, nodes: seq<RuleNode>)
    requires StopError(RuleSteps(c, uid, nodes)).Some?
    ensures exists i :: FaultyRule(nodes, i, StopError(RuleSteps(c, uid, nodes)).value)
  {
    var i := ErrorStopsFirst(RuleSteps(c, uid, nodes));
    forall j | 0 <= j < i ensures CompleteRule(nodes[j]) {
      assert !RuleSteps(c, uid, nodes)[j].Stop?;
    }
    assert FaultyRule(nodes, i, StopError(RuleSteps(c, uid, nodes)).value);
  }

  lemma ValueErrors(c: Config, uid: nat, nodes: seq<ValueNode>)
    requires StopError(ValueSteps(c, uid, nodes)).Some?
    ensures exists i :: FaultyValue(nodes, i, StopError(ValueSteps(c, uid, nodes)).value)
  {
    var i := ErrorStopsFirst(ValueSteps(c, uid, nodes));
    forall j | 0 <= j < i ensures CompleteValue(nodes[j]) {
      assert !ValueSteps(c, uid, nodes)[j].Stop?;
    }
    assert FaultyValue(nodes, i, StopError(ValueSteps(c, uid, nodes)).value);
  }

  lemma DocumentErrorNamesFirstFault(c: Config, uid: nat, d: Document)
    requires StopError(Steps(c, uid, d)).Some?
    ensures NamesFirstFault(d, StopError(Steps(c, uid, d)).value)
  {
    var ps, rs, vs := ProfileSteps(c, uid, d.profiles), RuleSteps(c, uid, d.rules), ValueSteps(c, uid, d.values);
    StopErrorConcat(ps, rs + vs);
    StopErrorConcat(rs, vs);
    if StopError(ps).Some? {
      ProfileErrors(c, uid, d.profiles);
    } else {
      StopErrorExactly(ps);
      ProfilesCompleteExactly(c, uid, d);
      if StopError(rs).Some? {
        RuleErrors(c, uid, d.rules);
      } else {
        StopErrorExactly(rs);
        RulesCompleteExactly(c, uid, d);
        ValueErrors(c, uid, d.values);
      }
    }
  }

  /** An undisturbed run over an incomplete document stores INVALID and names what the first incomplete node
      lacks; one over content that cannot be read says so, and gives the reason. */
  lemma FirstFaultIsStored(w: World, c: Config, content: Content)
    requires Calm(w) && BundleKey(c.ns, c.bundle) in w.store.objects
    requires content.Parsed? ==> !DocumentComplete(content.document)
    ensures var t := ImportContent(w, c, content).0.store;
      && BundleKey(c.ns, c.bundle) in t.objects
      && var status := StatusOf(t, BundleKey(c.ns, c.bundle));
      && status.state == BundleInvalid
      && match content
         case Unreadable(error) => status.message == "Couldn't read content file: " + error
         case Malformed(error) => status.message == "Couldn't read content XML: " + error
         case Parsed(d) => NamesFirstFault(d, status.message)
  {
    UndisturbedRun(w, c, content);
    if content.Parsed? {
      var uid := w.store.objects[BundleKey(c.ns, c.bundle)].uid;
      StopErrorExactly(Steps(c, uid, content.document));
      CompleteExactlyWhenNothingStops(c, uid, content.document);
      DocumentErrorNamesFirstFault(c, uid, content.document);
    }
  }

  /** Earlier runs, however they failed, have no say in the verdict of the complete run that ends them. */
  lemma CompleteRunDecidesVerdict(s: Store, c: Config, content: Content, attempts: seq<Attempt>)
    requires BundleKey(c.ns, c.bundle) in s.objects
    requires forall a <- attempts :: Quiet(WorldOf(s, a))
    ensures var bundle := BundleKey(c.ns, c.bundle);
      var t := Attempts(s, c, content, attempts + [UNINTERRUPTED]);
      && bundle in t.objects
      && (StatusOf(t, bundle).state == BundleValid <==> content.Parsed? && DocumentComplete(content.document))
  {
    var bundle := BundleKey(c.ns, c.bundle);
    var plan := Plan(StepsOf(c, s.objects[bundle].uid, content));
    assert ReachedSomehow(s, s, bundle, plan);
    AttemptsKeepSomehow(s, s, c, content, attempts, plan);
    AttemptsSnoc(s, c, content, attempts);
    ValidExactlyWhenComplete(WorldOf(Attempts(s, c, content, attempts), UNINTERRUPTED), c, content);
  }

  // --- what exists when VALID is stored ------------------------------------------------------

  /** Other writers may write anything at any time and calls may fail in any way, but no object of
      this kind is removed. */
  ghost predicate Keeps(w: World, kind: Kind) { forall e <- w.script :: KeepsKind(e.edits, kind) }

  ghost predicate KeepsKind(edits: seq<Edit>, kind: Kind) { forall e <- edits :: e.Remove? ==> e.key.kind != kind }

  lemma {:induction false} EditsKeepKind(s: Store, edits: seq<Edit>, k: Key)
    requires KeepsKind(edits, k.kind) && k in s.objects
    ensures k in ApplyEdits(s, edits).objects
    decreases |edits|
  {
    if edits != [] {
      assert edits[0] in edits;
      EditsKeepKind(ApplyEdit(s, edits[0]), edits[1..], k);
    }
  }

  lemma BeginKeepsKind(w: World, k: Key)
    requires Keeps(w, k.kind)
    ensures Keeps(Begin(w), k.kind)
    ensures k in w.store.objects ==> k in Begin(w).store.objects
  {
    if w.script != [] {
      assert w.script[0] in w.script;
      if k in w.store.objects {
        EditsKeepKind(w.store, w.script[0].edits, k);
      }
    }
  }

  /** After an attempt to create it an object is there, exactly unless it was missing and the call was
      refused; when the creation counts as done it is there. */
  lemma CreateLeavesKey(w: World, i: Item)
    ensures var r := CreateUnlessPresent(w, i);
      && (i.key in r.0.store.objects <==> i.key in Begin(w).store.objects || NextFault(w) != Refused)
      && (r.1 ==> i.key in r.0.store.objects)
      && r.0.script == Begin(w).script
      && Begin(w).store.objects.Keys <= r.0.store.objects.Keys
  {
  }

  lemma {:induction false} StepsKeepKind(w: World, steps: seq<Step>, k: Key)
    requires Keeps(w, k.kind)
    ensures Keeps(RunSteps(w, steps).0, k.kind)
    ensures k in w.store.objects ==> k in RunSteps(w, steps).0.store.objects
    decreases |steps|
  {
    if steps != [] {
      match steps[0] {
        case Stop(_) =>
        case Skip => StepsKeepKind(w, steps[1..], k);
        case Make(item, _) =>
          BeginKeepsKind(w, k);
          CreateLeavesKey(w, item);
          StepsKeepKind(CreateUnlessPresent(w, item).0, steps[1..], k);
      }
    }
  }

  /** Every required object is there when the steps end without an error. */
  lemma {:induction false} RequiredObjectsExist(w: World, steps: seq<Step>, i: nat)
    requires i < |steps| && steps[i].Make? && steps[i].required && Keeps(w, steps[i].item.key.kind)
    requires RunSteps(w, steps).1.None?
    ensures steps[i].item.key in RunSteps(w, steps).0.store.objects
    decreases |steps|
  {
    var k := steps[i].item.key;
    match steps[0] {
      case Skip => RequiredObjectsExist(w, steps[1..], i - 1);
      case Make(item, _) =>
        BeginKeepsKind(w, k);
        CreateLeavesKey(w, item);
        var t := CreateUnlessPresent(w, item).0;
        if i == 0 {
          StepsKeepKind(t, steps[1..], k);
        } else {
          RequiredObjectsExist(t, steps[1..], i - 1);
        }
    }
  }

  lemma {:induction false} NothingStopped(w: World, steps: seq<Step>)
    requires RunSteps(w, steps).1.None?
    ensures NeverStops(steps)
    decreases |steps|
  {
    if steps != [] {
      assert steps == [steps[0]] + steps[1..];
      match steps[0] {
        case Skip => NothingStopped(w, steps[1..]);
        case Make(item, _) => NothingStopped(CreateUnlessPresent(w, item).0, steps[1..]);
      }
    }
  }

  function ProfileKeyOf(c: Config, n: ProfileNode): Key {
    ProfileKey(c.ns, PrefixedName(c.bundle, ProfileNameFromID(n.id)))
  }

  function RuleKeyOf(c: Config, id: string): Key { RuleKey(c.ns, PrefixedName(c.bundle, RuleNameFromID(id))) }

  ghost predicate ProfilesStored(s: Store, c: Config, d: Document) {
    forall n <- d.profiles :: ProfileKeyOf(c, n) in s.objects
  }

  lemma ProfilesExist(w: World, c: Config, uid: nat, d: Document)
    requires Keeps(w, ProfileKind) && RunSteps(w, Steps(c, uid, d)).1.None?
    ensures ProfilesStored(RunSteps(w, Steps(c, uid, d)).0.store, c, d)
  {
    NothingStopped(w, Steps(c, uid, d));
    forall n <- d.profiles ensures ProfileKeyOf(c, n) in RunSteps(w, Steps(c, uid, d)).0.store.objects {
      var i :| 0 <= i < |d.profiles| && d.profiles[i] == n;
      ProfileStepMakes(c, uid, d, i);
      RequiredObjectsExist(w, Steps(c, uid, d), i);
    }
  }

  lemma ProfileStepMakes(c: Config, uid: nat, d: Document, i: nat)
    requires NeverStops(Steps(c, uid, d)) && i < |d.profiles|
    ensures var s := Steps(c, uid, d)[i];
      s.Make? && s.required && s.item.key == ProfileKeyOf(c, d.profiles[i])
  {
    assert Steps(c, uid, d)[i] == ProfileStep(c, uid, d.profiles[i]) && Steps(c, uid, d)[i] in Steps(c, uid, d);
  }

  /** The last thing done on the way from `w` to `t` was to store VALID. */
  ghost predicate JustStoredValid(w: World, t: World, bundle: Key) {
    && |t.log| > |w.log| && t.log[|t.log| - 1].Wrote? && t.log[|t.log| - 1].key == bundle
    && var o := t.log[|t.log| - 1].written;
    o.body.ProfileBundleBody? && o.body.bundleStatus.state == BundleValid
  }

  ghost predicate LastIsNoWrite(log: seq<Access>) { log != [] && !log[|log| - 1].Wrote? }

  lemma {:induction false} StepsDoNotWrite(w: World, steps: seq<Step>)
    requires LastIsNoWrite(w.log)
    ensures LastIsNoWrite(RunSteps(w, steps).0.log)
    decreases |steps|
  {
    if steps != [] {
      match steps[0] {
        case Stop(_) =>
        case Skip => StepsDoNotWrite(w, steps[1..]);
        case Make(item, _) => StepsDoNotWrite(CreateUnlessPresent(w, item).0, steps[1..]);
      }
    }
  }

  lemma VerdictInLog(w: World, w0: World, c: Config, pb: Object, error: Option<string>)
    requires LastIsNoWrite(w.log) && pb.body.ProfileBundleBody?
    requires JustStoredValid(w0, StoreVerdict(w, c, pb, error).0, BundleKey(c.ns, c.bundle))
    ensures error.None?
  {
  }

  /** A run that stores VALID has read the bundle. */
  lemma ValidComesAfterRead(w: World, c: Config, content: Content) returns (got: World, pb: Object)
    requires JustStoredValid(w, ImportContent(w, c, content).0, BundleKey(c.ns, c.bundle))
    ensures got == Get(w, BundleKey(c.ns, c.bundle)).0 && pb.body.ProfileBundleBody? && LastIsNoWrite(got.log)
    ensures ImportContent(w, c, content) == ImportInto(got, c, pb, content)
  {
    var r := Get(w, BundleKey(c.ns, c.bundle));
    FailedReadIsNotValid(w, c, content);
    BundlesAreBundles(w, c);
    got, pb := r.0, r.1.value;
  }

  lemma BundlesAreBundles(w: World, c: Config)
    ensures var r := Get(w, BundleKey(c.ns, c.bundle)); r.1.Ok? ==> r.1.value.body.ProfileBundleBody?
  {
  }

  lemma FailedReadIsNotValid(w: World, c: Config, content: Content)
    ensures Get(w, BundleKey(c.ns, c.bundle)).1.Err? ==>
      !JustStoredValid(w, ImportContent(w, c, content).0, BundleKey(c.ns, c.bundle))
  {
  }

  /** Whatever others write and however calls fail, VALID is stored for complete documents only, and at
      the moment it is stored every profile of the document is in the store. */
  lemma ValidMeansEveryProfileExists(w: World, c: Config, content: Content)
    requires Keeps(w, ProfileKind)
    requires JustStoredValid(w, ImportContent(w, c, content).0, BundleKey(c.ns, c.bundle))
    ensures content.Parsed? && DocumentComplete(content.document)
    ensures ProfilesStored(ImportContent(w, c, content).0.store, c, content.document)
  {
    var got, pb := ValidComesAfterRead(w, c, content);
    BeginKeepsKind(w, ProfileKey("", ""));
    assert Keeps(got, ProfileKind);
    var t := ImportInto(got, c, pb, content).0;
    ValidInto(w, got, c, pb, content, t);
  }

  lemma ValidInto(w0: World, w: World, c: Config, pb: Object, content: Content, t: World)
    requires LastIsNoWrite(w.log) && pb.body.ProfileBundleBody? && Keeps(w, ProfileKind)
    requires t == ImportInto(w, c, pb, content).0 && JustStoredValid(w0, t, BundleKey(c.ns, c.bundle))
    ensures content.Parsed? && DocumentComplete(content.document)
    ensures ProfilesStored(t.store, c, content.document)
  {
    ValidAfterRead(w0, w, c, pb, content);
    ProfilesStayUntilVerdict(w, c, pb, content.document);
  }

  lemma ValidAfterRead(w0: World, w: World, c: Config, pb: Object, content: Content)
    requires LastIsNoWrite(w.log) && pb.body.ProfileBundleBody?
    requires JustStoredValid(w0, ImportInto(w, c, pb, content).0, BundleKey(c.ns, c.bundle))
    ensures content.Parsed? && DocumentComplete(content.document)
    ensures RunSteps(w, Steps(c, pb.uid, content.document)).1.None?
  {
    match content {
      case Unreadable(error) => VerdictInLog(w, w0, c, pb, Some("Couldn't read content file: " + error));
      case Malformed(error) => VerdictInLog(w, w0, c, pb, Some("Couldn't read content XML: " + error));
      case Parsed(d) =>
        var done := RunSteps(w, Steps(c, pb.uid, d));
        StepsDoNotWrite(w, Steps(c, pb.uid, d));
        VerdictInLog(done.0, w0, c, pb, done.1);
        NothingStopped(w, Steps(c, pb.uid, d));
        CompleteExactlyWhenNothingStops(c, pb.uid, d);
    }
  }

  lemma ProfilesStayUntilVerdict(w: World, c: Config, pb: Object, d: Document)
    requires Keeps(w, ProfileKind) && pb.body.ProfileBundleBody?
    requires RunSteps(w, Steps(c, pb.uid, d)).1.None?
    ensures var done := RunSteps(w, Steps(c, pb.uid, d)).0;
      ProfilesStored(StoreVerdict(done, c, pb, None).0.store, c, d)
  {
    ProfilesExist(w, c, pb.uid, d);
    StepsKeepKind(w, Steps(c, pb.uid, d), ProfileKey("", ""));
    VerdictKeepsProfiles(RunSteps(w, Steps(c, pb.uid, d)).0, c, pb, d);
  }

  lemma VerdictKeepsProfiles(w: World, c: Config, pb: Object, d: Document)
    requires Keeps(w, ProfileKind) && pb.body.ProfileBundleBody? && ProfilesStored(w.store, c, d)
    ensures ProfilesStored(StoreVerdict(w, c, pb, None).0.store, c, d)
  {
    forall n <- d.profiles ensures ProfileKeyOf(c, n) in Begin(w).store.objects {
      BeginKeepsKind(w, ProfileKeyOf(c, n));
    }
  }

  // --- failures that are swallowed -----------------------------------------------------------

  /** When no creation is required, the error the steps end with does not depend on failures at all. */
  lemma {:induction false} OptionalFailuresAreSwallowed(w: World, steps: seq<Step>)
    requires forall s <- steps :: s.Make? ==> !s.required
    ensures RunSteps(w, steps).1 == StopError(steps)
    decreases |steps|
  {
    if steps != [] {
      assert steps[0] in steps;
      match steps[0] {
        case Stop(_) =>
        case Skip => OptionalFailuresAreSwallowed(w, steps[1..]);
        case Make(item, _) => OptionalFailuresAreSwallowed(CreateUnlessPresent(w, item).0, steps[1..]);
      }
    }
  }

  /** Some step that is reached asks for an object under `k`, and its creation is not refused. */
  ghost predicate Tried(w: World, steps: seq<Step>, k: Key)
    decreases |steps|
  {
    steps != [] &&
    match steps[0]
    case Stop(_) => false
    case Skip => Tried(w, steps[1..], k)
    case Make(item, required) =>
      var r := CreateUnlessPresent(w, item);
      || (item.key == k && NextFault(w) != Refused)
      || ((r.1 || !required) && Tried(r.0, steps[1..], k))
  }

  /** Among no other writers the steps leave exactly the objects that were there or were tried. */
  lemma {:induction false} StoredExactlyWhenTried(w: World, steps: seq<Step>, k: Key)
    requires Quiet(w)
    ensures Quiet(RunSteps(w, steps).0)
    ensures k in RunSteps(w, steps).0.store.objects <==> k in w.store.objects || Tried(w, steps, k)
    decreases |steps|
  {
    if steps != [] {
      match steps[0] {
        case Stop(_) =>
        case Skip => StoredExactlyWhenTried(w, steps[1..], k);
        case Make(item, required) =>
          QuietCall(w);
          CreateLeavesKey(w, item);
          QuietCreate(w, item);
          var r := CreateUnlessPresent(w, item);
          assert k in r.0.store.objects <==> k in w.store.objects || (item.key == k && NextFault(w) != Refused);
          if r.1 || !required {
            StoredExactlyWhenTried(r.0, steps[1..], k);
          }
      }
    }
  }

  /** What a run tries: nothing unless it can read the bundle and its content. */
  ghost predicate TriedByRun(w: World, c: Config, content: Content, k: Key) {
    var got := Get(w, BundleKey(c.ns, c.bundle));
    got.1.Ok? && content.Parsed? && Tried(got.0, Steps(c, got.1.value.uid, content.document), k)
  }

  /** Whatever fails, a run among no other writers leaves exactly the objects that were there or that it
      tried to create without being refused. */
  lemma RunStoresExactlyWhatItTried(w: World, c: Config, content: Content, k: Key)
    requires Quiet(w)
    ensures k in ImportContent(w, c, content).0.store.objects <==>
      k in w.store.objects || TriedByRun(w, c, content, k)
  {
    QuietCall(w);
    var got := Get(w, BundleKey(c.ns, c.bundle));
    if got.1.Ok? {
      IntoStoresExactlyWhatItTried(got.0, c, got.1.value, content, k);
    }
  }

  lemma IntoStoresExactlyWhatItTried(w: World, c: Config, pb: Object, content: Content, k: Key)
    requires Quiet(w) && pb.body.ProfileBundleBody?
    ensures k in ImportInto(w, c, pb, content).0.store.objects <==>
      k in w.store.objects || (content.Parsed? && Tried(w, Steps(c, pb.uid, content.document), k))
  {
    match content {
      case Unreadable(error) => VerdictKeepsKeySet(w, c, pb, Some("Couldn't read content file: " + error));
      case Malformed(error) => VerdictKeepsKeySet(w, c, pb, Some("Couldn't read content XML: " + error));
      case Parsed(d) =>
        StoredExactlyWhenTried(w, Steps(c, pb.uid, d), k);
        var done := RunSteps(w, Steps(c, pb.uid, d));
        VerdictKeepsKeySet(done.0, c, pb, done.1);
    }
  }

  lemma VerdictKeepsKeySet(w: World, c: Config, pb: Object, error: Option<string>)
    requires Quiet(w) && pb.body.ProfileBundleBody?
    ensures StoreVerdict(w, c, pb, error).0.store.objects.Keys == w.store.objects.Keys
  {
    QuietCall(w);
  }

  /** Every rule of the document is stored under its name; and every variable: those values that are
      shown and whose default is unambiguous. */
  ghost predicate RulesStored(s: Store, c: Config, d: Document) {
    forall n <- d.rules :: RuleKeyOf(c, n.id) in s.objects
  }

  ghost predicate VariablesStored(s: Store, c: Config, d: Document) {
    forall n <- d.values :: MakesVariable(n) ==> VariableKeyOf(c, n.id) in s.objects
  }

  function VariableKeyOf(c: Config, id: string): Key {
    VariableKey(c.ns, PrefixedName(c.bundle, VariableNameFromID(id)))
  }

  ghost predicate MakesVariable(n: ValueNode) {
    n.hidden != "true" && n.id != "" && n.title.Some? && VariableOf(n).Some?
  }

  /** VALID alone does not mean that every rule and every variable exists. A run among no other writers
      that stores VALID leaves them all exactly when each name that was missing had at least one
      creation that was not refused. */
  lemma ValidMeansEverythingExistsExactly(w: World, c: Config, content: Content)
    requires Quiet(w)
    requires JustStoredValid(w, ImportContent(w, c, content).0, BundleKey(c.ns, c.bundle))
    ensures content.Parsed? && DocumentComplete(content.document)
    ensures var t, d := ImportContent(w, c, content).0.store, content.document;
      && ProfilesStored(t, c, d)
      && (RulesStored(t, c, d) <==>
            forall n <- d.rules ::
              RuleKeyOf(c, n.id) in w.store.objects || TriedByRun(w, c, content, RuleKeyOf(c, n.id)))
      && (VariablesStored(t, c, d) <==>
            forall n <- d.values | MakesVariable(n) ::
              VariableKeyOf(c, n.id) in w.store.objects || TriedByRun(w, c, content, VariableKeyOf(c, n.id)))
  {
    QuietKeeps(w, ProfileKind);
    ValidMeansEveryProfileExists(w, c, content);
    forall k: Key ensures k in ImportContent(w, c, content).0.store.objects <==>
      k in w.store.objects || TriedByRun(w, c, content, k)
    {
      RunStoresExactlyWhatItTried(w, c, content, k);
    }
  }

  lemma QuietKeeps(w: World, kind: Kind)
    requires Quiet(w)
    ensures Keeps(w, kind)
  {
  }

  /** One refused creation is enough to have VALID without the rule. */
  lemma ValidWithoutRule(s: Store, c: Config, n: RuleNode)
    requires BundleKey(c.ns, c.bundle) in s.objects && RuleKeyOf(c, n.id) !in s.objects
    requires n.id != "" && n.title.Some?
    ensures var w := World(s, [Event([], Healthy), Event([], Refused)], Healthy, []);
      var t := ImportContent(w, c, Parsed(Document([], [n], []))).0.store;
      && BundleKey(c.ns, c.bundle) in t.objects && StatusOf(t, BundleKey(c.ns, c.bundle)).state == BundleValid
      && RuleKeyOf(c, n.id) !in t.objects
  {
    var bundle := BundleKey(c.ns, c.bundle);
    var w := World(s, [Event([], Healthy), Event([], Refused)], Healthy, []);
    var got := Get(w, bundle).0;
    assert got.script == [Event([], Refused)];
    OneRule(c, s.objects[bundle].uid, n);
    OneRefusedCreation(got, RuleItem(c, s.objects[bundle].uid, n));
  }

  lemma OneRule(c: Config, uid: nat, n: RuleNode)
    requires n.id != "" && n.title.Some?
    ensures Steps(c, uid, Document([], [n], [])) == [Make(RuleItem(c, uid, n), false)]
  {
  }

  lemma OneRefusedCreation(w: World, i: Item)
    requires w.script == [Event([], Refused)]
    ensures RunSteps(w, [Make(i, false)]) == (w.(script := []), None)
  {
    assert [Make(i, false)][1..] == [];
    var r := CreateUnlessPresent(w, i);
    assert r == (w.(script := []), false);
    assert RunSteps(r.0, []) == (r.0, None);
  }
}
