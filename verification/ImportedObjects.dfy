/** The objects a complete import leaves: their names, owners and annotations, and the references
    between them. */
module ImportedObjects {
  import opened ApiTypes
  import opened ApiStore
  import opened Xccdf
  import opened Datastream
  import opened Annotations
  import opened FixParser
  import opened VariableParser
  import opened Import
  import opened ImportRestart
  import opened ImportResults

  // --- what a plan is made of ----------------------------------------------------------------

  /** A step that no earlier step keeps from being reached is part of the plan. */
  lemma {:induction false} ReachedStepIsPlanned(steps: seq<Step>, i: nat)
    requires i < |steps| && steps[i].Make? && forall j :: 0 <= j < i ==> !steps[j].Stop?
    ensures steps[i].item in Plan(steps)
    decreases |steps|
  {
    if i > 0 {
      assert !steps[0].Stop?;
      forall j | 0 <= j < i - 1 ensures !steps[1..][j].Stop? {
        assert steps[1..][j] == steps[j + 1];
      }
      ReachedStepIsPlanned(steps[1..], i - 1);
    }
  }

  lemma {:induction false} PlannedComesFromStep(steps: seq<Step>, item: Item) returns (i: nat)
    requires item in Plan(steps)
    ensures i < |steps| && steps[i].Make? && steps[i].item == item
    decreases |steps|
  {
    if steps[0].Make? && steps[0].item == item {
      i := 0;
    } else {
      i := PlannedComesFromStep(steps[1..], item);
      i := i + 1;
    }
  }

  lemma MadeKinds(c: Config, uid: nat)
    ensures forall n :: ProfileStep(c, uid, n).Make? ==> ProfileStep(c, uid, n).item.key.kind == ProfileKind
    ensures forall n :: RuleStep(c, uid, n).Make? ==> RuleStep(c, uid, n).item.key.kind == RuleKind
    ensures forall n :: ValueStep(c, uid, n).Make? ==> ValueStep(c, uid, n).item.key.kind == VariableKind
  {
  }

  /** Which node of the document a step belongs to, and what kind of object it makes. */
  lemma StepAt(c: Config, uid: nat, d: Document, i: nat)
    requires i < |Steps(c, uid, d)| && Steps(c, uid, d)[i].Make?
    ensures var s, p, r := Steps(c, uid, d)[i], |d.profiles|, |d.rules|;
      if i < p then s == ProfileStep(c, uid, d.profiles[i]) && s.item.key.kind == ProfileKind
      else if i < p + r then s == RuleStep(c, uid, d.rules[i - p]) && s.item.key.kind == RuleKind
      else s.item.key.kind == VariableKind
  {
    var ps, rs, vs := ProfileSteps(c, uid, d.profiles), RuleSteps(c, uid, d.rules), ValueSteps(c, uid, d.values);
    MadeKinds(c, uid);
    ConcatAt(ps, rs, vs, i);
  }

  lemma ConcatAt(a: seq<Step>, b: seq<Step>, c: seq<Step>, i: nat)
    requires i < |a| + |b| + |c|
    ensures (a + (b + c))[i] == if i < |a| then a[i] else if i < |a| + |b| then b[i - |a|] else c[i - |a| - |b|]
  {
  }

  /** A planned rule was made of a rule node of the document. */
  lemma PlannedRule(c: Config, uid: nat, d: Document, item: Item) returns (n: RuleNode)
    requires item in Plan(Steps(c, uid, d)) && item.key.kind == RuleKind
    ensures n in d.rules && n.title.Some? && n.id != "" && item == RuleItem(c, uid, n)
  {
    var i := PlannedComesFromStep(Steps(c, uid, d), item);
    StepAt(c, uid, d, i);
    n := d.rules[i - |d.profiles|];
  }

  lemma PlannedProfile(c: Config, uid: nat, d: Document, item: Item) returns (n: ProfileNode)
    requires item in Plan(Steps(c, uid, d)) && item.key.kind == ProfileKind
    ensures n in d.profiles && n.title.Some? && n.description.Some? && item == ProfileItem(c, uid, n)
  {
    var i := PlannedComesFromStep(Steps(c, uid, d), item);
    StepAt(c, uid, d, i);
    n := d.profiles[i];
  }

  lemma NothingStopsTheRules(c: Config, uid: nat, d: Document)
    requires ProfilesComplete(d) && RulesComplete(d)
    ensures forall j :: 0 <= j < |d.profiles| + |d.rules| ==> !Steps(c, uid, d)[j].Stop?
  {
    forall j | 0 <= j < |d.profiles| + |d.rules| ensures !Steps(c, uid, d)[j].Stop? {
      EarlyStepDoesNotStop(c, uid, d, j);
    }
  }

  lemma EarlyStepDoesNotStop(c: Config, uid: nat, d: Document, j: nat)
    requires ProfilesComplete(d) && RulesComplete(d) && j < |d.profiles| + |d.rules|
    ensures !Steps(c, uid, d)[j].Stop?
  {
    if j < |d.profiles| {
      ProfileStepDoesNotStop(c, uid, d, j);
    } else {
      RuleStepMakes(c, uid, d, j - |d.profiles|);
    }
  }

  lemma ProfileStepDoesNotStop(c: Config, uid: nat, d: Document, p: nat)
    requires ProfilesComplete(d) && p < |d.profiles|
    ensures !Steps(c, uid, d)[p].Stop?
  {
    assert CompleteProfile(d.profiles[p]);
    ConcatAt(ProfileSteps(c, uid, d.profiles), RuleSteps(c, uid, d.rules), ValueSteps(c, uid, d.values), p);
  }

  lemma RuleStepMakes(c: Config, uid: nat, d: Document, r: nat)
    requires RulesComplete(d) && r < |d.rules|
    ensures d.rules[r].title.Some?
    ensures Steps(c, uid, d)[|d.profiles| + r] == Make(RuleItem(c, uid, d.rules[r]), false)
  {
    assert CompleteRule(d.rules[r]);
    ConcatAt(ProfileSteps(c, uid, d.profiles), RuleSteps(c, uid, d.rules), ValueSteps(c, uid, d.values),
      |d.profiles| + r);
  }

  /** When profiles and rules are complete every rule of the document is planned. */
  lemma RuleIsPlanned(c: Config, uid: nat, d: Document, n: RuleNode)
    requires ProfilesComplete(d) && RulesComplete(d) && n in d.rules
    ensures RuleItem(c, uid, n) in Plan(Steps(c, uid, d))
  {
    var r :| 0 <= r < |d.rules| && d.rules[r] == n;
    NothingStopsTheRules(c, uid, d);
    RuleStepMakes(c, uid, d, r);
    ReachedStepIsPlanned(Steps(c, uid, d), |d.profiles| + r);
  }

  // --- imported rules --------------------------------------------------------------------------

  /** A rule as the import of a bundle makes it: its name is the bundle's name, "-", and its rule
      annotation, which is the normalised ID; the bundle controls it; and the rule annotation has not
      displaced any control annotation. */
  ghost predicate MadeFrom(c: Config, uid: nat, key: Key, o: Object, n: RuleNode) {
    && o.body.RuleBody? && o.owners == BundleOwners(c.bundle, uid)
    && var rule := o.body.rule;
    var controls := AnnotationsFor(Hits(n.references, c.standards), REGISTERED_FORMATTERS);
    && rule.id == n.id && Some(rule.title) == n.title && rule.fixes == FixesOf(n.fixes)
    && RULE_ID_ANNOTATION_KEY in rule.annotations
    && rule.annotations[RULE_ID_ANNOTATION_KEY] == RuleNameFromID(n.id)
    && key == RuleKey(c.ns, PrefixedName(c.bundle, rule.annotations[RULE_ID_ANNOTATION_KEY]))
    && RULE_ID_ANNOTATION_KEY !in controls
    && rule.annotations.Keys == controls.Keys + {RULE_ID_ANNOTATION_KEY}
    && (forall a <- controls :: rule.annotations[a] == controls[a])
  }

  lemma RuleItemIsMadeFrom(c: Config, uid: nat, n: RuleNode, o: Object)
    requires n.title.Some? && Holds(o, RuleItem(c, uid, n))
    ensures MadeFrom(c, uid, RuleItem(c, uid, n).key, o, n)
  {
    AnnotationKeys(Hits(n.references, c.standards));
  }

  ghost predicate MadeFromSome(c: Config, uid: nat, key: Key, o: Object, d: Document) {
    exists n <- d.rules :: MadeFrom(c, uid, key, o, n)
  }

  /** Every new Rule object in the store after an import, however interrupted, was made from a rule of
      the document. */
  lemma NewRulesAreMadeFromTheDocument(s0: Store, s: Store, c: Config, uid: nat, d: Document, k: Key)
    requires Reached(s0, s, BundleKey(c.ns, c.bundle), Plan(Steps(c, uid, d)))
    requires k in s.objects && k !in s0.objects && k.kind == RuleKind
    ensures MadeFromSome(c, uid, k, s.objects[k], d)
  {
    var plan := Plan(Steps(c, uid, d));
    var o := s.objects[k];
    assert FirstOfPlan(plan, k, o);
    var j :| 0 <= j < |plan| && IsFirst(plan, j) && plan[j].key == k && Holds(o, plan[j]);
    var n := PlannedRule(c, uid, d, plan[j]);
    RuleItemIsMadeFrom(c, uid, n, o);
  }

  // --- imported profiles and variables ---------------------------------------------------------

  /** The selected rules of a profile are taken one select element after the other. */
  lemma {:induction false} SelectionsInDocumentOrder(c: Config, a: seq<SelectNode>, b: seq<SelectNode>)
    ensures SelectedRules(c, a + b) == SelectedRules(c, a) + SelectedRules(c, b)
    decreases |b|
  {
    if b == [] {
      assert a + b == a;
    } else {
      assert (a + b)[..|a + b| - 1] == a + b[..|b| - 1];
      SelectionsInDocumentOrder(c, a, b[..|b| - 1]);
    }
  }

  /** A profile as the import of a bundle makes it. */
  ghost predicate ProfileMadeFrom(c: Config, uid: nat, key: Key, o: Object, n: ProfileNode) {
    && o.body.ProfileBody? && o.owners == BundleOwners(c.bundle, uid) && key == ProfileKeyOf(c, n)
    && var p := o.body.profile;
    && p.id == n.id && Some(p.title) == n.title && Some(p.description) == n.description
    && p.rules == SelectedRules(c, n.selects)
    && p.values == SelectedValues(n.setValues)
  }

  ghost predicate ProfileMadeFromSome(c: Config, uid: nat, key: Key, o: Object, d: Document) {
    exists n <- d.profiles :: ProfileMadeFrom(c, uid, key, o, n)
  }

  /** Every new Profile object was made from a profile of the document. */
  lemma NewProfilesAreMadeFromTheDocument(s0: Store, s: Store, c: Config, uid: nat, d: Document, k: Key)
    requires Reached(s0, s, BundleKey(c.ns, c.bundle), Plan(Steps(c, uid, d)))
    requires k in s.objects && k !in s0.objects && k.kind == ProfileKind
    ensures ProfileMadeFromSome(c, uid, k, s.objects[k], d)
  {
    var plan := Plan(Steps(c, uid, d));
    assert FirstOfPlan(plan, k, s.objects[k]);
    var j :| 0 <= j < |plan| && IsFirst(plan, j) && plan[j].key == k && Holds(s.objects[k], plan[j]);
    var n := PlannedProfile(c, uid, d, plan[j]);
    assert ProfileMadeFrom(c, uid, k, s.objects[k], n);
  }

  /** A variable as the import of a bundle makes it: at most one default that is not empty, and that the
      last; the choices in document order. */
  ghost predicate VariableMadeFrom(c: Config, uid: nat, key: Key, o: Object, n: ValueNode) {
    && o.body.VariableBody? && o.owners == BundleOwners(c.bundle, uid)
    && key == VariableKey(c.ns, PrefixedName(c.bundle, VariableNameFromID(n.id)))
    && n.hidden != "true" && OneDefault(Defaults(n.items))
    && var v := o.body.variable;
    && v.id == n.id && Some(v.title) == n.title && v.varType == TypeOf(n.typeAttribute)
    && v.selections == Choices(n.items)
    && v.value == if Defaults(n.items) == [] then "" else Defaults(n.items)[|Defaults(n.items)| - 1]
  }

  ghost predicate VariableMadeFromSome(c: Config, uid: nat, key: Key, o: Object, d: Document) {
    exists n <- d.values :: VariableMadeFrom(c, uid, key, o, n)
  }

  lemma ValueStepMakes(c: Config, uid: nat, n: ValueNode, o: Object)
    requires ValueStep(c, uid, n).Make? && Holds(o, ValueStep(c, uid, n).item)
    ensures VariableMadeFrom(c, uid, ValueStep(c, uid, n).item.key, o, n)
  {
    var defaults := [""] + Defaults(n.items);
    assert OneDefault(defaults);
    forall i | 0 <= i < |Defaults(n.items)| - 1 ensures Defaults(n.items)[i] == "" {
      assert defaults[i + 1] == Defaults(n.items)[i];
    }
  }

  /** Every new Variable object was made from a value of the document. */
  lemma NewVariablesAreMadeFromTheDocument(s0: Store, s: Store, c: Config, uid: nat, d: Document, k: Key)
    requires Reached(s0, s, BundleKey(c.ns, c.bundle), Plan(Steps(c, uid, d)))
    requires k in s.objects && k !in s0.objects && k.kind == VariableKind
    ensures VariableMadeFromSome(c, uid, k, s.objects[k], d)
  {
    var plan := Plan(Steps(c, uid, d));
    assert FirstOfPlan(plan, k, s.objects[k]);
    var j :| 0 <= j < |plan| && IsFirst(plan, j) && plan[j].key == k && Holds(s.objects[k], plan[j]);
    var i := PlannedComesFromStep(Steps(c, uid, d), plan[j]);
    var n := MadeValue(c, uid, d, i);
    ValueStepMakes(c, uid, n, s.objects[k]);
  }

  lemma MadeValue(c: Config, uid: nat, d: Document, i: nat) returns (n: ValueNode)
    requires i < |Steps(c, uid, d)| && Steps(c, uid, d)[i].Make? && Steps(c, uid, d)[i].item.key.kind == VariableKind
    ensures n in d.values && Steps(c, uid, d)[i] == ValueStep(c, uid, n)
  {
    StepAt(c, uid, d, i);
    n := d.values[i - |d.profiles| - |d.rules|];
  }

  // --- references between imported objects -----------------------------------------------------

  lemma {:induction false} SelectedRulesExactly(c: Config, selects: seq<SelectNode>, name: string)
    ensures name in SelectedRules(c, selects) <==>
      exists s <- selects ::
        s.idref != "" && s.selected == "true" && name == PrefixedName(c.bundle, RuleNameFromID(s.idref))
  {
    if selects != [] {
      assert selects == selects[..|selects| - 1] + [selects[|selects| - 1]];
      SelectedRulesExactly(c, selects[..|selects| - 1], name);
    }
  }

  /** Every rule that a profile selects is in the document. */
  ghost predicate SelectionsAreRules(d: Document) {
    forall p <- d.profiles :: forall s <- p.selects :: s.idref != "" && s.selected == "true" ==> IsRule(d, s.idref)
  }

  ghost predicate IsRule(d: Document, id: string) { exists n <- d.rules :: n.id == id }

  ghost predicate ListsRule(o: Object, name: string) { o.body.ProfileBody? && name in o.body.profile.rules }

  /** After a complete import each name in the rule list of a new Profile is the name of a stored Rule,
      even when several IDs have the same name. */
  lemma ProfilesReferToExistingRules(s0: Store, s: Store, c: Config, uid: nat, d: Document, k: Key, name: string)
    requires Imported(s0, s, BundleKey(c.ns, c.bundle), Plan(Steps(c, uid, d)))
    requires ProfilesComplete(d) && RulesComplete(d) && SelectionsAreRules(d)
    requires k in s.objects && k !in s0.objects && ListsRule(s.objects[k], name)
    ensures RuleKey(c.ns, name) in s.objects
  {
    var plan := Plan(Steps(c, uid, d));
    assert FirstOfPlan(plan, k, s.objects[k]);
    var j :| 0 <= j < |plan| && IsFirst(plan, j) && plan[j].key == k && Holds(s.objects[k], plan[j]);
    var p := PlannedProfile(c, uid, d, plan[j]);
    SelectedRulesExactly(c, p.selects, name);
    var select :| select in p.selects && select.idref != "" && select.selected == "true"
      && name == PrefixedName(c.bundle, RuleNameFromID(select.idref));
    assert IsRule(d, select.idref);
    var n :| n in d.rules && n.id == select.idref;
    RuleIsPlanned(c, uid, d, n);
    assert RuleItem(c, uid, n).key == RuleKey(c.ns, name);
  }
}
