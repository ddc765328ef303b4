/** From a datastream to a tailoring: which IDs come out for the rule names that go in, and why the
    select elements mean the same in every order. */
module EndToEnd {
  import opened ApiTypes
  import opened ApiStore
  import opened Text
  import opened Xccdf
  import opened Datastream
  import opened Import
  import opened ImportRestart
  import opened ImportResults
  import opened ImportedObjects
  import opened TailoredProfileReconcile
  import opened TailoredProfileConvergence
  import opened TailoredProfileOutcomes
  import Publication = TailoredProfilePublication

  // --- which rule of the document a name stands for ----------------------------------------------

  lemma PrefixedNameInjective(bundle: string, a: string, b: string)
    ensures PrefixedName(bundle, a) == PrefixedName(bundle, b) <==> a == b
  {
    assert PrefixedName(bundle, a)[|bundle| + 1..] == a;
    assert PrefixedName(bundle, b)[|bundle| + 1..] == b;
  }

  /** The first planned object of a name comes from the first step that makes one of that name. */
  lemma {:induction false} FirstPlannedIsFirstMade(steps: seq<Step>, j: nat) returns (i: nat)
    requires IsFirst(Plan(steps), j)
    ensures i < |steps| && steps[i].Make? && steps[i].item == Plan(steps)[j]
    ensures forall h :: 0 <= h < i && steps[h].Make? ==> steps[h].item.key != Plan(steps)[j].key
    decreases |steps|
  {
    var plan := Plan(steps);
    if steps[0].Make? && j == 0 {
      i := 0;
    } else {
      var rest := Plan(steps[1..]);
      var k := if steps[0].Make? then j - 1 else j;
      assert plan == (if steps[0].Make? then [steps[0].item] else []) + rest;
      forall h | 0 <= h < k ensures rest[h].key != rest[k].key {
        assert plan[if steps[0].Make? then h + 1 else h] == rest[h];
      }
      var l := FirstPlannedIsFirstMade(steps[1..], k);
      i := l + 1;
      forall h | 0 <= h < i && steps[h].Make? ensures steps[h].item.key != plan[j].key {
        if h > 0 {
          assert steps[1..][h - 1] == steps[h];
        } else {
          assert plan[0] == steps[0].item;
        }
      }
    }
  }

  /** The first rule of the document with the normalised name of `id`. */
  function FirstNamed(rules: seq<RuleNode>, id: string): (r: Option<RuleNode>)
    ensures r.Some? ==> r.value in rules && RuleNameFromID(r.value.id) == RuleNameFromID(id)
  {
    if rules == [] then None
    else if RuleNameFromID(rules[0].id) == RuleNameFromID(id) then Some(rules[0])
    else FirstNamed(rules[1..], id)
  }

  lemma {:induction false} FirstNamedAt(rules: seq<RuleNode>, id: string, r: nat)
    requires r < |rules| && RuleNameFromID(rules[r].id) == RuleNameFromID(id)
    requires forall h :: 0 <= h < r ==> RuleNameFromID(rules[h].id) != RuleNameFromID(id)
    ensures FirstNamed(rules, id) == Some(rules[r])
    decreases |rules|
  {
    if r > 0 {
      assert RuleNameFromID(rules[0].id) != RuleNameFromID(id);
      forall h | 0 <= h < r - 1 ensures RuleNameFromID(rules[1..][h].id) != RuleNameFromID(id) {
        assert rules[1..][h] == rules[h + 1];
      }
      FirstNamedAt(rules[1..], id, r - 1);
    }
  }

  /** The rule stored under a name is the document's first rule of that name. */
  ghost predicate CarriesFirstId(d: Document, id: string, o: Object) {
    && o.body.RuleBody? && FirstNamed(d.rules, id).Some?
    && o.body.rule.id == FirstNamed(d.rules, id).value.id
  }

  /** After a complete import a new Rule carries the ID of the first rule of the document with its name. */
  lemma NewRuleIsTheFirstNamed(s0: Store, s: Store, c: Config, uid: nat, d: Document, id: string)
    requires Imported(s0, s, BundleKey(c.ns, c.bundle), Plan(Steps(c, uid, d)))
    requires RulesComplete(d) && RuleKeyOf(c, id) in s.objects && RuleKeyOf(c, id) !in s0.objects
    ensures CarriesFirstId(d, id, s.objects[RuleKeyOf(c, id)])
  {
    var k, plan := RuleKeyOf(c, id), Plan(Steps(c, uid, d));
    assert FirstOfPlan(plan, k, s.objects[k]);
    var j :| 0 <= j < |plan| && IsFirst(plan, j) && plan[j].key == k && Holds(s.objects[k], plan[j]);
    FirstPlannedRule(c, uid, d, id, j);
  }

  /** The first planned object named like a rule of this ID was made of the document's first such rule. */
  lemma FirstPlannedRule(c: Config, uid: nat, d: Document, id: string, j: nat)
    requires RulesComplete(d) && IsFirst(Plan(Steps(c, uid, d)), j) && Plan(Steps(c, uid, d))[j].key == RuleKeyOf(c, id)
    ensures FirstNamed(d.rules, id).Some? && FirstNamed(d.rules, id).value.title.Some?
    ensures Plan(Steps(c, uid, d))[j] == RuleItem(c, uid, FirstNamed(d.rules, id).value)
  {
    var i := FirstPlannedIsFirstMade(Steps(c, uid, d), j);
    StepAt(c, uid, d, i);
    FirstMadeRuleIsFirstNamed(c, uid, d, id, i - |d.profiles|);
  }

  lemma FirstMadeRuleIsFirstNamed(c: Config, uid: nat, d: Document, id: string, r: nat)
    requires RulesComplete(d) && r < |d.rules| && RuleKeyOf(c, d.rules[r].id) == RuleKeyOf(c, id)
    requires forall h :: 0 <= h < |d.profiles| + r && Steps(c, uid, d)[h].Make? ==>
      Steps(c, uid, d)[h].item.key != RuleKeyOf(c, id)
    ensures FirstNamed(d.rules, id) == Some(d.rules[r])
  {
    PrefixedNameInjective(c.bundle, RuleNameFromID(d.rules[r].id), RuleNameFromID(id));
    forall h | 0 <= h < r ensures RuleNameFromID(d.rules[h].id) != RuleNameFromID(id) {
      RuleStepMakes(c, uid, d, h);
    }
    FirstNamedAt(d.rules, id, r);
  }

  // --- which ID a selected name comes out as -----------------------------------------------------

  lemma {:induction false} FoundRulesAreStored(s: Store, ns: string, names: seq<string>, rules: map<string, Rule>,
                                               name: string)
    requires FindRules(s, ns, names, rules).Found?
    ensures name in rules ==>
      && name in FindRules(s, ns, names, rules).value
      && FindRules(s, ns, names, rules).value[name] == rules[name]
    ensures name in names ==>
      && RuleKey(ns, name) in s.objects
      && FindRules(s, ns, names, rules).value[name] == s.objects[RuleKey(ns, name)].body.rule
    decreases |names|
  {
    if names != [] {
      assert names == [names[0]] + names[1..];
      FoundRulesAreStored(s, ns, names[1..], rules[names[0] := s.objects[RuleKey(ns, names[0])].body.rule], name);
    }
  }

  /** The select elements of a published output. */
  function SelectionsIn(b: Body): seq<Select> {
    match b
    case ConfigMapBody(tailoring) => tailoring.selections
    case PolicyBody(policy) => policy.tailoring.selections
    case _ => []
  }

  /** Position by position, the selections carry the IDs of the Rule objects that the spec names. */
  ghost predicate CarriesIds(s: Store, ns: string, spec: TailoredProfileSpec, selections: seq<Select>) {
    && |selections| == |spec.Selected()|
    && (forall n <- spec.Selected() :: RuleKey(ns, n) in s.objects)
    && (forall i :: 0 <= i < |selections| ==>
          selections[i] == Select(s.objects[RuleKey(ns, spec.Selected()[i])].body.rule.id, i < |spec.enableRules|))
  }

  lemma VerdictCarriesIds(s: Store, ns: string, spec: TailoredProfileSpec)
    requires VerdictOn(s, ns, spec).Publish?
    ensures CarriesIds(s, ns, spec, Selections(spec, VerdictOn(s, ns, spec).rules))
  {
    var rules := VerdictOn(s, ns, spec).rules;
    assert FindRules(s, ns, spec.Selected(), map[]) == Found(rules);
    forall n <- spec.Selected() ensures RuleKey(ns, n) in s.objects && rules[n] == s.objects[RuleKey(ns, n)].body.rule {
      FoundRulesAreStored(s, ns, spec.Selected(), map[], n);
    }
    SelectionsAreStored(s, ns, spec, rules);
  }

  lemma SelectionsAreStored(s: Store, ns: string, spec: TailoredProfileSpec, rules: map<string, Rule>)
    requires forall n <- spec.Selected() ::
      && n in rules && RuleKey(ns, n) in s.objects
      && rules[n] == s.objects[RuleKey(ns, n)].body.rule
    ensures CarriesIds(s, ns, spec, Selections(spec, rules))
  {
    forall i | 0 <= i < |spec.Selected()|
      ensures Selections(spec, rules)[i] == Select(rules[spec.Selected()[i]].id, i < |spec.enableRules|)
    {
      assert spec.Selected()[i] in spec.Selected();
    }
  }

  /** The TailoredProfile is stored with this spec. */
  ghost predicate HasSpec(s: Store, ns: string, name: string, spec: TailoredProfileSpec) {
    && TailoredProfileKey(ns, name) in s.objects
    && s.objects[TailoredProfileKey(ns, name)].body.TailoredProfileBody?
    && s.objects[TailoredProfileKey(ns, name)].body.spec == spec
  }

  lemma EffectCarriesIds(s: Store, ns: string, name: string, spec: TailoredProfileSpec, time: string)
    returns (selections: seq<Select>)
    requires Publishable(s, ns, name) && HasSpec(s, ns, name, spec)
    ensures Stores(Effect(s, ns, name, time), ns, name, spec, selections)
    ensures CarriesIds(s, ns, spec, selections)
  {
    var tp := s.objects[TailoredProfileKey(ns, name)];
    PublishableHasKnownOutput(s, ns, name);
    var out := OutputOf(ns, name, tp, VerdictOn(s, ns, tp.body.spec), time);
    EffectOfPublish(s, ns, name, time, out);
    selections := OutputCarriesIds(s, ns, name, tp, time);
  }

  lemma OutputCarriesIds(s: Store, ns: string, name: string, tp: Object, time: string) returns (selections: seq<Select>)
    requires tp.body.TailoredProfileBody? && VerdictOn(s, ns, tp.body.spec).Publish?
    ensures selections == SelectionsIn(OutputOf(ns, name, tp, VerdictOn(s, ns, tp.body.spec), time).body)
    ensures CarriesIds(s, ns, tp.body.spec, selections)
  {
    selections := Selections(tp.body.spec, VerdictOn(s, ns, tp.body.spec).rules);
    VerdictCarriesIds(s, ns, tp.body.spec);
  }

  /** The output of this spec is stored with these selections. */
  ghost predicate Stores(t: Store, ns: string, name: string, spec: TailoredProfileSpec, selections: seq<Select>) {
    var k := OutputKey(ns, name, spec.outputType);
    k in t.objects && SelectionsIn(t.objects[k].body) == selections
  }

  /** The selections stored for a TailoredProfile by a pass that starts in `w`. */
  ghost predicate Emits(w: World, ns: string, name: string, spec: TailoredProfileSpec, time: string,
                        selections: seq<Select>)
  {
    Stores(Reconcile(w, ns, name, time).0.store, ns, name, spec, selections)
  }

  /** A pass that publishes stores the IDs of the Rule objects of the selected names. */
  lemma PublishedIds(w: World, ns: string, name: string, spec: TailoredProfileSpec, time: string)
    returns (selections: seq<Select>)
    requires Publishes(w, ns, name, time) && HasSpec(w.store, ns, name, spec)
    ensures Emits(w, ns, name, spec, time, selections)
    ensures CarriesIds(w.store, ns, spec, selections)
  {
    CompletePassHasItsEffect(w, ns, name, time);
    selections := EffectCarriesIds(w.store, ns, name, spec, time);
  }

  /** The store `t` still has the Rule that the import from `s0` to `s` newly made for this ID. */
  ghost predicate StillThere(s0: Store, s: Store, t: Store, k: Key) {
    k !in s0.objects && k in s.objects && k in t.objects && t.objects[k].body == s.objects[k].body
  }

  ghost predicate UniquelyNamed(d: Document, n: RuleNode) {
    forall m <- d.rules :: RuleNameFromID(m.id) == RuleNameFromID(n.id) ==> m.id == n.id
  }

  /** The round trip of an ID: with the rules of a complete import in the store, a rule selected by its
      prefixed name comes out under the ID it has in the datastream exactly when it is the first rule
      of the datastream with its normalised name; in particular whenever that name is unique. */
  lemma IdRoundTrip(s0: Store, s: Store, c: Config, uid: nat, d: Document, n: RuleNode,
                    w: World, name: string, spec: TailoredProfileSpec, time: string, i: nat)
    returns (selections: seq<Select>)
    requires Imported(s0, s, BundleKey(c.ns, c.bundle), Plan(Steps(c, uid, d))) && RulesComplete(d)
    requires n in d.rules && StillThere(s0, s, w.store, RuleKeyOf(c, n.id))
    requires Publishes(w, c.ns, name, time) && HasSpec(w.store, c.ns, name, spec)
    requires i < |spec.Selected()| && spec.Selected()[i] == PrefixedName(c.bundle, RuleNameFromID(n.id))
    ensures Emits(w, c.ns, name, spec, time, selections)
    ensures i < |selections| && FirstNamed(d.rules, n.id).Some?
    ensures selections[i].idref == n.id <==> FirstNamed(d.rules, n.id).value.id == n.id
    ensures UniquelyNamed(d, n) ==> selections[i].idref == n.id
  {
    selections := PublishedIds(w, c.ns, name, spec, time);
    NewRuleIsTheFirstNamed(s0, s, c, uid, d, n.id);
  }

  // --- order -------------------------------------------------------------------------------------

  /** The body of this Rule object was made by an import of this bundle, whichever document that read. */
  ghost predicate ImportedFrom(c: Config, key: Key, o: Object) {
    exists uid: nat, d: Document, made: Object :: MadeFromSome(c, uid, key, made, d) && made.body == o.body
  }

  /** An imported Rule is named by its ID. */
  lemma ImportedRuleIsNamedById(c: Config, name: string, o: Object)
    requires ImportedFrom(c, RuleKey(c.ns, name), o)
    ensures o.body.RuleBody? && name == PrefixedName(c.bundle, RuleNameFromID(o.body.rule.id))
  {
    var uid: nat, d: Document, made: Object :|
      MadeFromSome(c, uid, RuleKey(c.ns, name), made, d) && made.body == o.body;
    var n :| n in d.rules && MadeFrom(c, uid, RuleKey(c.ns, name), made, n);
  }

  /** Every selected rule is named by its ID. */
  ghost predicate NamedByOneBundle(spec: TailoredProfileSpec, rules: map<string, Rule>, bundle: string) {
    forall n <- spec.Selected() :: n in rules && n == PrefixedName(bundle, RuleNameFromID(rules[n].id))
  }

  /** No name repeats and a name is a function of the ID, so no idref is both selected and deselected. */
  lemma OrderIrrelevantWhenNamedById(spec: TailoredProfileSpec, rules: map<string, Rule>, bundle: string)
    requires Distinct(spec.Selected()) && NamedByOneBundle(spec, rules, bundle)
    ensures OrderIrrelevant(Selections(spec, rules))
    ensures DistinctIds(Selections(spec, rules))
  {
    var all := Selections(spec, rules);
    DistinctNamesHaveDistinctIds(spec, rules, bundle);
    DistinctIdsAreDisjoint(all);
    OrderIrrelevantExactlyWhenDisjoint(all);
  }

  /** The stored Rules of these names were imported from this bundle. */
  ghost predicate StoredFrom(c: Config, s: Store, names: seq<string>) {
    forall n <- names :: RuleKey(c.ns, n) in s.objects && ImportedFrom(c, RuleKey(c.ns, n), s.objects[RuleKey(c.ns, n)])
  }

  /** Rules that an import, however interrupted, has newly made and that are still there in `t` are stored
      from its bundle. */
  lemma ImportedRulesAreStoredFrom(s0: Store, s: Store, t: Store, c: Config, uid: nat, d: Document, names: seq<string>)
    requires Reached(s0, s, BundleKey(c.ns, c.bundle), Plan(Steps(c, uid, d)))
    requires forall n <- names :: StillThere(s0, s, t, RuleKey(c.ns, n))
    ensures StoredFrom(c, t, names)
  {
    forall n <- names ensures ImportedFrom(c, RuleKey(c.ns, n), t.objects[RuleKey(c.ns, n)]) {
      var k := RuleKey(c.ns, n);
      NewRulesAreMadeFromTheDocument(s0, s, c, uid, d, k);
      assert MadeFromSome(c, uid, k, s.objects[k], d) && s.objects[k].body == t.objects[k].body;
    }
  }

  lemma DistinctNamesHaveDistinctIds(spec: TailoredProfileSpec, rules: map<string, Rule>, bundle: string)
    requires Distinct(spec.Selected()) && NamedByOneBundle(spec, rules, bundle)
    ensures DistinctIds(Selections(spec, rules)) && |Selections(spec, rules)| == |spec.Selected()|
  {
    var names, all := spec.Selected(), Selections(spec, rules);
    forall i | 0 <= i < |names| ensures all[i].idref == rules[names[i]].id && names[i] in names {
    }
    forall i, j | 0 <= i < j < |names| ensures all[i].idref != all[j].idref {
      assert names[i] in names && names[j] in names;
    }
  }

  ghost predicate DistinctIds(selects: seq<Select>) {
    forall i, j :: 0 <= i < j < |selects| ==> selects[i].idref != selects[j].idref
  }

  lemma DistinctIdsAreDisjoint(all: seq<Select>)
    requires DistinctIds(all)
    ensures Ids(all, true) !! Ids(all, false)
  {
    forall x | x in Ids(all, true) ensures x !in Ids(all, false) {
      var i :| 0 <= i < |all| && all[i] == Select(x, true);
      forall j | 0 <= j < |all| ensures all[j] != Select(x, false) {
        assert i < j ==> all[i].idref != all[j].idref;
        assert j < i ==> all[j].idref != all[i].idref;
      }
    }
  }

  /** A pass that publishes over Rules imported from one bundle emits select elements that mean the same in
      every order. */
  lemma OrderIrrelevantForOneBundle(w: World, c: Config, name: string, spec: TailoredProfileSpec, time: string)
    returns (selections: seq<Select>)
    requires Publishes(w, c.ns, name, time) && HasSpec(w.store, c.ns, name, spec)
    requires StoredFrom(c, w.store, spec.Selected())
    ensures Emits(w, c.ns, name, spec, time, selections)
    ensures OrderIrrelevant(selections) && DistinctIds(selections)
  {
    selections := PublishedIds(w, c.ns, name, spec, time);
    PublishableRulesAreDistinct(w.store, c.ns, name, spec);
    CarriedIdsAreDistinct(w.store, c, spec, selections);
    DistinctIdsAreDisjoint(selections);
    OrderIrrelevantExactlyWhenDisjoint(selections);
  }

  lemma PublishableRulesAreDistinct(s: Store, ns: string, name: string, spec: TailoredProfileSpec)
    requires Publishable(s, ns, name) && HasSpec(s, ns, name, spec)
    ensures Distinct(spec.Selected())
  {
    RulesFoundExactly(s, ns, spec.Selected(), map[]);
  }

  lemma CarriedIdsAreDistinct(s: Store, c: Config, spec: TailoredProfileSpec, selections: seq<Select>)
    requires CarriesIds(s, c.ns, spec, selections) && Distinct(spec.Selected())
    requires StoredFrom(c, s, spec.Selected())
    ensures DistinctIds(selections)
  {
    var names := spec.Selected();
    forall i, j | 0 <= i < j < |names| ensures selections[i].idref != selections[j].idref {
      assert names[i] in names && names[j] in names;
      ImportedRuleIsNamedById(c, names[i], s.objects[RuleKey(c.ns, names[i])]);
      ImportedRuleIsNamedById(c, names[j], s.objects[RuleKey(c.ns, names[j])]);
    }
  }

  /** Every Rule object of these names that a pass read was imported from this bundle. */
  ghost predicate ReadFrom(c: Config, log: seq<Access>, start: nat, end: nat, names: seq<string>) {
    forall n, o | n in names && Publication.Logged(log, start, end, Read(RuleKey(c.ns, n), o)) ::
      ImportedFrom(c, RuleKey(c.ns, n), o)
  }

  /** Whatever has been published, in any run, means the same in every order of its elements if the Rules
      its pass read were imported from one bundle. */
  lemma PublishedOrderIrrelevant(log: seq<Access>, start: nat, end: nat, c: Config, name: string, time: string,
                                 snap: Publication.Snapshot)
    requires end < |log| && Publication.Justifies(log, start, end, c.ns, name, time, snap)
    requires ReadFrom(c, log, start, end, snap.tp.body.spec.Selected())
    ensures log[end].Made? && OrderIrrelevant(SelectionsIn(log[end].made.body))
  {
    var spec := snap.tp.body.spec;
    SnapshotIsNamedById(log, start, end, c, spec.Selected(), snap.rules);
    OrderIrrelevantWhenNamedById(spec, snap.rules, c.bundle);
  }

  lemma SnapshotIsNamedById(log: seq<Access>, start: nat, end: nat, c: Config, names: seq<string>,
                            rules: map<string, Rule>)
    requires Publication.SoundRules(log, start, end, c.ns, names, rules) && ReadFrom(c, log, start, end, names)
    ensures forall n <- names :: n in rules && n == PrefixedName(c.bundle, RuleNameFromID(rules[n].id))
  {
    forall n <- names ensures n in rules && n == PrefixedName(c.bundle, RuleNameFromID(rules[n].id)) {
      assert Publication.RuleRead(log, start, end, c.ns, n, rules[n]);
      var o: Object :| o.body == RuleBody(rules[n])
        && Publication.Logged(log, start, end, Read(RuleKey(c.ns, n), o));
      ImportedRuleIsNamedById(c, n, o);
    }
  }

  /** With two bundles order matters: the same rule, enabled under one name and disabled under the other. */
  lemma OrderMattersForTwoBundles(bundle: string, other: string, rule: Rule, spec: TailoredProfileSpec)
    requires bundle != other
    requires spec.enableRules == [PrefixedName(bundle, RuleNameFromID(rule.id))]
    requires spec.disableRules == [PrefixedName(other, RuleNameFromID(rule.id))]
    ensures var rules := map[spec.enableRules[0] := rule, spec.disableRules[0] := rule];
      Distinct(spec.Selected()) && !OrderIrrelevant(Selections(spec, rules))
  {
    var rules := map[spec.enableRules[0] := rule, spec.disableRules[0] := rule];
    var all, name := Selections(spec, rules), RuleNameFromID(rule.id);
    assert PrefixedName(bundle, name)[..|bundle|] == bundle;
    assert PrefixedName(other, name)[..|other|] == other;
    assert |PrefixedName(bundle, name)| - |bundle| == |PrefixedName(other, name)| - |other|;
    assert all[0] == Select(rule.id, true) && all[1] == Select(rule.id, false);
    assert rule.id in Ids(all, true) && rule.id in Ids(all, false);
    OrderIrrelevantExactlyWhenDisjoint(all);
  }
}
