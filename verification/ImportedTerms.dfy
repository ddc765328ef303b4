/** The imported objects in the terms of the document alone: their names, owners, types and lists. */
module ImportedTerms {
  import opened ApiTypes
  import opened ApiStore
  import opened Xccdf
  import opened Datastream
  import opened FixParser
  import opened VariableParser
  import opened Import
  import opened ImportRestart
  import opened ImportResults
  import opened ImportedObjects

  // --- names -----------------------------------------------------------------------------------------

  /** `name` is the ID without this prefix, if it has it, lowered. */
  ghost predicate IsNameOf(id: string, prefix: string, name: string) {
    if prefix <= id then Lowered(id[|prefix|..], name) else Lowered(id, name)
  }

  const OF_RULE := "xccdf_org.ssgproject.content_rule_"
  const OF_PROFILE := "xccdf_org.ssgproject.content_profile_"
  const OF_VALUE := "xccdf_org.ssgproject.content_value_"

  lemma NamesAreNames(id: string)
    ensures IsNameOf(id, OF_RULE, RuleNameFromID(id))
    ensures IsNameOf(id, OF_PROFILE, ProfileNameFromID(id))
    ensures IsNameOf(id, OF_VALUE, VariableNameFromID(id))
  {
    OtherNamesAreLowered(id);
    if OF_RULE <= id {
      NamesDropThePrefix(id[|OF_RULE|..]);
      assert OF_RULE + id[|OF_RULE|..] == id;
    }
    if OF_PROFILE <= id {
      NamesDropThePrefix(id[|OF_PROFILE|..]);
      assert OF_PROFILE + id[|OF_PROFILE|..] == id;
    }
    if OF_VALUE <= id {
      NamesDropThePrefix(id[|OF_VALUE|..]);
      assert OF_VALUE + id[|OF_VALUE|..] == id;
    }
  }

  /** The one owner of an imported object: its bundle, which controls it. */
  ghost predicate OwnedByBundle(o: Object, c: Config, uid: nat) {
    o.owners == [OwnerRef("compliance.openshift.io", "v1alpha1", "ProfileBundle", c.bundle, uid, true)]
  }

  // --- rules -----------------------------------------------------------------------------------------

  ghost predicate RuleFrom(c: Config, uid: nat, k: Key, o: Object, n: RuleNode, name: string) {
    && IsNameOf(n.id, "xccdf_org.ssgproject.content_rule_", name)
    && k == Key(RuleKind, c.ns, c.bundle + "-" + name) && OwnedByBundle(o, c, uid)
    && o.body.RuleBody?
    && var rule := o.body.rule;
    && rule.id == n.id && Some(rule.title) == n.title
    && "compliance.openshift.io/rule" in rule.annotations && rule.annotations["compliance.openshift.io/rule"] == name
    && forall f :: f in rule.fixes <==> exists i :: 0 <= i < |n.fixes| && MadeOfFirstFitting(n.fixes, i, f)
  }

  lemma MadeRuleIsFrom(c: Config, uid: nat, k: Key, o: Object, n: RuleNode)
    requires MadeFrom(c, uid, k, o, n)
    ensures RuleFrom(c, uid, k, o, n, RuleNameFromID(n.id))
  {
    NamesAreNames(n.id);
    forall f ensures f in o.body.rule.fixes <==> exists i :: 0 <= i < |n.fixes| && MadeOfFirstFitting(n.fixes, i, f) {
      AvailableExactly(n.fixes, f);
    }
  }

  /** Every newly imported Rule is a rule of the document under "bundle-name", where the name is its normalised
      ID, annotated with that name, with the first fitting fix of each platform. */
  lemma NewRuleIsFromTheDocument(s0: Store, s: Store, c: Config, uid: nat, d: Document, k: Key)
    returns (n: RuleNode, name: string)
    requires Reached(s0, s, BundleKey(c.ns, c.bundle), Plan(Steps(c, uid, d)))
    requires k in s.objects && k !in s0.objects && k.kind == RuleKind
    ensures n in d.rules && RuleFrom(c, uid, k, s.objects[k], n, name)
  {
    NewRulesAreMadeFromTheDocument(s0, s, c, uid, d, k);
    n :| n in d.rules && MadeFrom(c, uid, k, s.objects[k], n);
    name := RuleNameFromID(n.id);
    MadeRuleIsFrom(c, uid, k, s.objects[k], n);
  }

  // --- profiles --------------------------------------------------------------------------------------

  /** A select element that counts: it has an idref, selects it, and this is the name of the Rule. */
  ghost predicate Selects(c: Config, s: SelectNode, rule: string) {
    && s.idref != "" && s.selected == "true"
    && exists name :: IsNameOf(s.idref, "xccdf_org.ssgproject.content_rule_", name) && rule == c.bundle + "-" + name
  }

  /** The list has one entry for each element that counts, in order. */
  ghost predicate ListsSelected(c: Config, selects: seq<SelectNode>, rules: seq<string>)
    decreases |selects|
  {
    if selects == [] then rules == []
    else if selects[0].idref == "" || selects[0].selected != "true" then ListsSelected(c, selects[1..], rules)
    else rules != [] && Selects(c, selects[0], rules[0]) && ListsSelected(c, selects[1..], rules[1..])
  }

  lemma {:induction false} SelectedRulesAreListed(c: Config, selects: seq<SelectNode>)
    ensures ListsSelected(c, selects, SelectedRules(c, selects))
    decreases |selects|
  {
    if selects != [] {
      var rest := SelectedRules(c, selects[1..]);
      assert selects == [selects[0]] + selects[1..];
      SelectionsInDocumentOrder(c, [selects[0]], selects[1..]);
      OneSelection(c, selects[0]);
      SelectedRulesAreListed(c, selects[1..]);
      NamesAreNames(selects[0].idref);
      assert [] + rest == rest;
    }
  }

  lemma OneSelection(c: Config, s: SelectNode)
    ensures SelectedRules(c, [s])
      == if s.idref == "" || s.selected != "true" then [] else [c.bundle + "-" + RuleNameFromID(s.idref)]
  {
    assert [s][..0] == [];
  }

  ghost predicate ListsNonEmpty(idrefs: seq<string>, values: seq<string>)
    decreases |idrefs|
  {
    if idrefs == [] then values == []
    else if idrefs[0] == "" then ListsNonEmpty(idrefs[1..], values)
    else values != [] && values[0] == idrefs[0] && ListsNonEmpty(idrefs[1..], values[1..])
  }

  lemma {:induction false} SelectedValuesConcat(a: seq<string>, b: seq<string>)
    ensures SelectedValues(a + b) == SelectedValues(a) + SelectedValues(b)
    decreases |b|
  {
    if b == [] {
      assert a + b == a;
    } else {
      assert (a + b)[..|a + b| - 1] == a + b[..|b| - 1];
      SelectedValuesConcat(a, b[..|b| - 1]);
    }
  }

  lemma {:induction false} SelectedValuesAreListed(idrefs: seq<string>)
    ensures ListsNonEmpty(idrefs, SelectedValues(idrefs))
    decreases |idrefs|
  {
    if idrefs != [] {
      var first, rest := idrefs[0], SelectedValues(idrefs[1..]);
      assert idrefs == [first] + idrefs[1..] && [first][..0] == [];
      SelectedValuesConcat([first], idrefs[1..]);
      assert SelectedValues([first]) == if first == "" then [] else [first];
      SelectedValuesAreListed(idrefs[1..]);
      assert [] + rest == rest;
    }
  }

  ghost predicate ProfileFrom(c: Config, uid: nat, k: Key, o: Object, n: ProfileNode, name: string) {
    && IsNameOf(n.id, "xccdf_org.ssgproject.content_profile_", name)
    && k == Key(ProfileKind, c.ns, c.bundle + "-" + name) && OwnedByBundle(o, c, uid)
    && o.body.ProfileBody?
    && var p := o.body.profile;
    && p.id == n.id && Some(p.title) == n.title && Some(p.description) == n.description
    && ListsSelected(c, n.selects, p.rules) && ListsNonEmpty(n.setValues, p.values)
  }

  /** Every newly imported Profile is a profile of the document under "bundle-name", and lists its selected rules
      by their names and its set-values by their IDs, in order. */
  lemma NewProfileIsFromTheDocument(s0: Store, s: Store, c: Config, uid: nat, d: Document, k: Key)
    returns (n: ProfileNode, name: string)
    requires Reached(s0, s, BundleKey(c.ns, c.bundle), Plan(Steps(c, uid, d)))
    requires k in s.objects && k !in s0.objects && k.kind == ProfileKind
    ensures n in d.profiles && ProfileFrom(c, uid, k, s.objects[k], n, name)
  {
    NewProfilesAreMadeFromTheDocument(s0, s, c, uid, d, k);
    n :| n in d.profiles && ProfileMadeFrom(c, uid, k, s.objects[k], n);
    name := ProfileNameFromID(n.id);
    NamesAreNames(n.id);
    SelectedRulesAreListed(c, n.selects);
    SelectedValuesAreListed(n.setValues);
  }

  // --- variables -------------------------------------------------------------------------------------

  /** The choices are the value nodes with a selector, in order. */
  ghost predicate ListsChoices(items: seq<ValueItem>, choices: seq<ValueSelection>)
    decreases |items|
  {
    if items == [] then choices == []
    else
      match items[0].selector
      case None => ListsChoices(items[1..], choices)
      case Some(description) =>
        && choices != [] && choices[0] == ValueSelection(description, items[0].text)
        && ListsChoices(items[1..], choices[1..])
  }

  lemma {:induction false} ChoicesAreListed(items: seq<ValueItem>)
    ensures ListsChoices(items, Choices(items))
    decreases |items|
  {
    if items != [] {
      var rest := Choices(items[1..]);
      assert items == [items[0]] + items[1..];
      ValuesInDocumentOrder([items[0]], items[1..]);
      OneValue(items[0]);
      ChoicesAreListed(items[1..]);
      assert [] + rest == rest;
    }
  }

  /** The default is the text of the last value node without a selector, all earlier ones being empty; without
      any there is no default. */
  ghost predicate HasDefault(items: seq<ValueItem>, value: string) {
    || (value == "" && forall i :: 0 <= i < |items| ==> items[i].selector.Some?)
    || exists i :: 0 <= i < |items| && IsDefault(items, i, value)
  }

  ghost predicate IsDefault(items: seq<ValueItem>, i: nat, value: string) {
    && i < |items| && items[i] == ValueItem(None, value)
    && (forall j :: i < j < |items| ==> items[j].selector.Some?)
    && (forall j :: 0 <= j < i ==> items[j].selector.Some? || items[j].text == "")
  }

  lemma {:induction false} NoDefault(items: seq<ValueItem>)
    requires Defaults(items) == []
    ensures forall i :: 0 <= i < |items| ==> items[i].selector.Some?
  {
    if items != [] {
      NoDefault(items[..|items| - 1]);
    }
  }

  lemma {:induction false} EmptyDefaults(items: seq<ValueItem>)
    requires forall i :: 0 <= i < |Defaults(items)| ==> Defaults(items)[i] == ""
    ensures forall i :: 0 <= i < |items| ==> items[i].selector.Some? || items[i].text == ""
  {
    if items != [] {
      var init := items[..|items| - 1];
      forall i | 0 <= i < |Defaults(init)| ensures Defaults(init)[i] == "" {
        assert Defaults(items)[i] == Defaults(init)[i];
      }
      EmptyDefaults(init);
      assert items[|items| - 1].selector.None? ==> Defaults(items)[|Defaults(init)|] == items[|items| - 1].text;
    }
  }

  lemma {:induction false} LastDefault(items: seq<ValueItem>, value: string) returns (i: nat)
    requires OneDefault(Defaults(items)) && Defaults(items) != [] && value == Defaults(items)[|Defaults(items)| - 1]
    ensures IsDefault(items, i, value)
  {
    var init, last := items[..|items| - 1], items[|items| - 1];
    if last.selector.None? {
      assert Defaults(items) == Defaults(init) + [last.text];
      forall i | 0 <= i < |Defaults(init)| ensures Defaults(init)[i] == "" {
        assert Defaults(items)[i] == Defaults(init)[i];
      }
      EmptyDefaults(init);
      i := |items| - 1;
    } else {
      assert Defaults(items) == Defaults(init);
      i := LastDefault(init, value);
    }
  }

  lemma DefaultIsHad(items: seq<ValueItem>, value: string)
    requires OneDefault(Defaults(items))
    requires value == if Defaults(items) == [] then "" else Defaults(items)[|Defaults(items)| - 1]
    ensures HasDefault(items, value)
  {
    if Defaults(items) == [] {
      NoDefault(items);
    } else {
      var i := LastDefault(items, value);
    }
  }

  ghost predicate HasType(typeAttribute: Option<string>, varType: string) {
    varType == if typeAttribute == Some("number") then "number"
               else if typeAttribute == Some("boolean") then "bool" else "string"
  }

  ghost predicate VariableFrom(c: Config, uid: nat, k: Key, o: Object, n: ValueNode, name: string) {
    && IsNameOf(n.id, "xccdf_org.ssgproject.content_value_", name) && n.hidden != "true"
    && k == Key(VariableKind, c.ns, c.bundle + "-" + name) && OwnedByBundle(o, c, uid)
    && o.body.VariableBody?
    && var v := o.body.variable;
    && v.id == n.id && Some(v.title) == n.title && HasType(n.typeAttribute, v.varType)
    && ListsChoices(n.items, v.selections) && HasDefault(n.items, v.value)
  }

  lemma MadeVariableHolds(c: Config, uid: nat, k: Key, o: Object, n: ValueNode)
    requires VariableMadeFrom(c, uid, k, o, n)
    ensures ListsChoices(n.items, o.body.variable.selections) && HasDefault(n.items, o.body.variable.value)
  {
    ChoicesAreListed(n.items);
    DefaultIsHad(n.items, o.body.variable.value);
  }

  lemma MadeVariableIsFrom(c: Config, uid: nat, k: Key, o: Object, n: ValueNode)
    requires VariableMadeFrom(c, uid, k, o, n)
    ensures VariableFrom(c, uid, k, o, n, VariableNameFromID(n.id))
  {
    NamesAreNames(n.id);
    MadeVariableHolds(c, uid, k, o, n);
  }

  /** Every newly imported Variable is a visible value of the document under "bundle-name", with its type, its
      choices in order, and its one default. */
  lemma NewVariableIsFromTheDocument(s0: Store, s: Store, c: Config, uid: nat, d: Document, k: Key)
    returns (n: ValueNode, name: string)
    requires Reached(s0, s, BundleKey(c.ns, c.bundle), Plan(Steps(c, uid, d)))
    requires k in s.objects && k !in s0.objects && k.kind == VariableKind
    ensures n in d.values && VariableFrom(c, uid, k, s.objects[k], n, name)
  {
    NewVariablesAreMadeFromTheDocument(s0, s, c, uid, d, k);
    n :| n in d.values && VariableMadeFrom(c, uid, k, s.objects[k], n);
    name := VariableNameFromID(n.id);
    MadeVariableIsFrom(c, uid, k, s.objects[k], n);
  }

  // --- everything is imported ------------------------------------------------------------------------

  lemma {:induction false} DefaultsBefore(items: seq<ValueItem>, n: nat)
    requires n <= |items| && forall j :: 0 <= j < n ==> items[j].selector.Some? || items[j].text == ""
    requires forall j :: n <= j < |items| ==> items[j].selector.Some?
    ensures forall i :: 0 <= i < |Defaults(items)| ==> Defaults(items)[i] == ""
  {
    if items != [] {
      DefaultsBefore(items[..|items| - 1], if n == |items| then n - 1 else n);
    }
  }

  lemma DefaultIsUnambiguous(items: seq<ValueItem>, value: string)
    requires HasDefault(items, value)
    ensures OneDefault([""] + Defaults(items))
  {
    if i :| 0 <= i < |items| && IsDefault(items, i, value) {
      var before, rest := items[..i], items[i + 1..];
      assert items == before + [items[i]] + rest;
      ValuesInDocumentOrder(before + [items[i]], rest);
      ValuesInDocumentOrder(before, [items[i]]);
      OneValue(items[i]);
      DefaultsBefore(before, i);
      NoneLater(rest);
    } else {
      NoneLater(items);
    }
  }

  lemma {:induction false} NoneLater(items: seq<ValueItem>)
    requires forall i :: 0 <= i < |items| ==> items[i].selector.Some?
    ensures Defaults(items) == []
  {
    if items != [] {
      NoneLater(items[..|items| - 1]);
    }
  }

  /** No step of a complete document is kept from being taken. */
  lemma EveryStepIsReached(c: Config, uid: nat, d: Document, i: nat)
    requires DocumentComplete(d) && i < |Steps(c, uid, d)| && Steps(c, uid, d)[i].Make?
    ensures Steps(c, uid, d)[i].item in Plan(Steps(c, uid, d))
  {
    CompleteExactlyWhenNothingStops(c, uid, d);
    forall j | 0 <= j < i ensures !Steps(c, uid, d)[j].Stop? {
      assert Steps(c, uid, d)[j] in Steps(c, uid, d);
    }
    ReachedStepIsPlanned(Steps(c, uid, d), i);
  }

  lemma VisibleValueMakes(c: Config, uid: nat, n: ValueNode, value: string)
    requires CompleteValue(n) && n.hidden != "true" && HasDefault(n.items, value)
    ensures ValueStep(c, uid, n).Make?
    ensures ValueStep(c, uid, n).item.key == VariableKey(c.ns, PrefixedName(c.bundle, VariableNameFromID(n.id)))
  {
    DefaultIsUnambiguous(n.items, value);
  }

  lemma ValueIsPlanned(c: Config, uid: nat, d: Document, n: ValueNode, value: string)
    requires DocumentComplete(d) && n in d.values && n.hidden != "true" && HasDefault(n.items, value)
    ensures exists item <- Plan(Steps(c, uid, d)) ::
      item.key == VariableKey(c.ns, PrefixedName(c.bundle, VariableNameFromID(n.id)))
  {
    var r :| 0 <= r < |d.values| && d.values[r] == n;
    assert CompleteValue(n);
    VisibleValueMakes(c, uid, n, value);
    var i := |d.profiles| + |d.rules| + r;
    ConcatAt(ProfileSteps(c, uid, d.profiles), RuleSteps(c, uid, d.rules), ValueSteps(c, uid, d.values), i);
    EveryStepIsReached(c, uid, d, i);
  }

  lemma ProfileIsPlanned(c: Config, uid: nat, d: Document, n: ProfileNode)
    requires DocumentComplete(d) && n in d.profiles
    ensures exists item <- Plan(Steps(c, uid, d)) ::
      item.key == ProfileKey(c.ns, PrefixedName(c.bundle, ProfileNameFromID(n.id)))
  {
    var i :| 0 <= i < |d.profiles| && d.profiles[i] == n;
    CompleteExactlyWhenNothingStops(c, uid, d);
    ProfileStepMakes(c, uid, d, i);
    EveryStepIsReached(c, uid, d, i);
  }

  /** Something is stored as the object of this kind for this ID. */
  ghost predicate StoredFor(s: Store, c: Config, kind: Kind, id: string, prefix: string) {
    exists name :: IsNameOf(id, prefix, name) && Key(kind, c.ns, c.bundle + "-" + name) in s.objects
  }

  /** A complete import leaves an object for every profile, for every rule, and for every value that is not hidden
      and has one default or none. */
  lemma EveryNodeIsStored(s0: Store, s: Store, c: Config, uid: nat, d: Document)
    requires Imported(s0, s, BundleKey(c.ns, c.bundle), Plan(Steps(c, uid, d))) && DocumentComplete(d)
    ensures forall n <- d.profiles :: StoredFor(s, c, ProfileKind, n.id, "xccdf_org.ssgproject.content_profile_")
    ensures forall n <- d.rules :: StoredFor(s, c, RuleKind, n.id, "xccdf_org.ssgproject.content_rule_")
    ensures forall n <- d.values :: n.hidden != "true" && (exists value :: HasDefault(n.items, value)) ==>
      StoredFor(s, c, VariableKind, n.id, "xccdf_org.ssgproject.content_value_")
  {
    forall n <- d.profiles ensures StoredFor(s, c, ProfileKind, n.id, OF_PROFILE) {
      NamesAreNames(n.id);
      ProfileIsPlanned(c, uid, d, n);
    }
    forall n <- d.rules ensures StoredFor(s, c, RuleKind, n.id, OF_RULE) {
      NamesAreNames(n.id);
      RuleIsPlanned(c, uid, d, n);
    }
    forall n, value | n in d.values && n.hidden != "true" && HasDefault(n.items, value)
      ensures StoredFor(s, c, VariableKind, n.id, OF_VALUE)
    {
      NamesAreNames(n.id);
      ValueIsPlanned(c, uid, d, n, value);
    }
  }
}
