/** pkg/xccdf/tailoring.go: object names derived from XCCDF IDs, and the tailoring element tree. */
module Xccdf {
  import opened ApiTypes
  import opened Text

  const PROFILE_ID_PREFIX := "xccdf_org.ssgproject.content_profile_"
  const RULE_ID_PREFIX := "xccdf_org.ssgproject.content_rule_"
  const VARIABLE_ID_PREFIX := "xccdf_org.ssgproject.content_value_"
  const XCCDF_NAMESPACE := "compliance.openshift.io"

  // --- names -------------------------------------------------------------------------------

  function NameFromID(id: string, prefix: string): string { Dashed(TrimPrefix(id, prefix)) }

  function ProfileNameFromID(id: string): string { NameFromID(id, PROFILE_ID_PREFIX) }

  function RuleNameFromID(id: string): string { NameFromID(id, RULE_ID_PREFIX) }

  function VariableNameFromID(id: string): string { NameFromID(id, VARIABLE_ID_PREFIX) }

  function XccdfProfileID(tailoredProfile: string): string {
    "xccdf_" + XCCDF_NAMESPACE + "_profile_" + tailoredProfile
  }

  function TailoringID(tailoredProfile: string): string {
    "xccdf_" + XCCDF_NAMESPACE + "_tailoring_" + tailoredProfile
  }

  /** A name is as long as what is left of the ID, has no underscore and no capital, cannot carry a trimmed
      prefix any more, and is its own name. */
  lemma NormalisationIsIdempotent(id: string, prefix: string)
    requires '_' in prefix
    ensures |NameFromID(id, prefix)| == if prefix <= id then |id| - |prefix| else |id|
    ensures forall c <- NameFromID(id, prefix) :: c != '_' && !('A' <= c <= 'Z')
    ensures !(prefix <= NameFromID(id, prefix))
    ensures NameFromID(NameFromID(id, prefix), prefix) == NameFromID(id, prefix)
  {
    var name := NameFromID(id, prefix);
    assert forall c <- name :: c != '_' && !('A' <= c <= 'Z');
    var i :| 0 <= i < |prefix| && prefix[i] == '_';
    if prefix <= name {
      assert false;
    }
    assert Dashed(name) == name;
  }

  /** `name` is `id` with "-" for every underscore and with its capitals in lower case. */
  ghost predicate Lowered(id: string, name: string) {
    |name| == |id| && forall i :: 0 <= i < |id| ==>
      if id[i] == '_' then name[i] == '-'
      else if 'A' <= id[i] <= 'Z' then name[i] as int == id[i] as int + 32
      else name[i] == id[i]
  }

  /** The names of rules, profiles and values are their IDs without the prefix of the content, lowered; ... */
  lemma NamesDropThePrefix(id: string)
    ensures Lowered(id, RuleNameFromID("xccdf_org.ssgproject.content_rule_" + id))
    ensures Lowered(id, ProfileNameFromID("xccdf_org.ssgproject.content_profile_" + id))
    ensures Lowered(id, VariableNameFromID("xccdf_org.ssgproject.content_value_" + id))
  {
    assert ("xccdf_org.ssgproject.content_rule_" + id)[|RULE_ID_PREFIX|..] == id;
    assert ("xccdf_org.ssgproject.content_profile_" + id)[|PROFILE_ID_PREFIX|..] == id;
    assert ("xccdf_org.ssgproject.content_value_" + id)[|VARIABLE_ID_PREFIX|..] == id;
  }

  /** ... an ID without that prefix is lowered as a whole. */
  lemma OtherNamesAreLowered(id: string)
    ensures !("xccdf_org.ssgproject.content_rule_" <= id) ==> Lowered(id, RuleNameFromID(id))
    ensures !("xccdf_org.ssgproject.content_profile_" <= id) ==> Lowered(id, ProfileNameFromID(id))
    ensures !("xccdf_org.ssgproject.content_value_" <= id) ==> Lowered(id, VariableNameFromID(id))
  {
  }

  // --- the benchmark -------------------------------------------------------------------------

  /** The parts of a path from the root, as `filepath.Clean` leaves them: without empty parts and ".", and
      with ".." resolved; above the root there is nothing. */
  function CleanParts(parts: seq<string>): seq<string> {
    if parts == [] then []
    else
      var init, last := CleanParts(parts[..|parts| - 1]), parts[|parts| - 1];
      if last == "" || last == "." then init
      else if last != ".." then init + [last]
      else if init == [] then []
      else init[..|init| - 1]
  }

  /** `filepath.Join("/content", contentFile)`. */
  function BenchmarkHref(contentFile: string): string {
    "/" + Join(CleanParts(Split("content/" + contentFile, '/')), '/')
  }

  ghost predicate Plain(parts: seq<string>) { forall p <- parts :: p != "" && p != "." && p != ".." }

  /** Cleaning leaves plain parts only, ... */
  lemma {:induction false} CleanIsPlain(parts: seq<string>)
    ensures Plain(CleanParts(parts))
  {
    if parts != [] {
      var cleaned := CleanParts(parts[..|parts| - 1]);
      CleanIsPlain(parts[..|parts| - 1]);
      forall p <- CleanParts(parts) ensures p != "" && p != "." && p != ".." {
        assert p in cleaned || p == parts[|parts| - 1];
      }
    }
  }

  lemma {:induction false} CleanKeepsPlain(parts: seq<string>)
    requires Plain(parts)
    ensures CleanParts(parts) == parts
  {
    if parts != [] {
      var init, last := parts[..|parts| - 1], parts[|parts| - 1];
      forall p <- init ensures p in parts {}
      CleanKeepsPlain(init);
      assert last in parts && parts == init + [last];
    }
  }

  /** ... and changes nothing exactly when all parts are plain. */
  lemma CleanExactlyWhenPlain(parts: seq<string>)
    ensures CleanParts(parts) == parts <==> Plain(parts)
  {
    CleanIsPlain(parts);
    if Plain(parts) {
      CleanKeepsPlain(parts);
    }
  }

  // Cleaning is determined by what can be dropped from the parts until only plain ones are left: ...

  lemma {:induction false} CleanIsCompositional(a: seq<string>, b: seq<string>, tail: seq<string>)
    requires CleanParts(a) == CleanParts(b)
    ensures CleanParts(a + tail) == CleanParts(b + tail)
    decreases |tail|
  {
    if tail == [] {
      assert a + tail == a && b + tail == b;
    } else {
      var init, last := tail[..|tail| - 1], tail[|tail| - 1];
      assert (a + tail)[..|a + tail| - 1] == a + init && (b + tail)[..|b + tail| - 1] == b + init;
      CleanIsCompositional(a, b, init);
    }
  }

  /** ... an empty part or "." anywhere, a plain part with the ".." after it, and a ".." at the root. */
  lemma CleanDrops(a: seq<string>, p: string, tail: seq<string>)
    ensures CleanParts(a + [""] + tail) == CleanParts(a + tail)
    ensures CleanParts(a + ["."] + tail) == CleanParts(a + tail)
    ensures Plain([p]) ==> CleanParts(a + [p, ".."] + tail) == CleanParts(a + tail)
    ensures CleanParts([".."] + tail) == CleanParts(tail)
  {
    CleanIsCompositional(a + [""], a, tail);
    CleanIsCompositional(a + ["."], a, tail);
    if Plain([p]) {
      assert p in [p];
      assert (a + [p, ".."])[..|a| + 1] == a + [p];
      CleanIsCompositional(a + [p, ".."], a, tail);
    }
    CleanIsCompositional([".."], [], tail);
    assert [] + tail == tail;
  }

  /** Joining cleaned parts gives back a string exactly when its parts are plain. */
  lemma CleanedPathExactlyWhenPlain(path: string)
    requires Split(path, '/') != [""]
    ensures Join(CleanParts(Split(path, '/')), '/') == path <==> Plain(Split(path, '/'))
  {
    var parts := Split(path, '/');
    CleanExactlyWhenPlain(parts);
    JoinAfterSplit(path, '/');
    SplitIsFree(path, '/');
    CleanPartsComeFrom(parts);
    if Join(CleanParts(parts), '/') == path {
      assert CleanParts(parts) != [];
      SplitAfterJoin(CleanParts(parts), '/');
    }
  }

  /** The href is literally "/content/" followed by the content file exactly when the parts of the latter
      are plain: none is empty, "." or "..". */
  lemma HrefIsLiteralExactlyWhenPlain(contentFile: string)
    ensures BenchmarkHref(contentFile) == "/" + ("content/" + contentFile) <==> Plain(Split(contentFile, '/'))
  {
    var path := "content/" + contentFile;
    SplitPrefixed("content", contentFile, '/');
    assert "content" + ['/'] + contentFile == path;
    assert Split(path, '/') == ["content"] + Split(contentFile, '/');
    CleanedPathExactlyWhenPlain(path);
    SlashInjective(Join(CleanParts(Split(path, '/')), '/'), path);
    PlainCons("content", Split(contentFile, '/'));
  }

  lemma PlainCons(first: string, rest: seq<string>)
    requires |first| > 2
    ensures Plain([first] + rest) <==> Plain(rest)
  {
    assert forall p :: p in [first] + rest <==> p == first || p in rest;
  }

  lemma SlashInjective(a: string, b: string)
    ensures "/" + a == "/" + b <==> a == b
  {
    assert ("/" + a)[1..] == a && ("/" + b)[1..] == b;
  }

  lemma {:induction false} CleanPartsComeFrom(parts: seq<string>)
    ensures forall p <- CleanParts(parts) :: p in parts
  {
    if parts != [] {
      CleanPartsComeFrom(parts[..|parts| - 1]);
    }
  }

  // --- the element tree --------------------------------------------------------------------

  /** The select elements of a tailored profile: its enabled rules, then its disabled ones. */
  function Selections(spec: TailoredProfileSpec, rules: map<string, Rule>): seq<Select>
    requires forall n <- spec.Selected() :: n in rules
  {
    SelectAll(spec.enableRules, rules, true) + SelectAll(spec.disableRules, rules, false)
  }

  function SelectAll(names: seq<string>, rules: map<string, Rule>, selected: bool): (r: seq<Select>)
    requires forall n <- names :: n in rules
    ensures |r| == |names|
    ensures forall i :: 0 <= i < |names| ==> r[i] == Select(rules[names[i]].id, selected)
  {
    seq(|names|, i requires 0 <= i < |names| => Select(rules[names[i]].id, selected))
  }

  function SetValues(variables: seq<VariableData>): (r: seq<SetValue>)
    ensures |r| == |variables|
    ensures forall i :: 0 <= i < |r| ==> r[i] == SetValue(variables[i].id, variables[i].value)
  {
    seq(|variables|, i requires 0 <= i < |variables| => SetValue(variables[i].id, variables[i].value))
  }

  /** The tailoring of a tailored profile called `name`; `time` is the clock reading. */
  function TailoringFor(name: string, spec: TailoredProfileSpec, profile: Profile, bundle: BundleSpec,
                        rules: map<string, Rule>, variables: seq<VariableData>, time: string): Tailoring
    requires forall n <- spec.Selected() :: n in rules
  {
    Tailoring(TailoringID(name), time, BenchmarkHref(bundle.contentFile), XccdfProfileID(name), profile.id,
      if spec.title == "" then None else Some(spec.title),
      if spec.description == "" then None else Some(spec.description),
      Selections(spec, rules), SetValues(variables))
  }

  method GetSelections(spec: TailoredProfileSpec, rules: map<string, Rule>) returns (selections: seq<Select>)
    requires forall n <- spec.Selected() :: n in rules
    ensures selections == Selections(spec, rules)
  {
    selections := [];
    for i := 0 to |spec.enableRules|
      invariant selections == SelectAll(spec.enableRules, rules, true)[..i]
    {
      selections := selections + [Select(rules[spec.enableRules[i]].id, true)];
    }
    for i := 0 to |spec.disableRules|
      invariant selections == SelectAll(spec.enableRules, rules, true) + SelectAll(spec.disableRules, rules, false)[..i]
    {
      assert spec.Selected()[|spec.enableRules| + i] == spec.disableRules[i];
      selections := selections + [Select(rules[spec.disableRules[i]].id, false)];
    }
  }

  method GetValuesFromVariables(variables: seq<VariableData>) returns (values: seq<SetValue>)
    ensures values == SetValues(variables)
  {
    values := [];
    for i := 0 to |variables|
      invariant values == SetValues(variables)[..i]
    {
      values := values + [SetValue(variables[i].id, variables[i].value)];
    }
  }

  method TailoredProfileToXML(name: string, spec: TailoredProfileSpec, profile: Profile, bundle: BundleSpec,
                              rules: map<string, Rule>, variables: seq<VariableData>, time: string)
    returns (tailoring: Tailoring)
    requires forall n <- spec.Selected() :: n in rules
    ensures tailoring == TailoringFor(name, spec, profile, bundle, rules, variables, time)
  {
    var selections := GetSelections(spec, rules);
    var values := GetValuesFromVariables(variables);
    tailoring := Tailoring(TailoringID(name), time, BenchmarkHref(bundle.contentFile), XccdfProfileID(name), profile.id,
      None, None, selections, values);
    if spec.title != "" {
      tailoring := tailoring.(title := Some(spec.title));
    }
    if spec.description != "" {
      tailoring := tailoring.(description := Some(spec.description));
    }
  }

  // --- reading the tree back ---------------------------------------------------------------

  function IdrefsOf(selects: seq<Select>, selected: bool): seq<string> {
    if selects == [] then []
    else (if selects[0].selected == selected then [selects[0].idref] else []) + IdrefsOf(selects[1..], selected)
  }

  lemma {:induction false} IdrefsOfConcat(a: seq<Select>, b: seq<Select>, selected: bool)
    ensures IdrefsOf(a + b, selected) == IdrefsOf(a, selected) + IdrefsOf(b, selected)
  {
    if a == [] {
      assert a + b == b;
    } else {
      assert (a + b)[1..] == a[1..] + b;
      IdrefsOfConcat(a[1..], b, selected);
    }
  }

  lemma {:induction false} IdrefsOfSelectAll(names: seq<string>, rules: map<string, Rule>, made: bool, selected: bool)
    requires forall n <- names :: n in rules
    ensures |IdrefsOf(SelectAll(names, rules, made), selected)| == if made == selected then |names| else 0
    ensures made == selected ==>
      forall i :: 0 <= i < |names| ==> IdrefsOf(SelectAll(names, rules, made), selected)[i] == rules[names[i]].id
  {
    if names != [] {
      assert SelectAll(names, rules, made)[1..] == SelectAll(names[1..], rules, made);
      IdrefsOfSelectAll(names[1..], rules, made, selected);
    }
  }

  /** The tree gives back, position by position, the IDs of the enabled and of the disabled rules and
      the (ID, value) pairs of the variables. */
  lemma TreeRoundTrip(name: string, spec: TailoredProfileSpec, profile: Profile, bundle: BundleSpec,
                      rules: map<string, Rule>, variables: seq<VariableData>, time: string)
    requires forall n <- spec.Selected() :: n in rules
    ensures var tree := TailoringFor(name, spec, profile, bundle, rules, variables, time);
      var on, off := IdrefsOf(tree.selections, true), IdrefsOf(tree.selections, false);
      && |on| == |spec.enableRules|
      && (forall i :: 0 <= i < |on| ==> on[i] == rules[spec.Selected()[i]].id)
      && |off| == |spec.disableRules|
      && (forall i :: 0 <= i < |off| ==> off[i] == rules[spec.Selected()[|on| + i]].id)
      && |tree.values| == |variables|
      && (forall i :: 0 <= i < |variables| ==> tree.values[i] == SetValue(variables[i].id, variables[i].value))
  {
    var enables, disables := SelectAll(spec.enableRules, rules, true), SelectAll(spec.disableRules, rules, false);
    IdrefsOfConcat(enables, disables, true);
    IdrefsOfConcat(enables, disables, false);
    IdrefsOfSelectAll(spec.enableRules, rules, true, true);
    IdrefsOfSelectAll(spec.enableRules, rules, true, false);
    IdrefsOfSelectAll(spec.disableRules, rules, false, false);
    IdrefsOfSelectAll(spec.disableRules, rules, false, true);
  }

  // --- what the select elements mean (XCCDF 1.2, section 6.5) --------------------------------

  /** Selectors take effect one after the other on the set of selected rules. */
  function ApplySelects(base: set<string>, selects: seq<Select>): set<string>
    decreases |selects|
  {
    if selects == [] then base
    else
      ApplySelects(if selects[0].selected then base + {selects[0].idref} else base - {selects[0].idref}, selects[1..])
  }

  function Ids(selects: seq<Select>, selected: bool): (r: set<string>)
    ensures forall x :: x in r <==> Select(x, selected) in selects
  {
    if selects == [] then {}
    else
      assert forall x :: Select(x, selected) in selects <==>
        Select(x, selected) == selects[0] || Select(x, selected) in selects[1..];
      Ids(selects[1..], selected) + if selects[0].selected == selected then {selects[0].idref} else {}
  }

  lemma {:induction false} ApplyConcat(base: set<string>, a: seq<Select>, b: seq<Select>)
    ensures ApplySelects(base, a + b) == ApplySelects(ApplySelects(base, a), b)
    decreases |a|
  {
    if a == [] {
      assert a + b == b;
    } else {
      assert (a + b)[1..] == a[1..] + b;
      ApplyConcat(if a[0].selected then base + {a[0].idref} else base - {a[0].idref}, a[1..], b);
    }
  }

  /** When nothing is both selected and deselected the order has no say. */
  lemma {:induction false} ApplyDisjoint(base: set<string>, selects: seq<Select>)
    requires Ids(selects, true) !! Ids(selects, false)
    ensures ApplySelects(base, selects) == (base + Ids(selects, true)) - Ids(selects, false)
    decreases |selects|
  {
    if selects != [] {
      ApplyDisjoint(if selects[0].selected then base + {selects[0].idref} else base - {selects[0].idref}, selects[1..]);
    }
  }

  /** In the order in which they are emitted, the elements mean (base + enabled) - disabled, even
      when a rule is named on both sides. */
  lemma SelectionsMean(base: set<string>, spec: TailoredProfileSpec, rules: map<string, Rule>)
    requires forall n <- spec.Selected() :: n in rules
    ensures ApplySelects(base, Selections(spec, rules))
         == (base + set n | n in spec.enableRules :: rules[n].id) - set n | n in spec.disableRules :: rules[n].id
  {
    var enables, disables := SelectAll(spec.enableRules, rules, true), SelectAll(spec.disableRules, rules, false);
    ApplyConcat(base, enables, disables);
    IdsOfSelectAll(spec.enableRules, rules, true);
    IdsOfSelectAll(spec.disableRules, rules, false);
    ApplyDisjoint(base, enables);
    ApplyDisjoint(ApplySelects(base, enables), disables);
  }

  lemma IdsOfSelectAll(names: seq<string>, rules: map<string, Rule>, selected: bool)
    requires forall n <- names :: n in rules
    ensures Ids(SelectAll(names, rules, selected), selected) == set n | n in names :: rules[n].id
    ensures Ids(SelectAll(names, rules, selected), !selected) == {}
  {
    var all := SelectAll(names, rules, selected);
    forall n <- names ensures rules[n].id in Ids(all, selected) {
      var i :| 0 <= i < |names| && names[i] == n;
      assert all[i] == Select(rules[n].id, selected);
    }
  }

  ghost predicate OrderIrrelevant(selects: seq<Select>) {
    forall base, permuted | multiset(permuted) == multiset(selects) ::
      ApplySelects(base, permuted) == ApplySelects(base, selects)
  }

  /** Every order of the elements means the same exactly when no idref is both selected and deselected. */
  lemma OrderIrrelevantExactlyWhenDisjoint(selects: seq<Select>)
    ensures OrderIrrelevant(selects) <==> Ids(selects, true) !! Ids(selects, false)
  {
    if Ids(selects, true) !! Ids(selects, false) {
      forall base, permuted | multiset(permuted) == multiset(selects)
        ensures ApplySelects(base, permuted) == ApplySelects(base, selects)
      {
        SameIds(permuted, selects);
        ApplyDisjoint(base, permuted);
        ApplyDisjoint(base, selects);
      }
    } else {
      var x :| x in Ids(selects, true) && x in Ids(selects, false);
      var up := MoveToEnd(selects, Select(x, true));
      var down := MoveToEnd(selects, Select(x, false));
      ApplyLast({}, up);
      ApplyLast({}, down);
      assert ApplySelects({}, up) != ApplySelects({}, down);
    }
  }

  lemma SameIds(a: seq<Select>, b: seq<Select>)
    requires multiset(a) == multiset(b)
    ensures forall selected :: Ids(a, selected) == Ids(b, selected)
  {
    assert forall e :: e in a <==> e in multiset(a);
    assert forall e :: e in b <==> e in multiset(b);
  }

  lemma MoveToEnd(selects: seq<Select>, e: Select) returns (moved: seq<Select>)
    requires e in selects
    ensures multiset(moved) == multiset(selects) && moved != [] && moved[|moved| - 1] == e
  {
    var i :| 0 <= i < |selects| && selects[i] == e;
    moved := selects[..i] + selects[i + 1..] + [e];
    assert selects == selects[..i] + [e] + selects[i + 1..];
  }

  lemma ApplyLast(base: set<string>, selects: seq<Select>)
    requires selects != []
    ensures selects[|selects| - 1].idref in ApplySelects(base, selects) <==> selects[|selects| - 1].selected
  {
    var last := selects[|selects| - 1];
    assert selects == selects[..|selects| - 1] + [last];
    ApplyConcat(base, selects[..|selects| - 1], [last]);
    assert [last][1..] == [];
  }
}
