/** cmd/profileparser/main.go and the two document loops of pkg/profileparser/profileparser.go. */
module ProfileParser {
  import opened ApiTypes
  import opened ApiStore
  import opened ApiClient
  import opened Xccdf
  import opened Datastream
  import opened Annotations
  import opened FixParser
  import opened VariableParser
  import opened Variables
  import opened Import

  class Parser {
    const client: Client
    const config: Config

    constructor (client: Client, config: Config)
      ensures this.client == client && this.config == config
    {
      this.client, this.config := client, config;
    }

    method Run(content: Content) returns (exit: Exit)
      modifies client
      ensures (client.world, exit) == ImportContent(old(client.world), config, content)
    {
      var got := client.Get(BundleKey(config.ns, config.bundle));
      if got.Err? {
        return ExitFailure;
      }
      var pb := got.value;
      if content.Unreadable? {
        var _ := UpdateProfileBundleStatus(pb, Some("Couldn't read content file: " + content.error));
        return ExitFailure;
      }
      if content.Malformed? {
        var _ := UpdateProfileBundleStatus(pb, Some("Couldn't read content XML: " + content.error));
        return ExitFailure;
      }
      ghost var w, d := client.world, content.document;
      ghost var ps, rs, vs := ProfileSteps(config, pb.uid, d.profiles), RuleSteps(config, pb.uid, d.rules),
        ValueSteps(config, pb.uid, d.values);
      RunStepsConcat(w, ps, rs + vs);
      RunStepsConcat(RunSteps(w, ps).0, rs, vs);

      var err := ParseProfilesAndDo(content.document.profiles, pb.uid);
      if err.Some? {
        exit := UpdateProfileBundleStatus(pb, err);
        return;
      }
      err := ParseRulesAndDo(content.document.rules, pb.uid);
      if err.Some? {
        exit := UpdateProfileBundleStatus(pb, err);
        return;
      }
      err := ParseVariablesAndDo(content.document.values, pb.uid);
      exit := UpdateProfileBundleStatus(pb, err);
    }

    method UpdateProfileBundleStatus(pb: Object, err: Option<string>) returns (exit: Exit)
      requires pb.body.ProfileBundleBody?
      modifies client
      ensures (client.world, exit) == StoreVerdict(old(client.world), config, pb, err)
    {
      var status := pb.body.bundleStatus;
      if err.Some? {
        status := status.(state := BundleInvalid, message := err.value);
      } else {
        status := status.(state := BundleValid);
      }
      var updated := client.UpdateStatus(BundleKey(config.ns, config.bundle), pb.version,
        ProfileBundleBody(pb.body.bundleSpec, status));
      return if updated.Ok? then ExitSuccess else ExitFailure;
    }

    method ParseProfilesAndDo(nodes: seq<ProfileNode>, uid: nat) returns (err: Option<string>)
      modifies client
      ensures (client.world, err) == RunSteps(old(client.world), ProfileSteps(config, uid, nodes))
    {
      ghost var steps := ProfileSteps(config, uid, nodes);
      for i := 0 to |nodes|
        invariant RunSteps(old(client.world), steps) == RunSteps(client.world, steps[i..])
      {
        assert steps[i..][1..] == steps[i + 1..];
        var node := nodes[i];
        if node.id == "" {
          return Some("no id in profile");
        }
        if node.title.None? {
          return Some("no title in profile");
        }
        if node.description.None? {
          return Some("no description in profile");
        }
        var selectedRules := CollectSelectedRules(node.selects);
        var selectedValues := CollectSelectedValues(node.setValues);
        var profile := Profile(node.id, node.title.value, node.description.value, selectedRules, selectedValues);
        var done := CreateObject(ItemData(
          ProfileKey(config.ns, PrefixedName(config.bundle, ProfileNameFromID(node.id))),
          BundleOwners(config.bundle, uid), ProfileBody(profile)));
        if !done {
          return Some(CREATE_FAILED);
        }
      }
      return None;
    }

    method CollectSelectedRules(selects: seq<SelectNode>) returns (names: seq<string>)
      ensures names == SelectedRules(config, selects)
    {
      names := [];
      for i := 0 to |selects|
        invariant names == SelectedRules(config, selects[..i])
      {
        assert selects[..i + 1][..i] == selects[..i];
        if selects[i].idref == "" {
          continue;
        }
        if selects[i].selected == "true" {
          names := names + [PrefixedName(config.bundle, RuleNameFromID(selects[i].idref))];
        }
      }
      assert selects[..|selects|] == selects;
    }

    method CollectSelectedValues(idrefs: seq<string>) returns (values: seq<string>)
      ensures values == SelectedValues(idrefs)
    {
      values := [];
      for i := 0 to |idrefs|
        invariant values == SelectedValues(idrefs[..i])
      {
        assert idrefs[..i + 1][..i] == idrefs[..i];
        if idrefs[i] == "" {
          continue;
        }
        values := values + [idrefs[i]];
      }
      assert idrefs[..|idrefs|] == idrefs;
    }

    /** The create-if-absent action shared by the three loops. */
    method CreateObject(i: Item) returns (done: bool)
      modifies client
      ensures (client.world, done) == CreateUnlessPresent(old(client.world), i)
    {
      var r := client.Create(i.key, i.owners, i.body);
      if r.Err? {
        return r.error == AlreadyExists;
      }
      return true;
    }

    method ParseRulesAndDo(nodes: seq<RuleNode>, uid: nat) returns (err: Option<string>)
      modifies client
      ensures (client.world, err) == RunSteps(old(client.world), RuleSteps(config, uid, nodes))
    {
      ghost var steps := RuleSteps(config, uid, nodes);
      for i := 0 to |nodes|
        invariant RunSteps(old(client.world), steps) == RunSteps(client.world, steps[i..])
      {
        assert steps[i..][1..] == steps[i + 1..];
        var node := nodes[i];
        if node.id == "" {
          return Some("no id in rule");
        }
        if node.title.None? {
          return Some("no title in rule");
        }
        var fixes := CollectFixes(node.fixes);
        var annotations := ParseXmlNode(node.references, config.standards, REGISTERED_FORMATTERS);
        var name := RuleNameFromID(node.id);
        annotations.entries := annotations.entries[RULE_ID_ANNOTATION_KEY := name];
        var rule := Rule(node.id, node.title.value, annotations.entries, fixes);
        var _ := CreateObject(ItemData(RuleKey(config.ns, PrefixedName(config.bundle, name)),
          BundleOwners(config.bundle, uid), RuleBody(rule)));
      }
      return None;
    }

    method ParseVariablesAndDo(nodes: seq<ValueNode>, uid: nat) returns (err: Option<string>)
      modifies client
      ensures (client.world, err) == RunSteps(old(client.world), ValueSteps(config, uid, nodes))
    {
      ghost var steps := ValueSteps(config, uid, nodes);
      for i := 0 to |nodes|
        invariant RunSteps(old(client.world), steps) == RunSteps(client.world, steps[i..])
      {
        assert steps[i..][1..] == steps[i + 1..];
        var node := nodes[i];
        if node.hidden == "true" {
          continue;
        }
        if node.id == "" {
          return Some("no id in variable");
        }
        if node.title.None? {
          return Some("no title in variable");
        }
        var v := ParseVariable(node);
        if v.None? {
          continue;
        }
        var _ := CreateObject(ItemData(VariableKey(config.ns, PrefixedName(config.bundle, VariableNameFromID(node.id))),
          BundleOwners(config.bundle, uid), VariableBody(v.value)));
      }
      return None;
    }

    method ParseVariable(node: ValueNode) returns (r: Option<VariableData>)
      requires node.title.Some?
      ensures r == VariableOf(node)
    {
      var v := new Variable(VariableData(node.id, node.title.value, TypeOf(node.typeAttribute), "", []));
      var ok := ParseVarValues(node.items, v);
      assert [] + Choices(node.items) == Choices(node.items);
      return if ok then Some(v.Data()) else None;
    }
  }
}
