/** pkg/controller/tailoredprofile/tailoredprofile_controller.go, call by call. */
module TailoredProfileController {
  import opened ApiTypes
  import opened ApiStore
  import opened ApiClient
  import opened Variables
  import opened Spec = TailoredProfileReconcile
  import Xccdf

  class Reconciler {
    const client: Client

    constructor (client: Client)
      ensures this.client == client
    {
      this.client := client;
    }

    method Reconcile(ns: string, name: string, time: string) returns (outcome: Outcome)
      modifies client
      ensures (client.world, outcome) == Spec.Reconcile(old(client.world), ns, name, time)
    {
      var got := client.Get(TailoredProfileKey(ns, name));
      if got.Err? {
        return if got.error == NotFound then Done else Requeue;
      }
      var instance := got.value;
      ghost var read := client.world;

      var canContinue, validation := ValidateTailoredProfile(ns, name, instance);
      if !canContinue {
        return validation;
      }

      var profile := client.Get(ProfileKey(ns, instance.body.spec.extended));
      if profile.Err? {
        if profile.error == NotFound {
          outcome := UpdateStatusError(ns, name, instance, ProfileMissing(instance.body.spec.extended));
          return;
        }
        return Requeue;
      }
      var p := profile.value;

      var owned := IsOwnedBy(instance.owners, p.uid);
      if !owned {
        var ref := OwnerOf("Profile", instance.body.spec.extended, p.uid, false);
        var updated := client.Update(TailoredProfileKey(ns, name), instance.version, Upsert(instance.owners, ref),
          instance.body);
        return OutcomeOf(updated);
      }

      var bundle := GetProfileBundleFromProfile(ns, p);
      if bundle.None? {
        return Requeue;
      }
      var pb := bundle.value;

      var rules := GetRulesFromSelections(ns, instance.body.spec);
      if !rules.Found? {
        if rules.Broken? {
          outcome := UpdateStatusError(ns, name, instance, rules.problem);
          return;
        }
        return Requeue;
      }

      var variables := GetVariablesFromSelections(ns, instance.body.spec);
      if !variables.Found? {
        if variables.Broken? {
          outcome := UpdateStatusError(ns, name, instance, variables.problem);
          return;
        }
        return Requeue;
      }

      var tailoring := Xccdf.TailoredProfileToXML(name, instance.body.spec, p.body.profile, pb.body.bundleSpec,
        rules.value, variables.value, time);
      outcome := EnsureOutputObject(ns, name, instance, pb.body.bundleSpec, tailoring);
    }

    /** When the reconcile cannot continue, this was all of it. */
    method ValidateTailoredProfile(ns: string, name: string, tp: Object) returns (canContinue: bool, outcome: Outcome)
      requires tp.body.TailoredProfileBody?
      modifies client
      ensures canContinue <==>
        tp.body.spec.extended != "" && tp.body.spec.outputType in {CONFIG_MAP_OUTPUT, POLICY_OUTPUT}
      ensures canContinue ==> client.world == old(client.world)
      ensures !canContinue ==> forall time ::
        (client.world, outcome) == ReconcileInstance(old(client.world), ns, name, tp, time)
    {
      outcome := Done;
      if tp.body.spec.extended == "" {
        outcome := UpdateStatusError(ns, name, tp, ExtendsEmpty);
        return false, outcome;
      }
      if tp.body.spec.outputType == CONFIG_MAP_OUTPUT {
      } else if tp.body.spec.outputType == POLICY_OUTPUT {
      } else if tp.body.spec.outputType == "" {
        var updated := client.Update(TailoredProfileKey(ns, name), tp.version, tp.owners,
          TailoredProfileBody(tp.body.spec.(outputType := CONFIG_MAP_OUTPUT), tp.body.status));
        return false, OutcomeOf(updated);
      } else {
        outcome := UpdateStatusError(ns, name, tp, OutputTypeInvalid);
        return false, outcome;
      }
      return true, Done;
    }

    method UpdateStatusError(ns: string, name: string, tp: Object, problem: Problem) returns (outcome: Outcome)
      requires tp.body.TailoredProfileBody?
      modifies client
      ensures (client.world, outcome) == ReportProblem(old(client.world), ns, name, tp, problem)
    {
      var status := tp.body.status.(state := StateError, problem := problem);
      var updated := client.UpdateStatus(TailoredProfileKey(ns, name), tp.version,
        TailoredProfileBody(tp.body.spec, status));
      return OutcomeOf(updated);
    }

    method UpdateStatusReady(ns: string, name: string, tp: Object, ref: OutputRef) returns (r: Reply<Object>)
      requires tp.body.TailoredProfileBody?
      modifies client
      ensures (client.world, r) == UpdateStatus(old(client.world), TailoredProfileKey(ns, name), tp.version,
                                     TailoredProfileBody(tp.body.spec, ReadyStatus(tp.body.status, name, ref)))
    {
      var status := tp.body.status.(state := StateReady, outputRef := ref, id := Xccdf.XccdfProfileID(name));
      r := client.UpdateStatus(TailoredProfileKey(ns, name), tp.version, TailoredProfileBody(tp.body.spec, status));
    }

    method GetRulesFromSelections(ns: string, spec: TailoredProfileSpec) returns (r: Lookup<map<string, Rule>>)
      modifies client
      ensures (client.world, r) == FetchRules(old(client.world), ns, spec.Selected(), map[])
    {
      var selected := spec.enableRules + spec.disableRules;
      var rules: map<string, Rule> := map[];
      for i := 0 to |selected|
        invariant FetchRules(old(client.world), ns, selected, map[]) ==
            FetchRules(client.world, ns, selected[i..], rules)
      {
        assert selected[i..][1..] == selected[i + 1..];
        if selected[i] in rules {
          return Broken(RuleRepeated(selected[i]));
        }
        var got := client.Get(RuleKey(ns, selected[i]));
        if got.Err? {
          return if got.error == NotFound then Broken(RuleMissing(selected[i])) else Unavailable;
        }
        rules := rules[selected[i] := got.value.body.rule];
      }
      return Found(rules);
    }

    method GetVariablesFromSelections(ns: string, spec: TailoredProfileSpec) returns (r: Lookup<seq<VariableData>>)
      modifies client
      ensures (client.world, r) == FetchVariables(old(client.world), ns, spec.setValues, [])
    {
      var settings := spec.setValues;
      var variables: seq<VariableData> := [];
      for i := 0 to |settings|
        invariant FetchVariables(old(client.world), ns, settings, [])
               == FetchVariables(client.world, ns, settings[i..], variables)
      {
        assert settings[i..][1..] == settings[i + 1..];
        var got := client.Get(VariableKey(ns, settings[i].name));
        if got.Err? {
          return if got.error == NotFound then Broken(VariableMissing(settings[i].name)) else Unavailable;
        }
        var variable := new Variable(got.value.body.variable);
        var ok := variable.SetValue(settings[i].value);
        if !ok {
          return Broken(ValueRejected(settings[i].value));
        }
        variables := variables + [variable.Data()];
      }
      return Found(variables);
    }

    /** No bundle is a Profile without a bundle reference, or a bundle that could not be read. */
    method GetProfileBundleFromProfile(ns: string, p: Object) returns (r: Option<Object>)
      requires p.body.ProfileBody?
      modifies client
      ensures var ref := BundleReference(p.owners);
        if ref.None? then client.world == old(client.world) && r.None?
        else
          var got := ApiStore.Get(old(client.world), BundleKey(ns, ref.value.name));
          client.world == got.0 && r == if got.1.Ok? then Some(got.1.value) else None
      ensures r.Some? ==> r.value.body.ProfileBundleBody?
    {
      var ref := GetProfileBundleReferenceFromProfile(p.owners);
      if ref.None? {
        return None;
      }
      var got := client.Get(BundleKey(ns, ref.value.name));
      return if got.Ok? then Some(got.value) else None;
    }

    method EnsureOutputObject(ns: string, name: string, tp: Object, bundle: BundleSpec, tailoring: Tailoring)
      returns (outcome: Outcome)
      requires tp.body.TailoredProfileBody? && tp.body.spec.outputType in {CONFIG_MAP_OUTPUT, POLICY_OUTPUT}
      modifies client
      ensures (client.world, outcome)
           == EnsureOutput(old(client.world), ns, name, tp, OutputFor(ns, name, tp, bundle, tailoring))
    {
      if tp.body.spec.outputType == CONFIG_MAP_OUTPUT {
        outcome := EnsureConfigMapOutputObject(ns, name, tp, tailoring);
      } else {
        outcome := EnsurePolicyOutputObject(ns, name, tp, bundle, tailoring);
      }
    }

    method EnsureConfigMapOutputObject(ns: string, name: string, tp: Object, tailoring: Tailoring)
      returns (outcome: Outcome)
      requires tp.body.TailoredProfileBody?
      modifies client
      ensures (client.world, outcome)
           == EnsureOutput(old(client.world), ns, name, tp, ConfigMapOutput(ns, name, tp.uid, tailoring))
    {
      var configMap := ConfigMapOutput(ns, name, tp.uid, tailoring);
      var found := client.Get(configMap.key);
      if found.Err? && found.error == NotFound {
        var ready := UpdateStatusReady(ns, name, tp, configMap.ref);
        if ready.Err? {
          return Requeue;
        }
        var made := client.Create(configMap.key, configMap.owners, configMap.body);
        return OutcomeOf(made);
      }
      return OutcomeOf(found);
    }

    method EnsurePolicyOutputObject(ns: string, name: string, tp: Object, bundle: BundleSpec, tailoring: Tailoring)
      returns (outcome: Outcome)
      requires tp.body.TailoredProfileBody?
      modifies client
      ensures (client.world, outcome)
           == EnsureOutput(old(client.world), ns, name, tp, PolicyOutput(ns, name, bundle, tailoring))
    {
      var policy := PolicyOutput(ns, name, bundle, tailoring);
      var found := client.Get(policy.key);
      if found.Err? && found.error == NotFound {
        var ready := UpdateStatusReady(ns, name, tp, policy.ref);
        if ready.Err? {
          return Requeue;
        }
        var made := client.Create(policy.key, policy.owners, policy.body);
        return OutcomeOf(made);
      }
      return OutcomeOf(found);
    }
  }

  method IsOwnedBy(owners: seq<OwnerRef>, uid: nat) returns (owned: bool)
    ensures owned <==> OwnedBy(owners, uid)
  {
    for i := 0 to |owners|
      invariant forall j :: 0 <= j < i ==> owners[j].uid != uid
    {
      if owners[i].uid == uid {
        return true;
      }
    }
    return false;
  }

  method GetProfileBundleReferenceFromProfile(owners: seq<OwnerRef>) returns (ref: Option<OwnerRef>)
    ensures ref == BundleReference(owners)
  {
    for i := 0 to |owners|
      invariant BundleReference(owners) == BundleReference(owners[i..])
    {
      assert owners[i..][1..] == owners[i + 1..];
      if RefersToBundle(owners[i]) {
        return Some(owners[i]);
      }
    }
    return None;
  }
}
