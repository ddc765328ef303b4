/** The custom resources of pkg/apis/compliance/v1alpha1 and the few core objects the operator
    reads or creates, as values. Fields nothing depends on are left out. */
module ApiTypes {

  const API_GROUP := "compliance.openshift.io"
  const API_VERSION := "v1alpha1"

  datatype Option<+T> = None | Some(value: T)

  /** An owner reference; its apiVersion is kept as the two parts `group/version`. */
  datatype OwnerRef = OwnerRef(group: string, version: string, kind: string, name: string, uid: nat, controller: bool)

  /** A reference to an object of this operator's own API group. */
  function OwnerOf(kind: string, name: string, uid: nat, controller: bool): OwnerRef {
    OwnerRef(API_GROUP, API_VERSION, kind, name, uid, controller)
  }

  predicate OwnedBy(owners: seq<OwnerRef>, uid: nat) { exists r <- owners :: r.uid == uid }

  /** The owners of an object that a bundle controls. */
  function BundleOwners(bundle: string, uid: nat): (r: seq<OwnerRef>)
    ensures OwnedBy(r, uid)
  {
    var ref := OwnerOf("ProfileBundle", bundle, uid, true);
    assert ref in [ref];
    [ref]
  }

  // --- TailoredProfile ---------------------------------------------------------------------

  const CONFIG_MAP_OUTPUT := "ConfigMap"
  const POLICY_OUTPUT := "Policy"

  datatype ValueSetting = ValueSetting(name: string, value: string)

  datatype TailoredProfileSpec = TailoredProfileSpec(
    extended: string, title: string, description: string, outputType: string,
    enableRules: seq<string>, disableRules: seq<string>, setValues: seq<ValueSetting>)
  {
    /** The rule names in the order in which the reconciler looks them up. */
    function Selected(): seq<string> { enableRules + disableRules }
  }

  datatype TailoredProfileState = StateUnset | StatePending | StateReady | StateError

  /** What an error message in a TailoredProfile's status complains about. */
  datatype Problem =
    | NoProblem
    | ExtendsEmpty
    | OutputTypeInvalid
    | ProfileMissing(profile: string)
    | RuleRepeated(rule: string)
    | RuleMissing(rule: string)
    | VariableMissing(variable: string)
    | ValueRejected(value: string)

  datatype OutputRef = OutputRef(name: string, namespace: string)

  datatype TailoredProfileStatus = TailoredProfileStatus(
    id: string, outputRef: OutputRef, state: TailoredProfileState, problem: Problem)

  // --- ProfileBundle and its pod -----------------------------------------------------------

  datatype BundleState = BundleUnset | BundlePending | BundleValid | BundleInvalid

  datatype BundleSpec = BundleSpec(contentImage: string, contentFile: string)

  datatype BundleStatus = BundleStatus(state: BundleState, message: string)

  datatype InitStatus = InitStatus(ready: bool, waiting: Option<string>)

  datatype Pod = Pod(initStatuses: seq<InitStatus>)

  // --- objects extracted from a datastream -------------------------------------------------

  datatype Profile = Profile(id: string, title: string, description: string, rules: seq<string>, values: seq<string>)

  datatype Fix = Fix(platform: string, disruption: string, content: string)

  datatype Rule = Rule(id: string, title: string, annotations: map<string, string>, fixes: seq<Fix>)

  datatype ValueSelection = ValueSelection(description: string, value: string)

  datatype VariableData = VariableData(
    id: string, title: string, varType: string, value: string, selections: seq<ValueSelection>)

  // --- generated output --------------------------------------------------------------------

  /** An XCCDF `select` element. */
  datatype Select = Select(idref: string, selected: bool)

  /** An XCCDF `set-value` element. */
  datatype SetValue = SetValue(idref: string, value: string)

  /** The element tree of a generated XCCDF tailoring. */
  datatype Tailoring = Tailoring(
    id: string, time: string, href: string, profileId: string, extended: string,
    title: Option<string>, description: Option<string>, selections: seq<Select>, values: seq<SetValue>)

  /** A Policy wraps the ConfigMap and the suite that scans with it. */
  datatype Policy = Policy(
    configMapName: string, tailoring: Tailoring, scanProfile: string, scanContent: string,
    scanImage: string, scanConfigMap: string)

  // --- any stored object -------------------------------------------------------------------

  datatype Kind =
    | TailoredProfileKind | ProfileKind | RuleKind | VariableKind | ProfileBundleKind
    | ConfigMapKind | PolicyKind | PodKind

  datatype Key = Key(kind: Kind, namespace: string, name: string)

  function TailoredProfileKey(ns: string, name: string): Key { Key(TailoredProfileKind, ns, name) }
  function ProfileKey(ns: string, name: string): Key { Key(ProfileKind, ns, name) }
  function BundleKey(ns: string, name: string): Key { Key(ProfileBundleKind, ns, name) }
  function RuleKey(ns: string, name: string): Key { Key(RuleKind, ns, name) }
  function VariableKey(ns: string, name: string): Key { Key(VariableKind, ns, name) }

  datatype Body =
    | TailoredProfileBody(spec: TailoredProfileSpec, status: TailoredProfileStatus)
    | ProfileBody(profile: Profile)
    | RuleBody(rule: Rule)
    | VariableBody(variable: VariableData)
    | ProfileBundleBody(bundleSpec: BundleSpec, bundleStatus: BundleStatus)
    | ConfigMapBody(tailoring: Tailoring)
    | PolicyBody(policy: Policy)
    | PodBody(pod: Pod)
  {
    function BodyKind(): Kind {
      match this
      case TailoredProfileBody(_, _) => TailoredProfileKind
      case ProfileBody(_) => ProfileKind
      case RuleBody(_) => RuleKind
      case VariableBody(_) => VariableKind
      case ProfileBundleBody(_, _) => ProfileBundleKind
      case ConfigMapBody(_) => ConfigMapKind
      case PolicyBody(_) => PolicyKind
      case PodBody(_) => PodKind
    }
  }
}
