/** What one run of the profile parser does to the world: a function of the world it starts in, with
    every API call in the order in which the parser makes it. */
module Import {
  import opened ApiTypes
  import opened ApiStore
  import opened Xccdf
  import opened Datastream
  import opened Annotations
  import opened FixParser
  import opened VariableParser

  /** Whose content is imported, and the standards whose references become annotations. */
  datatype Config = Config(ns: string, bundle: string, standards: seq<Standard>)

  datatype Content = Unreadable(error: string) | Malformed(error: string) | Parsed(document: Document)

  /** A parser that exits with a failure is restarted. */
  datatype Exit = ExitSuccess | ExitFailure

  function PrefixedName(bundle: string, name: string): string { bundle + "-" + name }

  // --- the objects made of a document ------------------------------------------------------

  /** An object to be created, if nothing has its key yet. */
  datatype ItemData = ItemData(key: Key, owners: seq<OwnerRef>, body: Body)

  type Item = i: ItemData | i.body.BodyKind() == i.key.kind
    witness ItemData(Key(PodKind, "", ""), [], PodBody(Pod([])))

  /** What the parser does with one node of the document. A required object is one whose creation
      must not fail. */
  datatype Step = Make(item: Item, required: bool) | Skip | Stop(error: string)

  /** The prefixed names of the rules a profile selects; elements without an idref are passed over. */
  function SelectedRules(c: Config, selects: seq<SelectNode>): seq<string> {
    if selects == [] then []
    else
      var last := selects[|selects| - 1];
      SelectedRules(c, selects[..|selects| - 1])
        + if last.idref != "" && last.selected == "true" then
            [PrefixedName(c.bundle, RuleNameFromID(last.idref))]
          else []
  }

  function SelectedValues(idrefs: seq<string>): seq<string> {
    if idrefs == [] then []
    else SelectedValues(idrefs[..|idrefs| - 1]) + if idrefs[|idrefs| - 1] != "" then [idrefs[|idrefs| - 1]] else []
  }

  function ProfileItem(c: Config, uid: nat, n: ProfileNode): Item
    requires n.title.Some? && n.description.Some?
  {
    ItemData(ProfileKey(c.ns, PrefixedName(c.bundle, ProfileNameFromID(n.id))), BundleOwners(c.bundle, uid),
      ProfileBody(Profile(
        n.id, n.title.value, n.description.value, SelectedRules(c, n.selects), SelectedValues(n.setValues))))
  }

  function RuleItem(c: Config, uid: nat, n: RuleNode): Item
    requires n.title.Some?
  {
    var name := RuleNameFromID(n.id);
    var annotations := AnnotationsFor(Hits(n.references, c.standards), REGISTERED_FORMATTERS);
    ItemData(RuleKey(c.ns, PrefixedName(c.bundle, name)), BundleOwners(c.bundle, uid),
      RuleBody(Rule(n.id, n.title.value, annotations[RULE_ID_ANNOTATION_KEY := name], FixesOf(n.fixes))))
  }

  function VariableItem(c: Config, uid: nat, n: ValueNode, v: VariableData): Item {
    ItemData(VariableKey(c.ns, PrefixedName(c.bundle, VariableNameFromID(n.id))), BundleOwners(c.bundle, uid),
      VariableBody(v))
  }

  function ProfileStep(c: Config, uid: nat, n: ProfileNode): Step {
    if n.id == "" then Stop("no id in profile")
    else if n.title.None? then Stop("no title in profile")
    else if n.description.None? then Stop("no description in profile")
    else Make(ProfileItem(c, uid, n), true)
  }

  /** A rule that cannot be created is logged and passed over. */
  function RuleStep(c: Config, uid: nat, n: RuleNode): Step {
    if n.id == "" then Stop("no id in rule")
    else if n.title.None? then Stop("no title in rule")
    else Make(RuleItem(c, uid, n), false)
  }

  /** So is a variable that cannot be created, or whose values cannot be parsed. */
  function ValueStep(c: Config, uid: nat, n: ValueNode): Step {
    if n.hidden == "true" then Skip
    else if n.id == "" then Stop("no id in variable")
    else if n.title.None? then Stop("no title in variable")
    else
      match VariableOf(n)
      case None => Skip
      case Some(v) => Make(VariableItem(c, uid, n, v), false)
  }

  function ProfileSteps(c: Config, uid: nat, nodes: seq<ProfileNode>): (r: seq<Step>)
    ensures |r| == |nodes| && forall i :: 0 <= i < |r| ==> r[i] == ProfileStep(c, uid, nodes[i])
  {
    seq(|nodes|, i requires 0 <= i < |nodes| => ProfileStep(c, uid, nodes[i]))
  }

  function RuleSteps(c: Config, uid: nat, nodes: seq<RuleNode>): (r: seq<Step>)
    ensures |r| == |nodes| && forall i :: 0 <= i < |r| ==> r[i] == RuleStep(c, uid, nodes[i])
  {
    seq(|nodes|, i requires 0 <= i < |nodes| => RuleStep(c, uid, nodes[i]))
  }

  function ValueSteps(c: Config, uid: nat, nodes: seq<ValueNode>): (r: seq<Step>)
    ensures |r| == |nodes| && forall i :: 0 <= i < |r| ==> r[i] == ValueStep(c, uid, nodes[i])
  {
    seq(|nodes|, i requires 0 <= i < |nodes| => ValueStep(c, uid, nodes[i]))
  }

  /** All profiles, then all rules, then all values. */
  function Steps(c: Config, uid: nat, d: Document): seq<Step> {
    ProfileSteps(c, uid, d.profiles) + (RuleSteps(c, uid, d.rules) + ValueSteps(c, uid, d.values))
  }

  // --- the run -----------------------------------------------------------------------------

  /** Creates an object; one that is already there is as good. */
  function CreateUnlessPresent(w: World, i: Item): (World, bool) {
    var r := Create(w, i.key, i.owners, i.body);
    (r.0, r.1.Ok? || r.1.error == AlreadyExists)
  }

  /** Stands for the message of the API error with which the creation of a profile failed. */
  const CREATE_FAILED := "couldn't create profile"

  /** Takes the steps in order, up to the first that stops the import with an error. */
  function RunSteps(w: World, steps: seq<Step>): (World, Option<string>)
    decreases |steps|
  {
    if steps == [] then (w, None)
    else
      match steps[0]
      case Stop(error) => (w, Some(error))
      case Skip => RunSteps(w, steps[1..])
      case Make(item, required) =>
        var r := CreateUnlessPresent(w, item);
        if r.1 || !required then RunSteps(r.0, steps[1..]) else (r.0, Some(CREATE_FAILED))
  }

  lemma {:induction false} RunStepsConcat(w: World, a: seq<Step>, b: seq<Step>)
    ensures RunSteps(w, a + b) == if RunSteps(w, a).1.Some? then RunSteps(w, a) else RunSteps(RunSteps(w, a).0, b)
    decreases |a|
  {
    if a == [] {
      assert a + b == b;
    } else {
      assert (a + b)[1..] == a[1..] + b;
      match a[0] {
        case Stop(_) =>
        case Skip => RunStepsConcat(w, a[1..], b);
        case Make(item, _) => RunStepsConcat(CreateUnlessPresent(w, item).0, a[1..], b);
      }
    }
  }

  /** VALID keeps the error message of an earlier verdict. */
  function VerdictStatus(s: BundleStatus, error: Option<string>): BundleStatus {
    match error
    case Some(message) => BundleStatus(BundleInvalid, message)
    case None => s.(state := BundleValid)
  }

  function StoreVerdict(w: World, c: Config, pb: Object, error: Option<string>): (World, Exit)
    requires pb.body.ProfileBundleBody?
  {
    var r := UpdateStatus(w, BundleKey(c.ns, c.bundle), pb.version,
      ProfileBundleBody(pb.body.bundleSpec, VerdictStatus(pb.body.bundleStatus, error)));
    (r.0, if r.1.Ok? then ExitSuccess else ExitFailure)
  }

  /** A whole run. */
  function ImportContent(w: World, c: Config, content: Content): (World, Exit) {
    var got := Get(w, BundleKey(c.ns, c.bundle));
    if got.1.Err? then (got.0, ExitFailure) else ImportInto(got.0, c, got.1.value, content)
  }

  /** Once the bundle has been read. Content that cannot be read is reported, and still ends in a
      failure exit. */
  function ImportInto(w: World, c: Config, pb: Object, content: Content): (World, Exit)
    requires pb.body.ProfileBundleBody?
  {
    match content
    case Unreadable(error) => (StoreVerdict(w, c, pb, Some("Couldn't read content file: " + error)).0, ExitFailure)
    case Malformed(error) => (StoreVerdict(w, c, pb, Some("Couldn't read content XML: " + error)).0, ExitFailure)
    case Parsed(d) =>
      var objects := RunSteps(w, Steps(c, pb.uid, d));
      StoreVerdict(objects.0, c, pb, objects.1)
  }
}
