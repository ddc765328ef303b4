# A model of the compliance profile operator

The operator imports SCAP content into a Kubernetes cluster and turns user selections into XCCDF 1.2
tailorings (NISTIR 7275 Revision 4, section 6.5 for profiles and selectors, section 6.7 for tailoring).
Three programs share one API server:

* the **ProfileBundle controller** starts a pod for every bundle and reports whether the pod could start;
* the **profile parser**, which runs in that pod, reads the bundle's datastream, creates the Profile, Rule
  and Variable objects in it, and stores the verdict VALID or INVALID;
* the **TailoredProfile controller** looks up the rules and variables that a TailoredProfile names and
  publishes the resulting tailoring in a ConfigMap or a Policy.

## How the model is built

`ApiStore.dfy` is the API server: a store from (kind, namespace, name) to objects with a uid and a version.
A creation fails when the key is taken, an update fails when the caller's version is stale, and a write that
changes nothing keeps the version. A `World` is a store together with a script: for every future API call
the script says what everybody else writes just before it and whether the call fails, before or after it has
taken effect. A statement about every script is a statement about every interleaving with other writers and
every pattern of failures. The log of a world records what the program under study has read and written.

Each program has two descriptions. The classes `TailoredProfileController.Reconciler`,
`BundleController.Reconciler` and `ProfileParser.Parser` make the API calls one by one through a `Client`,
with the loops and early exits of the Go code. The functions `TailoredProfileReconcile.Reconcile`,
`BundleReconcile.Reconcile` and `Import.ImportContent` say what a whole run does to a world. Every method is
proved equal to its function, and the theorems are about the functions.

| file | subject |
|---|---|
| `ApiTypes`, `ApiStore`, `ApiClient`, `Text` | objects, API server, client, string operations |
| `Xccdf` | names derived from IDs, the tailoring element tree and what its selectors mean |
| `Datastream`, `Annotations`, `FixParser`, `VariableParser`, `Variables` | what is extracted from a datastream |
| `Import`, `ProfileParser` | a run of the parser |
| `ImportRestart`, `ImportCollisions`, `ImportResults`, `ImportedObjects`, `ImportedTerms` | what runs of the parser guarantee |
| `TailoredProfileReconcile`, `TailoredProfileController` | a TailoredProfile reconcile |
| `TailoredProfileConvergence`, `TailoredProfileOutcomes`, `TailoredProfileProblems`, `TailoredProfileFaults`, `TailoredProfilePublication`, `TailoredProfileWriteOnce` | what reconciles guarantee, alone and among other writers |
| `EndToEnd`, `PublishedOutput` | from a datastream to a published output, field by field |
| `BundleReconcile`, `BundleController`, `BundleProtocol`, `ImportProtocol` | a ProfileBundle reconcile, and the race between controller, kubelet, parser and users |
| `GarbageCollection`, `UniqueUids` | deletion of a bundle, and the uids that ownership goes by |

`BundleProtocol` is a state machine of its own because the ProfileBundle controller reads from a cache: it
may see any earlier state, as long as it does not see the pod in an older state than the bundle. Its steps
use the decision functions of `BundleReconcile` and the verdict of `Import`, and
`ReconcileIsARunOfTheController` and `ImportIsARunOfTheParser` tie its controller and its parser back to the
programs.

## Where the code does less than a reader may expect

The model follows the code; each difference is a lemma that says exactly when the expected statement holds.

* READY is stored before the output is created. A pass that is stopped in between, which is then retried,
  leaves READY without the output; a pass that returns no error never does
  (`ReadyWithoutOutputExactly`). Which calls have to fail for that is `ReadyWithoutOutputByFaults`.
* An output that exists is never brought up to date with an edited spec, and the status of an earlier error
  stays (`OutputIsCurrentExactly`, `StatusAfterPass`).
* For a Policy the status refers to the embedded ConfigMap without a namespace, and the Policy has no owner
  (`OutputRefNamesTheOutputExactlyForConfigMaps`); so a published output outlives its bundle exactly when it
  is a Policy (`OutputOutlivesTheBundleExactlyForPolicies`).
* READY, VALID and PENDING leave the error message of an earlier state as it was (`ReadyKeepsMessage`,
  `ValidKeepsMessage`, `PendingKeepsMessage`).
* The parser swallows failures to create rules and variables. VALID means that all of them exist exactly when
  each missing name had a creation that was not refused (`ValidMeansEverythingExistsExactly`,
  `ValidWithoutRule`). Of two differing rules with one name a refused creation makes the wrong one win for
  good; importing is safe to restart after such failures exactly when there are no such rules or variables
  (`RestartSafeExactlyWithoutCollisions`).
* An annotation item that contains its separator is appended again every time
  (`AppendIdempotentExactlyWhenFree`); an annotation is the deduplication of what was recorded under it
  exactly when nothing of that contains the separator (`ControlsOfStandardAreDeduplicated` and its siblings).
* Two IDs with one normalised name cannot be told apart: only the first in the document can be selected
  (`IdRoundTrip`).
* The order of the select elements matters exactly when some idref is both selected and deselected
  (`OrderIrrelevantExactlyWhenDisjoint`). That never happens when the selected Rule objects were imported
  from one bundle (`OrderIrrelevantForOneBundle`), and it does happen with two (`OrderMattersForTwoBundles`).
* A verdict could be overwritten exactly in the cases of `VerdictOverwrittenExactly`, all of which need the
  pod to be read in an older state than the bundle, and it would be if an init container could lose its
  readiness (`LostReadinessOverwritesVerdict`).

## Model

| member | source | states |
|---|---|---|
| TailoredProfileController.Reconciler.Reconcile | pkg/controller/tailoredprofile/tailoredprofile_controller.go:85-177 | one reconcile makes exactly the API calls, in order, of the specification `Reconcile`, whatever happens between and to them |
| TailoredProfileController.Reconciler.ValidateTailoredProfile | pkg/controller/tailoredprofile/tailoredprofile_controller.go:181-213 | goes on exactly for a non-empty extends and a known output type; otherwise the reconcile is over after one write |
| TailoredProfileController.Reconciler.GetRulesFromSelections | pkg/controller/tailoredprofile/tailoredprofile_controller.go:215-234 | the loop over enabled then disabled names is the recursive lookup: repeated and missing names are the user's, other failures are retried |
| TailoredProfileController.Reconciler.GetVariablesFromSelections | pkg/controller/tailoredprofile/tailoredprofile_controller.go:236-258 | likewise for set-values: every variable is looked up and set, in order |
| TailoredProfileController.Reconciler.UpdateStatusReady | pkg/controller/tailoredprofile/tailoredprofile_controller.go:260-270 | stores READY, the reference and the XCCDF ID under the version read, and keeps an old message |
| TailoredProfileController.Reconciler.UpdateStatusError | pkg/controller/tailoredprofile/tailoredprofile_controller.go:272-278 | stores ERROR and the problem under the version read |
| TailoredProfileController.Reconciler.GetProfileBundleFromProfile | pkg/controller/tailoredprofile/tailoredprofile_controller.go:280-291 | reads the bundle that the Profile's first bundle reference names, if it has one |
| TailoredProfileController.Reconciler.EnsureOutputObject | pkg/controller/tailoredprofile/tailoredprofile_controller.go:293-303 | publishes the kind of output the spec asks for |
| TailoredProfileController.Reconciler.EnsureConfigMapOutputObject | pkg/controller/tailoredprofile/tailoredprofile_controller.go:305-338 | READY first, then the creation, and neither when the ConfigMap is there |
| TailoredProfileController.Reconciler.EnsurePolicyOutputObject | pkg/controller/tailoredprofile/tailoredprofile_controller.go:340-434 | the same for a Policy that embeds the ConfigMap |
| TailoredProfileController.GetProfileBundleReferenceFromProfile | pkg/controller/tailoredprofile/tailoredprofile_controller.go:436-443 | the loop with its early return is the recursive search for the first bundle reference |
| TailoredProfileController.IsOwnedBy | pkg/controller/tailoredprofile/tailoredprofile_controller.go:466-474 | true exactly when some owner reference has the uid |
| TailoredProfileReconcile.FirstBundleIsReferredTo | pkg/controller/tailoredprofile/tailoredprofile_controller.go:436-443 | among any owners the first of kind ProfileBundle in the operator's API group and version is the bundle reference; without one there is none |
| TailoredProfileReconcile.SettingAnOwner | pkg/controller/tailoredprofile/tailoredprofile_controller.go:127-131 | the new owner replaces the first reference of its group, kind and name in place, or comes last; all others stay |
| TailoredProfileConvergence.RulesFoundExactly | pkg/controller/tailoredprofile/tailoredprofile_controller.go:215-234 | the rules are found exactly when no name repeats and every one names a stored Rule |
| TailoredProfileConvergence.VariablesFoundExactly | pkg/controller/tailoredprofile/tailoredprofile_controller.go:236-258 | the variables are found exactly when each setting names a Variable that accepts its value |
| TailoredProfileConvergence.QuietReconcile | pkg/controller/tailoredprofile/tailoredprofile_controller.go:85-177 | with no other writers a pass has its whole effect, none, or has stored READY only; without failures it has its whole effect and returns an error exactly when the bundle of an owned Profile is missing |
| TailoredProfileConvergence.PassLowersMeasure | pkg/controller/tailoredprofile/tailoredprofile_controller.go:85-213 | the number of phases left (output type unset, not owned, result not settled) falls by one with each full pass until it is zero, and at zero a pass changes nothing |
| TailoredProfileConvergence.FailuresNeverRaiseMeasure | pkg/controller/tailoredprofile/tailoredprofile_controller.go:305-338 | a pass that fails in any way at any call never raises that number |
| TailoredProfileConvergence.PassesConverge | pkg/controller/tailoredprofile/tailoredprofile_controller.go:85-177 | as many passes as the number says lead to a fixed point |
| TailoredProfileConvergence.ThreePassesReachAFixedPoint | pkg/controller/tailoredprofile/tailoredprofile_controller.go:85-177 | from any store three passes reach a store that every further pass leaves as it is |
| TailoredProfileConvergence.SuccessesConverge | pkg/controller/tailoredprofile/tailoredprofile_controller.go:85-177 | in every sequence of passes, each failing in its own way or not at all: once as many have returned no error as the number says, no later pass, failing or not, changes the store |
| TailoredProfileOutcomes.MistakesAreWhatIsComplainedAbout | pkg/controller/tailoredprofile/tailoredprofile_controller.go:103-166 | an error is reported exactly for an empty extends, an invalid output type, a missing profile, rule or variable, a repeated rule or a rejected value |
| TailoredProfileOutcomes.RetriedExactlyWithoutBundle | pkg/controller/tailoredprofile/tailoredprofile_controller.go:85-177 | without API failures a reconcile returns an error exactly when the owned Profile has no existing bundle: no mistake of a user is retried |
| TailoredProfileOutcomes.StatusAfterPass | pkg/controller/tailoredprofile/tailoredprofile_controller.go:260-278 | with type and ownership in place a complete pass stores ERROR for every mistake; READY, ID, reference and the old message for a correct spec, with the output; and changes no status when the output is there or the bundle is missing |
| TailoredProfileProblems.FirstProblemIsRecorded | pkg/controller/tailoredprofile/tailoredprofile_controller.go:103-166 | a complete pass over a mistaken spec stores ERROR with what is wrong first, in the order of the checks, of the rules and of the settings, keeps ID and reference, and changes nothing else |
| TailoredProfileProblems.OutputTypeIsDefaulted | pkg/controller/tailoredprofile/tailoredprofile_controller.go:181-213 | without an output type a complete pass sets it to ConfigMap and changes nothing else |
| TailoredProfileProblems.ProfileBecomesOwner | pkg/controller/tailoredprofile/tailoredprofile_controller.go:124-138 | without the ownership a complete pass makes the extended Profile an owner, without control, and changes nothing else |
| TailoredProfileOutcomes.ReadyKeepsMessage | pkg/controller/tailoredprofile/tailoredprofile_controller.go:260-270 | after a publishing pass READY has the message that was there before |
| TailoredProfileOutcomes.ReadyWithoutOutputExactly | pkg/controller/tailoredprofile/tailoredprofile_controller.go:315-327 | whatever fails, a pass that is to publish leaves READY without the output exactly when it was stopped half-way, and then it returns an error; a pass without an error has had its whole effect |
| TailoredProfileOutcomes.PublicationStopsExactly | pkg/controller/tailoredprofile/tailoredprofile_controller.go:311-331 | which failures of the three calls keep the output, and which READY, from being stored |
| TailoredProfileFaults.RulesTakeOneCallEach | pkg/controller/tailoredprofile/tailoredprofile_controller.go:215-234 | looking up stored rules takes one call for each and finds them all exactly when none of these calls fails |
| TailoredProfileFaults.ReadyWithoutOutputByFaults | pkg/controller/tailoredprofile/tailoredprofile_controller.go:85-177 | for a whole reconcile, by the faults of its calls in order: which failures keep the output from being stored, and which leave READY without it, both ways |
| TailoredProfileOutcomes.OutputRefNamesTheOutputExactlyForConfigMaps | pkg/controller/tailoredprofile/tailoredprofile_controller.go:340-343 | after a publishing pass the stored status refers to the stored output, and that is owned by the TailoredProfile, exactly when a ConfigMap was asked for |
| TailoredProfileOutcomes.OutputIsCurrentExactly | pkg/controller/tailoredprofile/tailoredprofile_controller.go:335-337 | after a complete pass the current tailoring is stored exactly when no output, or that output, was stored before |
| TailoredProfilePublication.EveryPassIsSound | pkg/controller/tailoredprofile/tailoredprofile_controller.go:140-176 | whatever others write and however calls fail, what a pass publishes is justified by what that pass read and wrote |
| TailoredProfilePublication.EverythingPublishedIsJustified | pkg/controller/tailoredprofile/tailoredprofile_controller.go:215-258 | in every run everything ever published is the tailoring of a snapshot with distinct rule names that were all read, values that were all accepted, an owning Profile with its bundle, and READY stored while that spec was current |
| TailoredProfileWriteOnce.OutputsAreWrittenOnce | pkg/controller/tailoredprofile/tailoredprofile_controller.go:305-338 | a stored output is never changed by any later reconcile of any TailoredProfile |
| Xccdf.NormalisationIsIdempotent | pkg/xccdf/tailoring.go:82-97 | a name is as long as what is left of the ID, has no underscore and no capital, cannot carry the prefix any more, and is its own name |
| Xccdf.NamesDropThePrefix | pkg/xccdf/tailoring.go:82-97 | character by character, the names of rules, profiles and values are what follows the prefix of the content, with - for underscores and capitals in lower case |
| Xccdf.OtherNamesAreLowered | pkg/xccdf/tailoring.go:82-97 | an ID without its prefix is lowered as a whole |
| Xccdf.GetSelections | pkg/xccdf/tailoring.go:110-122 | the two loops emit one select element per name, enabled names first |
| Xccdf.GetValuesFromVariables | pkg/xccdf/tailoring.go:124-135 | one set-value element per variable |
| Xccdf.TailoredProfileToXML | pkg/xccdf/tailoring.go:138-177 | the assignments that build the element tree give the tree of the specification |
| Xccdf.HrefIsLiteralExactlyWhenPlain | pkg/xccdf/tailoring.go:147-151 | the href is the literal concatenation of "/content/" and the content file exactly when no part of the latter is empty, "." or ".." |
| Xccdf.CleanExactlyWhenPlain | pkg/xccdf/tailoring.go:147-151 | cleaning a path leaves it as it is exactly when all its parts are plain |
| Xccdf.CleanDrops | pkg/xccdf/tailoring.go:147-151 | cleaning drops empty parts and . anywhere, a plain part with the .. after it, and .. at the root; these laws determine it |
| Xccdf.TreeRoundTrip | pkg/xccdf/tailoring.go:110-157 | the tree gives back, position by position, the IDs of enabled rules, of disabled rules, and the (ID, value) pairs |
| Xccdf.SelectionsMean | pkg/xccdf/tailoring.go:103-122 | applied in order to any base set the elements mean (base + enabled) - disabled |
| Xccdf.OrderIrrelevantExactlyWhenDisjoint | pkg/xccdf/tailoring.go:103-122 | every order of the elements means the same exactly when no idref is both selected and deselected |
| Variables.Variable.SetValue | pkg/apis/compliance/v1alpha1/variable_types.go:54-65 | succeeds exactly for a legal value and then changes the value only |
| Variables.Variable.ValidateType | pkg/apis/compliance/v1alpha1/variable_types.go:67-84 | exactly the values that the type's parser accepts |
| Variables.Variable.ValidateValue | pkg/apis/compliance/v1alpha1/variable_types.go:86-98 | exactly the values among the selections, or all when there are none |
| Variables.ParsesAsIntExactly | pkg/apis/compliance/v1alpha1/variable_types.go:67-84 | a number is exactly an optional sign, zeros and the decimal numeral of a number in the range of 64 bits |
| Variables.LegalExactly | pkg/apis/compliance/v1alpha1/variable_types.go:54-98 | which values are legal for each type and for choices, both ways |
| Variables.LastLegalValueStays | pkg/apis/compliance/v1alpha1/variable_types.go:54-98 | after any attempts the variable holds the last legal value, or its first value when there was none; one success makes it legal from then on |
| VariableParser.ParseVarValues | pkg/profileparser/profileparser.go:136-156 | succeeds exactly when every selector-less value but the last is empty; then the last one and all choices, in order, are taken |
| VariableParser.DefaultsAndChoicesCoverAll | pkg/profileparser/profileparser.go:136-156 | defaults and choices together account for every value node |
| VariableParser.ValuesInDocumentOrder | pkg/profileparser/profileparser.go:136-156 | defaults and choices are both taken in the order of the value nodes |
| FixParser.CollectFixes | pkg/profileparser/profileparser.go:176-205 | the loop over the found-platform map collects the specified fixes |
| FixParser.FixesAreTheEarliest | pkg/profileparser/profileparser.go:176-205 | a fix is available exactly when it is the earliest relevant and decodable one of its platform |
| FixParser.PlatformsAreDistinct | pkg/profileparser/profileparser.go:180-189 | no platform has two fixes |
| FixParser.EveryPlatformIsServed | pkg/profileparser/profileparser.go:191-196 | every platform with a usable fix has one: an undecodable fix blocks nothing |
| FixParser.AvailableExactly | pkg/profileparser/profileparser.go:176-205 | a fix is available exactly when it carries platform, disruption and object of the first decodable ignition or kubernetes fix of its platform |
| FixParser.FixesInDocumentOrder | pkg/profileparser/profileparser.go:176-205 | later fix nodes only add to the end of the list |
| Text.JoinAfterSplit | pkg/profileparser/profileparser.go:362-376 | join after split is the identity on every string |
| Text.SplitAfterJoin | pkg/profileparser/profileparser.go:362-376 | split after join is the identity on every non-empty list of separator-free items |
| Annotations.AnnotationMap.AppendKeyWithSep | pkg/profileparser/profileparser.go:362-376 | the search loop with early return is the specified append, in place, on one key |
| Annotations.AnnotationMap.Format | pkg/profileparser/profileparser.go:348-360 | what each of the two formatters appends |
| Annotations.ParseXmlNode | pkg/profileparser/profileparser.go:325-346 | the three nested loops record every reference that a registered standard recognises |
| Annotations.HitsExactly | pkg/profileparser/profileparser.go:325-346 | a control is recorded exactly for a reference with an href and a registered standard that recognises it |
| Annotations.AppendIsInsertion | pkg/profileparser/profileparser.go:362-376 | appending a separator-free item is insertion into an insertion-ordered set and touches no other key |
| Annotations.AppendIdempotentExactlyWhenFree | pkg/profileparser/profileparser.go:362-376 | appending twice is appending once exactly for separator-free items |
| Annotations.ControlsOfStandardAreDeduplicated | pkg/profileparser/profileparser.go:348-353 | split by ";", the annotation of a standard lists its controls without repetition, in order of first appearance, exactly when none of them contains a ";" |
| Annotations.StandardsAreDeduplicated | pkg/profileparser/profileparser.go:355-360 | split by ",", the standards annotation lists all standards likewise, exactly when none contains a "," |
| Annotations.ControlsAreDeduplicated | pkg/profileparser/profileparser.go:355-360 | and the controls annotation all controls |
| Annotations.ControlListIsUnionOfStandards | pkg/profileparser/profileparser.go:325-376 | as a set, the controls annotation is the union of the annotations of the standards |
| Annotations.AnnotationKeys | pkg/profileparser/profileparser.go:348-360 | exactly which annotations references write; the rule annotation is never among them |
| ProfileParser.Parser.Run | cmd/profileparser/main.go:243-353 | a whole run makes exactly the API calls, in order, of the specification `ImportContent` |
| ProfileParser.Parser.UpdateProfileBundleStatus | cmd/profileparser/main.go:220-241 | the write is that of the specification, under the version read at the start; a failed write is a failure exit |
| ProfileParser.Parser.ParseProfilesAndDo | cmd/profileparser/main.go:146-212 | takes the profiles in order up to the first incomplete one or failed creation |
| ProfileParser.Parser.CollectSelectedRules | cmd/profileparser/main.go:163-176 | the prefixed names of the selected idrefs, in order |
| ProfileParser.Parser.CollectSelectedValues | cmd/profileparser/main.go:178-187 | the non-empty idrefs of the set-values, in order |
| ProfileParser.Parser.CreateObject | cmd/profileparser/main.go:280-289 | an object that is already there counts as created |
| ProfileParser.Parser.ParseRulesAndDo | pkg/profileparser/profileparser.go:158-266 | takes the rules in order up to the first incomplete one; failed creations are passed over |
| ProfileParser.Parser.ParseVariablesAndDo | pkg/profileparser/profileparser.go:73-134 | takes the values in order, without the hidden and the unparsable ones, up to the first incomplete one |
| Import.RunStepsConcat | cmd/profileparser/main.go:269-348 | profiles, rules and values are taken one after the other, each only if nothing stopped the import before |
| ImportRestart.StepsInStoppingRun | cmd/profileparser/main.go:269-348 | however a run is stopped, it has created a prefix of its plan; an undisturbed one all of it |
| ImportRestart.ImportKeepsReached | cmd/profileparser/main.go:269-348 | a run stopped anywhere changes nothing that was there but the bundle's status, and gives new names to the first object of that name only |
| ImportRestart.ImportIsRestartSafe | cmd/profileparser/main.go:269-348 | from any store, any number of runs stopped at arbitrary points and then one complete run leave exactly the objects of one complete run, each new name holding the first object of the document with that name |
| ImportCollisions.RestartSafeExactlyWithoutCollisions | pkg/profileparser/profileparser.go:258-262 | after runs that failed in any way and went on, a complete run leaves what it would have left in the first place exactly when no two new rules or variables of the document share a name and differ |
| ImportCollisions.NameCanBeLost | pkg/profileparser/profileparser.go:126-131 | for every rule or variable that can be reached there is a run, with refused creations only, after which its name is stored for it rather than for the first of that name |
| ImportResults.ValidExactlyWhenComplete | cmd/profileparser/main.go:269-352 | an undisturbed run ends in VALID exactly when the content can be read, every profile has id, title and description, and every rule and every non-hidden value id and title; otherwise in INVALID |
| ImportResults.UndisturbedRun | cmd/profileparser/main.go:220-241 | an undisturbed run stores INVALID and, as its message, the error of the content, or VALID with the message that was there |
| ImportResults.FirstStopIsReported | cmd/profileparser/main.go:146-160 | the error of a document is that of its first incomplete node |
| ImportResults.FirstFaultIsStored | cmd/profileparser/main.go:146-160 | an undisturbed run over an incomplete document stores INVALID and says what the first incomplete profile, else rule, else value lacks; over unreadable content it gives the reason |
| ImportResults.ValidKeepsMessage | cmd/profileparser/main.go:231-240 | after an undisturbed run that stores VALID the message is the one that was there before |
| ImportResults.CompleteRunDecidesVerdict | cmd/profileparser/main.go:243-353 | earlier runs, however they failed, have no say in the verdict of the complete run after them |
| ImportResults.ValidMeansEveryProfileExists | cmd/profileparser/main.go:204-208 | whatever others write and however calls fail, at the moment VALID is stored the document was complete and all its profiles are in the store, unless somebody removes profiles |
| ImportResults.CreateLeavesKey | cmd/profileparser/main.go:280-289 | after an attempt an object is there exactly unless it was missing and the call was refused |
| ImportResults.OptionalFailuresAreSwallowed | pkg/profileparser/profileparser.go:258-262 | the verdict on rules and values does not depend on failures at all |
| ImportResults.StoredExactlyWhenTried | cmd/profileparser/main.go:269-348 | among no other writers the steps of a run leave exactly the objects that were there or of which a reached creation was not refused |
| ImportResults.RunStoresExactlyWhatItTried | cmd/profileparser/main.go:243-353 | the same for a whole run, whatever fails |
| ImportResults.ValidMeansEverythingExistsExactly | pkg/profileparser/profileparser.go:126-131 | a run that stores VALID leaves all profiles, and all rules and variables exactly when each name that was missing had a creation that was not refused |
| ImportResults.ValidWithoutRule | pkg/profileparser/profileparser.go:258-262 | a run with one refused creation that stores VALID without the rule |
| ImportedObjects.NewRulesAreMadeFromTheDocument | cmd/profileparser/main.go:297-304 | every new Rule is named by the bundle, "-" and its rule annotation, which is the normalised ID; the bundle controls it, and its control annotations are intact |
| ImportedObjects.NewProfilesAreMadeFromTheDocument | cmd/profileparser/main.go:189-203 | every new Profile is a profile of the document under its prefixed name, with its selected rules and set-values, controlled by the bundle |
| ImportedObjects.SelectionsInDocumentOrder | cmd/profileparser/main.go:163-176 | the rule list of a profile follows its select elements one after the other |
| ImportedObjects.SelectedRulesExactly | cmd/profileparser/main.go:163-176 | a name is in that list exactly when some element with an idref selects a rule of that name |
| ImportedObjects.NewVariablesAreMadeFromTheDocument | pkg/profileparser/profileparser.go:73-134 | every new Variable is a visible value of the document whose default is unambiguous, with that default and all its choices in order |
| ImportedObjects.ProfilesReferToExistingRules | cmd/profileparser/main.go:163-176 | if every selected idref is a rule of the document, every name in a new Profile's rule list is a stored Rule, even when names collide |
| ImportedTerms.NewRuleIsFromTheDocument | cmd/profileparser/main.go:297-320 | in the terms of the document: key, owner, ID, title, rule annotation and fixes of every newly imported Rule |
| ImportedTerms.NewProfileIsFromTheDocument | cmd/profileparser/main.go:146-212 | the same for every new Profile, with its selected rules by name and its set-values by ID, element by element |
| ImportedTerms.NewVariableIsFromTheDocument | pkg/profileparser/profileparser.go:73-156 | the same for every new Variable, with its type, its choices in order and its one default |
| ImportedTerms.EveryNodeIsStored | cmd/profileparser/main.go:269-348 | a complete import leaves an object, under its name, for every profile and rule, and for every visible value with at most one default that is not empty, the last |
| EndToEnd.NewRuleIsTheFirstNamed | cmd/profileparser/main.go:297-320 | a new Rule carries the ID of the first rule of the document with its normalised name |
| EndToEnd.PublishedIds | pkg/xccdf/tailoring.go:103-122 | what a pass publishes carries, position by position, the IDs of the Rule objects of the selected names |
| EndToEnd.IdRoundTrip | pkg/xccdf/tailoring.go:88-122 | a rule selected by its prefixed name comes out under its datastream ID exactly when it is the first of its normalised name, in particular when that name is unique |
| EndToEnd.ImportedRulesAreStoredFrom | cmd/profileparser/main.go:297-304 | Rule objects that an import, however interrupted, has newly made count as imported from its bundle as long as their contents stay |
| EndToEnd.OrderIrrelevantForOneBundle | pkg/controller/tailoredprofile/tailoredprofile_controller.go:215-234 | a pass that publishes over Rule objects imported from one bundle, by whatever runs over whatever documents, emits distinct idrefs, and every order of its elements means the same |
| EndToEnd.PublishedOrderIrrelevant | pkg/xccdf/tailoring.go:103-122 | the same of everything published in any run by a pass whose Rule reads all returned objects imported from one bundle |
| EndToEnd.OrderMattersForTwoBundles | pkg/xccdf/tailoring.go:103-122 | it fails when one rule is enabled under one bundle's name and disabled under another's |
| PublishedOutput.PassPublishesStoredObjects | pkg/xccdf/tailoring.go:138-177 | what a pass publishes, as a ConfigMap or inside a Policy: extends is the ID of the stored Profile, the profile ID is that of the stored status and of the Policy's scan, the href is the cleaned path of the bundle's content, title and description are there exactly when set, select and set-value elements carry the IDs of the stored objects and the values set; and nothing else is written but READY |
| PublishedOutput.PublishedIsOutput | pkg/controller/tailoredprofile/tailoredprofile_controller.go:305-434 | everything published in any run is such an object, of what its pass has read |
| PublishedOutput.ImportedProfileLeadsToItsBundle | pkg/controller/tailoredprofile/tailoredprofile_controller.go:436-443 | from every newly imported Profile a reconcile finds the stored bundle it was imported from |
| PublishedOutput.ImportedProfileIsPublished | pkg/controller/tailoredprofile/tailoredprofile_controller.go:85-177 | a TailoredProfile that such a Profile owns, in order and without an output, is published by one undisturbed pass, which returns no error |
| BundleController.Reconciler.Reconcile | pkg/controller/profilebundle/profilebundle_controller.go:83-150 | one reconcile makes exactly the API calls, in order, of the specification `Reconcile` |
| BundleController.Reconciler.PodStartupError | pkg/controller/profilebundle/profilebundle_controller.go:218-240 | true exactly when some init container waits with ImagePullBackOff or ErrImagePull and none up to it is ready |
| BundleReconcile.OneReconcileSettles | pkg/controller/profilebundle/profilebundle_controller.go:104-149 | undisturbed, one reconcile settles a bundle (missing pod created and controlled, PENDING stored; pull error reported), and it changes something exactly when the bundle was not settled |
| BundleReconcile.PullErrorIsReportedExactly | pkg/controller/profilebundle/profilebundle_controller.go:126-145 | with its pod there, an undisturbed reconcile stores INVALID with the message about the init container exactly when an image cannot be pulled, for either reason, and none up to it is ready; otherwise it writes nothing |
| BundleReconcile.PodIsLaunched | pkg/controller/profilebundle/profilebundle_controller.go:94-125 | without its pod, PENDING is stored with the old message, and the pod is created under its name, controlled by the bundle; nothing else changes |
| BundleReconcile.NoErrorMeansSettled | pkg/controller/profilebundle/profilebundle_controller.go:83-150 | whichever calls fail, a reconcile that returns no error has settled the bundle |
| BundleReconcile.PendingKeepsMessage | pkg/controller/profilebundle/profilebundle_controller.go:110-125 | a reconcile that launches a pod stores PENDING unless its reads fail or its write is refused, whatever fails after it, and leaves the message as it was |
| BundleProtocol.ControllerLeavesVerdict | pkg/controller/profilebundle/profilebundle_controller.go:104-145 | once a verdict is stored, whatever the controller decided on stale reads with the current version is no change |
| BundleProtocol.StepKeepsInvariant | pkg/controller/profilebundle/profilebundle_controller.go:83-150 | the invariant of the protocol is kept by every step of controller, kubelet, parser and users |
| BundleProtocol.StatusIsTheLatestVerdict | cmd/profileparser/main.go:220-240 | in every reachable state the status is the last verdict the parser stored, and before the first one it is unset, PENDING or the report that an existing pod cannot start |
| BundleProtocol.ControllerNeverOverwritesVerdict | pkg/controller/profilebundle/profilebundle_controller.go:104-149 | wherever the controller stands when a verdict is stored, the verdict stays until the parser stores another |
| BundleProtocol.FinishedVerdictIsFinal | pkg/controller/profilebundle/profilebundle_controller.go:200 | a parser that exited successfully is not restarted, and its verdict is final |
| BundleProtocol.VerdictOverwrittenExactly | pkg/controller/profilebundle/profilebundle_controller.go:102-145 | for the bundle and the pod read at any moments: the verdict is overwritten exactly when the bundle is unchanged since, the write is not refused, and the pod was not there, or could not start and the verdict says otherwise; only if the pod was read in an older state than the bundle |
| BundleProtocol.OlderPodReadOverwritesVerdict | pkg/controller/profilebundle/profilebundle_controller.go:102-118 | an instance in every run: the bundle read now and the pod before it existed put PENDING over the verdict |
| BundleProtocol.LostReadinessOverwritesVerdict | pkg/controller/profilebundle/profilebundle_controller.go:218-240 | were an init container to lose its readiness, a reconcile on current reads could put INVALID over the verdict |
| BundleProtocol.EitherVerdictIsWithinReach | pkg/controller/profilebundle/profilebundle_controller.go:83-150 | no interleaving gets stuck: from every state in which the parser has not finished some steps lead to either verdict |
| BundleProtocol.ReconcileIsARunOfTheController | pkg/controller/profilebundle/profilebundle_controller.go:83-150 | the controller's steps on current reads are one reconcile of the program, whichever of its calls fail and however |
| ImportProtocol.ImportIsARunOfTheParser | cmd/profileparser/main.go:243-353 | for all content and all failures the parser's steps in the protocol are one run of the program, which exits with success exactly when the protocol's parser has finished |
| GarbageCollection.PublishedConfigMapsAreControlled | pkg/controller/tailoredprofile/tailoredprofile_controller.go:305-309 | every ConfigMap ever published is controlled by its TailoredProfile, which was owned by the Profile it extended |
| GarbageCollection.ImportedProfilesHangOnTheBundle | cmd/profileparser/main.go:275 | every newly imported Profile is owned by its bundle only |
| GarbageCollection.DeletionStartsTheFall | pkg/controller/tailoredprofile/tailoredprofile_controller.go:124-138 | deleting a bundle dooms every TailoredProfile all of whose owners come from it |
| GarbageCollection.RunKeepsFalling | pkg/controller/tailoredprofile/tailoredprofile_controller.go:280-309 | in every run of collections, passes, failing or not, and late writes of reconciles that straddle the deletion it stays doomed and does not come back, and its ConfigMap comes back by a late creation only |
| GarbageCollection.NothingIsLeftAfterDeletion | pkg/controller/tailoredprofile/tailoredprofile_controller.go:124-138 | as soon as nothing is left to collect, neither the TailoredProfile nor its ConfigMap is there |
| GarbageCollection.TheCascadeEnds | pkg/controller/tailoredprofile/tailoredprofile_controller.go:124-138 | from every store and in every run the removals are bounded by the objects there are, the outputs passes over any TailoredProfiles may still add, and the number of late writes |
| GarbageCollection.EverythingIsGoneInTheEnd | pkg/controller/tailoredprofile/tailoredprofile_controller.go:124-138 | so after enough turns of a diligent collector, in whatever order with passes over whatever TailoredProfiles, the doomed TailoredProfile and its ConfigMap are gone |
| GarbageCollection.EverythingIsGoneAfterStragglers | pkg/controller/tailoredprofile/tailoredprofile_controller.go:305-338 | reconciles that straddle the deletion only put that off: after the last ConfigMap they make, as many collections as the store and all late writes account for are enough |
| GarbageCollection.StatusWriteIsLate | pkg/controller/tailoredprofile/tailoredprofile_controller.go:260-278 | every status write of a reconcile, however old its reads, is such a late write or has no effect |
| GarbageCollection.SpecWriteIsLate | pkg/controller/tailoredprofile/tailoredprofile_controller.go:124-138 | so is every write of the output type or of an owner; `CreationIsLate` says the same of outputs |
| GarbageCollection.CollectionEnds | pkg/controller/tailoredprofile/tailoredprofile_controller.go:124-138 | from every store collections alone reach a store with nothing left to collect |
| GarbageCollection.OwnerlessObjectsStay | pkg/controller/tailoredprofile/tailoredprofile_controller.go:340-434 | an object without owners, as every published Policy, is unchanged by every run of collections, passes and late writes |
| GarbageCollection.OutputOutlivesTheBundleExactlyForPolicies | pkg/controller/tailoredprofile/tailoredprofile_controller.go:340-434 | publish, delete the bundle, and let collections, passes and late writes follow until nothing is left to collect: the output is still there exactly when it is a Policy |
| UniqueUids.ImportKeeps | cmd/profileparser/main.go:243-353 | no run of the parser, whatever others write and whichever calls fail, makes two objects share a uid |
| UniqueUids.BundleReconcileKeeps | pkg/controller/profilebundle/profilebundle_controller.go:83-150 | nor does a ProfileBundle reconcile |
| UniqueUids.RunKeeps | pkg/controller/tailoredprofile/tailoredprofile_controller.go:85-177 | nor does any run of TailoredProfile reconciles |

## Left out

- XML and YAML encoding: the model starts from a parsed datastream and stops at the tailoring element tree; whether a fix's text can be decoded is part of the input.
- Regular expressions of the standards: each standard is an arbitrary predicate on the reference's href.
- The clock: the time in a tailoring's version is a parameter.
- Lower-casing of characters outside ASCII: left as they are by `Text.Dashed`, so the normalisation theorem is about ASCII letters.
- Descriptions, rationales, warnings and severities of rules and variables: copied by the code with no further effect.
- Field values of the pod, the Policy and its scan suite that nothing depends on (images, commands, labels, schedule, node selector).
- Failure to convert a ConfigMap for embedding in a Policy: cannot happen for a ConfigMap the controller has built itself.
- Texts of TailoredProfile error messages: the model keeps what they complain about (`Problem`).
- BundleProtocol.ControllerNeverOverwritesVerdict: assumes that the bundle is not deleted, that its pod is not removed from outside, that an init container that has run to completion stays ready, that there is one worker, and that a pod is not read in an older state than the bundle; for the last and for readiness a lemma beside it shows the loss.
- BundleProtocol.ReconcileIsARunOfTheController: ties program and protocol together for reconciles with no other writer in between; that other writers act between its calls is part of the protocol only.
- ImportProtocol.ImportIsARunOfTheParser: does so for runs of the parser, likewise without other writers.
- GarbageCollection.RunKeepsFalling: after the deletion there are no writers but the collector and TailoredProfile reconciles, so neither users nor a parser that is still running; a reconcile that straddles it is represented by its writes, not by its reads.
- ImportResults.ValidExactlyWhenComplete: is about runs without other writers; with them the final write may meet a newer version of the bundle, and the parser is restarted.
- Controller registration, watches, metrics, leader election, logging and environment look-up.
