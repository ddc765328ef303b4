/** The parser of the bundle protocol is the profile parser: a run of the program among no other writers is
    what the protocol's parser does in its two steps, whatever the content and whichever calls fail. */
module ImportProtocol {
  import opened ApiTypes
  import opened ApiStore
  import opened Datastream
  import opened Import
  import opened BundleReconcile
  import opened BundleProtocol

  // --- the protocol's side -----------------------------------------------------------------------

  /** Where a run is when it has nothing left to do but to store its verdict. */
  datatype Judged = Judged(world: World, error: Option<string>, contentRead: bool)

  function Judge(w: World, c: Config, uid: nat, content: Content): Judged {
    match content
    case Unreadable(error) => Judged(w, Some("Couldn't read content file: " + error), false)
    case Malformed(error) => Judged(w, Some("Couldn't read content XML: " + error), false)
    case Parsed(d) =>
      var objects := RunSteps(w, Steps(c, uid, d));
      Judged(objects.0, objects.1, true)
  }

  /** The steps of a run: without the bundle it ends at once, with a failure. */
  function ImportOf(w: World, c: Config, content: Content): seq<Action> {
    var got := Get(w, BundleKey(c.ns, c.bundle));
    if got.1.Err? then [CrashParser]
    else
      var j := Judge(got.0, c, got.1.value.uid, content);
      [ParserReads, ParserWrites(j.error, j.contentRead, NextFault(j.world))]
  }

  // --- the program's side ------------------------------------------------------------------------

  /** The steps create objects that no snapshot shows. */
  ghost predicate MakesContent(steps: seq<Step>) {
    forall i :: 0 <= i < |steps| && steps[i].Make? ==> steps[i].item.key.kind in {ProfileKind, RuleKind, VariableKind}
  }

  lemma StepsMakeContent(c: Config, uid: nat, d: Document)
    ensures MakesContent(Steps(c, uid, d))
  {
    var steps := Steps(c, uid, d);
    var profiles, rules := |d.profiles|, |d.rules|;
    forall i | 0 <= i < |steps| && steps[i].Make?
      ensures steps[i].item.key.kind in {ProfileKind, RuleKind, VariableKind}
    {
      if i < profiles {
        assert steps[i] == ProfileStep(c, uid, d.profiles[i]);
      } else if i < profiles + rules {
        assert steps[i] == RuleStep(c, uid, d.rules[i - profiles]);
      } else {
        assert steps[i] == ValueStep(c, uid, d.values[i - profiles - rules]);
      }
    }
  }

  /** The bundle and its pod are in both stores, or in neither, and the same. */
  ghost predicate SameBundle(s: Store, t: Store, ns: string, name: string) {
    forall k <- {BundleKey(ns, name), PodKey(ns, name)} ::
      (k in s.objects <==> k in t.objects) && (k in s.objects ==> s.objects[k] == t.objects[k])
  }

  lemma CreationKeepsBundle(w: World, item: Item, ns: string, name: string)
    requires Quiet(w) && item.key.kind in {ProfileKind, RuleKind, VariableKind}
    ensures var r := CreateUnlessPresent(w, item).0;
      Quiet(r) && SameBundle(w.store, r.store, ns, name)
  {
    QuietCall(w);
  }

  lemma {:induction false} StepsKeepBundle(w: World, steps: seq<Step>, ns: string, name: string)
    requires Quiet(w) && MakesContent(steps)
    ensures var r := RunSteps(w, steps).0;
      Quiet(r) && SameBundle(w.store, r.store, ns, name)
    decreases |steps|
  {
    if steps != [] {
      match steps[0] {
        case Stop(_) =>
        case Skip => StepsKeepBundle(w, steps[1..], ns, name);
        case Make(item, _) =>
          CreationKeepsBundle(w, item, ns, name);
          StepsKeepBundle(CreateUnlessPresent(w, item).0, steps[1..], ns, name);
      }
    }
  }

  lemma JudgingKeepsBundle(w: World, c: Config, uid: nat, content: Content)
    requires Quiet(w)
    ensures var j := Judge(w, c, uid, content).world;
      Quiet(j) && SameBundle(w.store, j.store, c.ns, c.bundle)
  {
    if content.Parsed? {
      StepsMakeContent(c, uid, content.document);
      StepsKeepBundle(w, Steps(c, uid, content.document), c.ns, c.bundle);
    }
  }

  // --- one is the other --------------------------------------------------------------------------

  /** The snapshot after a verdict on a current read. */
  function AfterVerdict(n: Snapshot, error: Option<string>, fault: Fault): Snapshot {
    if fault == Refused then n
    else
      var status := VerdictStatus(n.bundle.status, error);
      n.(bundle := Written(n.bundle, status), verdict := Some(status))
  }

  lemma ParserRun(s: Recorded, error: Option<string>, contentRead: bool, fault: Fault)
    requires s.parser.Up?
    ensures var t := Run(s, [ParserReads, ParserWrites(error, contentRead, fault)]);
      && Now(t) == AfterVerdict(Now(s), error, fault)
      && (t.parser.Finished? <==> contentRead && fault == Healthy)
  {
    var actions := [ParserReads, ParserWrites(error, contentRead, fault)];
    var r := Perform(s, actions[0]);
    assert actions[1..] == [actions[1]] && [actions[1]][1..] == [];
    assert Run(r, [actions[1]]) == Run(Perform(r, actions[1]), []);
  }

  lemma VerdictShows(w: World, c: Config, pb: Object, n: Snapshot, error: Option<string>)
    requires Quiet(w) && Shows(w.store, c.ns, c.bundle, n) && w.store.objects[BundleKey(c.ns, c.bundle)] == pb
    ensures var r := StoreVerdict(w, c, pb, error);
      && Shows(r.0.store, c.ns, c.bundle, AfterVerdict(n, error, NextFault(w)))
      && (r.1 == ExitSuccess <==> NextFault(w) == Healthy)
  {
    QuietCall(w);
  }

  lemma ImportIntoShows(w: World, c: Config, pb: Object, content: Content, n: Snapshot)
    requires Quiet(w) && Shows(w.store, c.ns, c.bundle, n) && w.store.objects[BundleKey(c.ns, c.bundle)] == pb
    ensures var j := Judge(w, c, pb.uid, content);
      var r := ImportInto(w, c, pb, content);
      && Shows(r.0.store, c.ns, c.bundle, AfterVerdict(n, j.error, NextFault(j.world)))
      && (r.1 == ExitSuccess <==> j.contentRead && NextFault(j.world) == Healthy)
  {
    JudgingKeepsBundle(w, c, pb.uid, content);
    var j := Judge(w, c, pb.uid, content);
    VerdictShows(j.world, c, pb, n, j.error);
  }

  /** A run among no other writers, whatever the content and whichever of its calls fail: the store then
      shows what the protocol holds after the parser's steps, and the parser has exited with success
      exactly when in the protocol it has finished. */
  lemma ImportIsARunOfTheParser(w: World, c: Config, content: Content, s: Recorded)
    requires Quiet(w) && s.parser.Up? && Shows(w.store, c.ns, c.bundle, Now(s))
    ensures var r, t := ImportContent(w, c, content), Run(s, ImportOf(w, c, content));
      && Shows(r.0.store, c.ns, c.bundle, Now(t))
      && (r.1 == ExitSuccess <==> t.parser.Finished?)
  {
    QuietCall(w);
    var got := Get(w, BundleKey(c.ns, c.bundle));
    if got.1.Ok? {
      var j := Judge(got.0, c, got.1.value.uid, content);
      ImportIntoShows(got.0, c, got.1.value, content, Now(s));
      ParserRun(s, j.error, j.contentRead, NextFault(j.world));
    } else {
      CrashIsDown(s);
    }
  }

  lemma CrashIsDown(s: Recorded)
    requires s.parser.Up?
    ensures Run(s, [CrashParser]) == s.(parser := Down)
  {
    assert Run(Perform(s, CrashParser), [CrashParser][1..]) == Perform(s, CrashParser);
  }
}
