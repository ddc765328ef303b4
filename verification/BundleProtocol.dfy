/** The life cycle of one ProfileBundle as a concurrent protocol: the controller, which reads through a
    cache that may be stale, the kubelet, the profile parser, which may crash and is then restarted,
    and users who edit the bundle. Every API call is a step of its own, and any step may come next.

    The bundle is not deleted, its pod is not removed from outside, an init container that has run to
    completion stays ready, and a pod is never read in an older state than the bundle was. */
module BundleProtocol {
  import opened ApiTypes
  import opened ApiStore
  import opened Import
  import opened BundleReconcile

  // --- states --------------------------------------------------------------------------------

  datatype Bundle = Bundle(version: nat, spec: BundleSpec, status: BundleStatus)

  /** What the API server holds at one moment; `verdict` is the status that the parser has stored last. */
  datatype Snapshot = Snapshot(bundle: Bundle, pod: Option<Pod>, verdict: Option<BundleStatus>)

  /** What the controller's single worker has read, as indices into the history. */
  datatype Controller = Idle | HasBundle(bundleAt: nat) | HasPod(bundleAt: nat, podAt: nat) | MustCreatePod

  datatype Parser = Down | Up | HasRead(at: nat) | Finished

  datatype State = State(history: seq<Snapshot>, controller: Controller, parser: Parser)

  ghost predicate Initial(s: State) {
    && |s.history| == 1 && s.controller == Idle && s.parser == Down
    && s.history[0].pod == None && s.history[0].verdict == None
    && s.history[0].bundle.status.state == BundleUnset
  }

  /** The pod's one init container has run to completion. */
  predicate Ready(pod: Option<Pod>) {
    pod.Some? && pod.value.initStatuses != [] && pod.value.initStatuses[0].ready
  }

  // --- steps ---------------------------------------------------------------------------------

  datatype Action =
    | ReadBundle(at: nat)
    | ReadPod(at: nat)
    | WriteStatus(fault: Fault)
    | CreatePod(fault: Fault)
    | AbandonReconcile
    | Kubelet(initStatuses: seq<InitStatus>)
    | StartParser
    | ParserReads
    | ParserWrites(error: Option<string>, contentRead: bool, fault: Fault)
    | CrashParser
    | EditSpec(spec: BundleSpec)

  type Recorded = s: State | s.history != []
    witness State([Snapshot(Bundle(0, BundleSpec("", ""), BundleStatus(BundleUnset, "")), None, None)], Idle, Down)

  function Last(s: Recorded): nat { |s.history| - 1 }

  function Now(s: Recorded): Snapshot { s.history[Last(s)] }

  /** A status write is refused unless the version is current; one that changes nothing keeps the version. */
  function Written(b: Bundle, status: BundleStatus): Bundle {
    if b.status == status then b else b.(version := b.version + 1, status := status)
  }

  function StatusFor(decision: Decision, s: BundleStatus): BundleStatus {
    match decision
    case Launch => PendingStatus(s)
    case ReportStartupError => StartupErrorStatus(s)
    case LeaveAlone => s
  }

  function Add(s: Recorded, n: Snapshot): Recorded { s.(history := s.history + [n]) }

  function Perform(s: Recorded, a: Action): Recorded {
    var now := Now(s);
    match a
    case ReadBundle(at) =>
      if s.controller.Idle? && at < |s.history| then s.(controller := HasBundle(at)) else s
    case ReadPod(at) =>
      if s.controller.HasBundle? && s.controller.bundleAt <= at < |s.history| then
        s.(controller := HasPod(s.controller.bundleAt, at))
      else s
    case WriteStatus(fault) => ControllerWrites(s, fault)
    case CreatePod(fault) =>
      if !s.controller.MustCreatePod? then s
      else if fault != Refused && now.pod.None? then
        Add(s.(controller := Idle), now.(pod := Some(Pod([]))))
      else s.(controller := Idle)
    case AbandonReconcile => s.(controller := Idle)
    case Kubelet(statuses) =>
      var pod := Some(Pod(statuses));
      if now.pod.Some? && (Ready(now.pod) ==> Ready(pod)) then Add(s, now.(pod := pod)) else s
    case StartParser => if s.parser.Down? && Ready(now.pod) then s.(parser := Up) else s
    case ParserReads => if s.parser.Up? then s.(parser := HasRead(|s.history| - 1)) else s
    case ParserWrites(error, contentRead, fault) => StoresVerdict(s, error, contentRead, fault)
    case CrashParser => if s.parser.Finished? then s else s.(parser := Down)
    case EditSpec(spec) => Add(s, now.(bundle := now.bundle.(version := now.bundle.version + 1, spec := spec)))
  }

  function ControllerWrites(s: Recorded, fault: Fault): Recorded {
    if !(s.controller.HasPod? && s.controller.bundleAt < |s.history| && s.controller.podAt < |s.history|) then s
    else
      var now, seen, pod := Now(s), s.history[s.controller.bundleAt].bundle, s.history[s.controller.podAt].pod;
      var decision := Decide(pod);
      if decision.LeaveAlone? || fault == Refused || now.bundle.version != seen.version then s.(controller := Idle)
      else
        Add(s.(controller := if decision.Launch? && fault == Healthy then MustCreatePod else Idle),
          now.(bundle := Written(now.bundle, StatusFor(decision, seen.status))))
  }

  /** A parser that could not read the content, or did not get its verdict through, exits with a
      failure and is restarted. */
  function StoresVerdict(s: Recorded, error: Option<string>, contentRead: bool, fault: Fault): Recorded {
    if !(s.parser.HasRead? && s.parser.at < |s.history|) then s
    else
      var now, seen := Now(s), s.history[s.parser.at].bundle;
      if fault == Refused || now.bundle.version != seen.version then s.(parser := Down)
      else
        var status := VerdictStatus(seen.status, error);
        Add(s.(parser := if contentRead && fault == Healthy then Finished else Down),
          now.(bundle := Written(now.bundle, status), verdict := Some(status)))
  }

  function Run(s: Recorded, actions: seq<Action>): Recorded
    decreases |actions|
  {
    if actions == [] then s else Run(Perform(s, actions[0]), actions[1..])
  }

  // --- the invariant -------------------------------------------------------------------------

  /** What is true of two snapshots of which the second is later. */
  ghost predicate Before(p: Snapshot, n: Snapshot) {
    && p.bundle.version <= n.bundle.version
    && (p.bundle.version == n.bundle.version ==> p.bundle == n.bundle)
    && (p.pod.Some? ==> n.pod.Some?)
    && (Ready(p.pod) ==> Ready(n.pod))
    && (p.verdict.Some? ==> n.verdict.Some?)
  }

  /** A verdict comes from a pod that has started, and is what the bundle's status is; before that the
      status is unset, PENDING, or the report that an existing pod cannot start. */
  ghost predicate Sound(n: Snapshot) {
    match n.verdict
    case Some(status) => Ready(n.pod) && n.bundle.status == status && status.state in {BundleValid, BundleInvalid}
    case None =>
      || n.bundle.status.state in {BundleUnset, BundlePending}
      || (n.bundle.status == BundleStatus(BundleInvalid, STARTUP_ERROR) && n.pod.Some?)
  }

  ghost predicate Ordered(h: seq<Snapshot>) { forall a, b :: 0 <= a <= b < |h| ==> Before(h[a], h[b]) }

  ghost predicate Invariant(s: Recorded) {
    && Ordered(s.history)
    && (forall i :: 0 <= i < |s.history| ==> Sound(s.history[i]))
    && (s.controller.HasBundle? ==> s.controller.bundleAt < |s.history|)
    && (s.controller.HasPod? ==> s.controller.bundleAt <= s.controller.podAt < |s.history|)
    && (s.parser.Up? ==> Ready(Now(s).pod))
    && (s.parser.HasRead? ==> s.parser.at < |s.history| && Ready(s.history[s.parser.at].pod))
    && (s.parser.Finished? ==> Now(s).verdict.Some?)
  }

  lemma OrderedAdd(h: seq<Snapshot>, n: Snapshot)
    requires h != [] && Ordered(h) && Before(h[|h| - 1], n)
    ensures Ordered(h + [n])
  {
    forall a | 0 <= a <= |h| ensures Before((h + [n])[a], n) {
      if a < |h| {
        assert Before(h[a], h[|h| - 1]);
      }
    }
  }

  lemma AddKeepsInvariant(s: Recorded, n: Snapshot)
    requires Invariant(s) && Before(Now(s), n) && Sound(n)
    ensures Invariant(Add(s, n))
  {
    OrderedAdd(s.history, n);
  }

  /** The heart of the matter: once a verdict is stored, what the controller wants to write is out of
      date, or not a change. */
  lemma ControllerLeavesVerdict(s: Recorded, i: nat, j: nat)
    requires Invariant(s) && i <= j < |s.history| && Now(s).verdict.Some?
    requires s.history[i].bundle.version == Now(s).bundle.version
    ensures StatusFor(Decide(s.history[j].pod), s.history[i].bundle.status) == Now(s).bundle.status
  {
    var seen, pod, now := s.history[i], s.history[j], Now(s);
    assert Before(seen, pod) && Before(seen, now) && Sound(seen) && Sound(now);
    if seen.verdict.Some? {
      assert Decide(pod.pod) == LeaveAlone;
    }
  }

  lemma ControllerWriteKeepsInvariant(s: Recorded, fault: Fault)
    requires Invariant(s)
    ensures Invariant(ControllerWrites(s, fault))
    ensures Now(s).verdict.Some? ==>
      && Now(ControllerWrites(s, fault)).bundle == Now(s).bundle
      && Now(ControllerWrites(s, fault)).verdict == Now(s).verdict
  {
    if s.controller.HasPod? {
      var i, j := s.controller.bundleAt, s.controller.podAt;
      var now, seen, pod := Now(s), s.history[i], s.history[j];
      if fault != Refused && now.bundle.version == seen.bundle.version && !Decide(pod.pod).LeaveAlone? {
        var n := now.(bundle := Written(now.bundle, StatusFor(Decide(pod.pod), seen.bundle.status)));
        if now.verdict.Some? {
          ControllerLeavesVerdict(s, i, j);
        } else {
          assert Before(pod, now);
        }
        assert Sound(now) && Before(now, n);
        AddKeepsInvariant(s.(controller := Idle), n);
      }
    }
  }

  lemma VerdictKeepsInvariant(s: Recorded, error: Option<string>, contentRead: bool, fault: Fault)
    requires Invariant(s)
    ensures Invariant(StoresVerdict(s, error, contentRead, fault))
  {
    if s.parser.HasRead? {
      var now, seen := Now(s), s.history[s.parser.at];
      assert Before(seen, now);
      if fault != Refused && now.bundle.version == seen.bundle.version {
        var status := VerdictStatus(seen.bundle.status, error);
        AddKeepsInvariant(s.(parser := Down), now.(bundle := Written(now.bundle, status), verdict := Some(status)));
      }
    }
  }

  /** Nothing but the parser changes the status once a verdict is stored. */
  ghost predicate KeepsVerdict(s: Recorded, t: Recorded) {
    Now(s).verdict.Some? ==> Now(t).verdict == Now(s).verdict && Now(t).bundle.status == Now(s).bundle.status
  }

  lemma PodStepKeepsInvariant(s: Recorded, a: Action)
    requires Invariant(s) && (a.CreatePod? || a.Kubelet?)
    ensures Invariant(Perform(s, a)) && KeepsVerdict(s, Perform(s, a))
  {
    var pod := if a.CreatePod? then Pod([]) else Pod(a.initStatuses);
    assert Sound(Now(s));
    if Perform(s, a).history != s.history {
      AddKeepsInvariant(s.(controller := Perform(s, a).controller), Now(s).(pod := Some(pod)));
    }
  }

  lemma EditKeepsInvariant(s: Recorded, spec: BundleSpec)
    requires Invariant(s)
    ensures Invariant(Perform(s, EditSpec(spec))) && KeepsVerdict(s, Perform(s, EditSpec(spec)))
  {
    assert Sound(Now(s));
    AddKeepsInvariant(s, Now(s).(bundle := Now(s).bundle.(version := Now(s).bundle.version + 1, spec := spec)));
  }

  /** A step that only reads, starts or ends a process. */
  ghost predicate IsLocal(a: Action) {
    a.ReadBundle? || a.ReadPod? || a.AbandonReconcile? || a.StartParser? || a.ParserReads? || a.CrashParser?
  }

  lemma LocalStepKeepsInvariant(s: Recorded, a: Action)
    requires Invariant(s) && IsLocal(a)
    ensures Invariant(Perform(s, a)) && KeepsVerdict(s, Perform(s, a))
  {
    assert Perform(s, a).history == s.history;
  }

  lemma StepKeepsInvariant(s: Recorded, a: Action)
    requires Invariant(s)
    ensures Invariant(Perform(s, a))
    ensures !a.ParserWrites? ==> KeepsVerdict(s, Perform(s, a))
  {
    if IsLocal(a) {
      LocalStepKeepsInvariant(s, a);
    } else if a.CreatePod? || a.Kubelet? {
      PodStepKeepsInvariant(s, a);
    } else {
      match a {
        case WriteStatus(fault) => ControllerWriteKeepsInvariant(s, fault);
        case ParserWrites(error, contentRead, fault) => VerdictKeepsInvariant(s, error, contentRead, fault);
        case EditSpec(spec) => EditKeepsInvariant(s, spec);
      }
    }
  }

  // --- every run -----------------------------------------------------------------------------

  lemma {:induction false} RunKeepsInvariant(s: Recorded, actions: seq<Action>)
    requires Invariant(s)
    ensures Invariant(Run(s, actions))
    decreases |actions|
  {
    if actions != [] {
      StepKeepsInvariant(s, actions[0]);
      RunKeepsInvariant(Perform(s, actions[0]), actions[1..]);
    }
  }

  /** In every state that any interleaving reaches: once the parser has stored a verdict, the bundle's
      status is the last verdict stored, and until then it is unset, PENDING, or the report that an
      existing pod cannot start. */
  lemma StatusIsTheLatestVerdict(s: Recorded, actions: seq<Action>)
    requires Initial(s)
    ensures var n := Now(Run(s, actions));
      match n.verdict
      case Some(status) => n.bundle.status == status && status.state in {BundleValid, BundleInvalid}
      case None =>
        || n.bundle.status.state in {BundleUnset, BundlePending}
        || (n.bundle.status == BundleStatus(BundleInvalid, STARTUP_ERROR) && n.pod.Some?)
  {
    assert Invariant(s);
    RunKeepsInvariant(s, actions);
    assert Sound(Now(Run(s, actions)));
  }

  lemma {:induction false} OnlyTheParserChangesAVerdict(s: Recorded, actions: seq<Action>)
    requires Invariant(s) && forall a <- actions :: !a.ParserWrites?
    ensures KeepsVerdict(s, Run(s, actions))
    decreases |actions|
  {
    if actions != [] {
      assert actions[0] in actions;
      StepKeepsInvariant(s, actions[0]);
      OnlyTheParserChangesAVerdict(Perform(s, actions[0]), actions[1..]);
    }
  }

  /** Wherever the controller stands when the parser stores a verdict, and whatever it, the kubelet and
      the users do next, the verdict stays until the parser itself stores another. */
  lemma ControllerNeverOverwritesVerdict(s: Recorded, before: seq<Action>, after: seq<Action>)
    requires Initial(s) && Now(Run(s, before)).verdict.Some?
    requires forall a <- after :: !a.ParserWrites?
    ensures Now(Run(Run(s, before), after)).bundle.status == Now(Run(s, before)).verdict.value
  {
    assert Invariant(s);
    RunKeepsInvariant(s, before);
    assert Sound(Now(Run(s, before)));
    OnlyTheParserChangesAVerdict(Run(s, before), after);
  }

  /** A parser that has exited successfully is not restarted, and its verdict is final. */
  lemma {:induction false} FinishedVerdictIsFinal(s: Recorded, actions: seq<Action>)
    requires Invariant(s) && s.parser.Finished?
    ensures Run(s, actions).parser.Finished? && Now(Run(s, actions)).bundle.status == Now(s).bundle.status
    decreases |actions|
  {
    if actions != [] {
      StepKeepsInvariant(s, actions[0]);
      var t := Perform(s, actions[0]);
      assert t.parser.Finished? && (actions[0].ParserWrites? ==> t == s);
      FinishedVerdictIsFinal(t, actions[1..]);
    }
  }

  // --- what the assumptions are good for -------------------------------------------------------

  /** What the controller would do to a verdict, had it read the bundle at `i` and the pod at `j`, in
      whatever order: it overwrites the verdict exactly when the bundle has not changed since, the write
      is not refused, and the pod was not there, or could not start while the verdict says otherwise.
      All of that is possible only if the pod was read in an older state than the bundle. */
  lemma VerdictOverwrittenExactly(s: Recorded, i: nat, j: nat, fault: Fault)
    requires Invariant(s) && Now(s).verdict.Some? && i < |s.history| && j < |s.history|
    ensures var pod := s.history[j].pod;
      var t := Perform(s.(controller := HasPod(i, j)), WriteStatus(fault));
      && (Now(t).bundle.status != Now(s).bundle.status <==>
            && fault != Refused && s.history[i].bundle.version == Now(s).bundle.version
            && (pod.None? || (StartupError(pod.value.initStatuses)
                              && Now(s).bundle.status != BundleStatus(BundleInvalid, STARTUP_ERROR))))
      && (Now(t).bundle.status != Now(s).bundle.status ==> j < i)
  {
    var now, seen := Now(s), s.history[i];
    assert Sound(now) && Before(seen, now);
    if i <= j && seen.bundle.version == now.bundle.version {
      ControllerLeavesVerdict(s, i, j);
    }
  }

  /** Were an init container to lose its readiness, the controller could report over a verdict that the
      pod cannot start: in every state with a verdict, on current reads in the right order. */
  lemma LostReadinessOverwritesVerdict(s: Recorded, actions: seq<Action>, pod: Pod)
    requires Initial(s) && Now(Run(s, actions)).verdict.Some? && StartupError(pod.initStatuses)
    ensures var t := Add(Run(s, actions), Now(Run(s, actions)).(pod := Some(pod)));
      var pass := [AbandonReconcile, ReadBundle(Last(t)), ReadPod(Last(t)), WriteStatus(Healthy), AbandonReconcile];
      Now(Run(t, pass)).bundle.status == BundleStatus(BundleInvalid, STARTUP_ERROR)
  {
    var t := Add(Run(s, actions), Now(Run(s, actions)).(pod := Some(pod)));
    var pass := [AbandonReconcile, ReadBundle(Last(t)), ReadPod(Last(t)), WriteStatus(Healthy), AbandonReconcile];
    RunFive(t, pass);
    var r := Perform(Perform(Perform(t, pass[0]), pass[1]), pass[2]);
    assert r == t.(controller := HasPod(Last(t), Last(t)));
  }

  /** Had the controller read the pod in an older state than the bundle, it would put PENDING over the
      verdict: in every state with a verdict, with the bundle read now and the pod before it existed. */
  lemma OlderPodReadOverwritesVerdict(s: Recorded, actions: seq<Action>)
    requires Initial(s) && Now(Run(s, actions)).verdict.Some?
    ensures var t := Run(s, actions);
      var u := Perform(t.(controller := HasPod(Last(t), 0)), WriteStatus(Healthy));
      Now(u).bundle.status.state == BundlePending
  {
    FirstSnapshotStays(s, actions);
  }

  lemma {:induction false} FirstSnapshotStays(s: Recorded, actions: seq<Action>)
    ensures Run(s, actions).history[0] == s.history[0]
    decreases |actions|
  {
    if actions != [] {
      FirstSnapshotStays(Perform(s, actions[0]), actions[1..]);
    }
  }

  // --- progress --------------------------------------------------------------------------------

  lemma PodCanBeCreated(s: Recorded) returns (actions: seq<Action>)
    requires Now(s).pod.None?
    ensures Now(Run(s, actions)).pod.Some? && Run(s, actions).parser == s.parser
  {
    actions := [AbandonReconcile, ReadBundle(Last(s)), ReadPod(Last(s)), WriteStatus(Healthy), CreatePod(Healthy)];
    var r := Perform(Perform(Perform(s, actions[0]), actions[1]), actions[2]);
    assert r == s.(controller := HasPod(Last(s), Last(s)));
    var t := Perform(r, actions[3]);
    assert t.controller.MustCreatePod? && Now(t).pod.None?;
    RunFive(s, actions);
  }

  lemma RunFive(s: Recorded, actions: seq<Action>)
    requires |actions| == 5
    ensures Run(s, actions)
      == Perform(Perform(Perform(Perform(Perform(s, actions[0]), actions[1]), actions[2]), actions[3]), actions[4])
  {
    assert Run(Perform(s, actions[0]), actions[1..]) ==
      Run(Perform(Perform(s, actions[0]), actions[1]), actions[1..][1..]);
    var t := Perform(Perform(s, actions[0]), actions[1]);
    var rest := actions[1..][1..];
    assert rest == actions[2..];
    assert Run(t, rest) == Run(Perform(t, rest[0]), rest[1..]);
    var u := Perform(t, rest[0]);
    assert Run(u, rest[1..]) == Run(Perform(u, rest[1..][0]), rest[1..][1..]);
    var v := Perform(u, rest[1..][0]);
    assert rest[1..][1..] == [actions[4]];
    assert Run(v, [actions[4]]) == Run(Perform(v, actions[4]), [actions[4]][1..]);
  }

  lemma {:induction false} RunConcat(s: Recorded, a: seq<Action>, b: seq<Action>)
    ensures Run(s, a + b) == Run(Run(s, a), b)
    decreases |a|
  {
    if a == [] {
      assert a + b == b;
    } else {
      assert (a + b)[1..] == a[1..] + b;
      RunConcat(Perform(s, a[0]), a[1..], b);
    }
  }

  lemma ParserCanFinish(s: Recorded, error: Option<string>) returns (actions: seq<Action>)
    requires Now(s).pod.Some? && !s.parser.Finished?
    ensures Run(s, actions).parser.Finished?
    ensures Now(Run(s, actions)).bundle.status.state == if error.None? then BundleValid else BundleInvalid
  {
    actions := [Kubelet([InitStatus(true, None)]), CrashParser, StartParser, ParserReads,
      ParserWrites(error, true, Healthy)];
    var t := Perform(s, actions[0]);
    assert Ready(Now(t).pod);
    var u := Perform(Perform(Perform(t, actions[1]), actions[2]), actions[3]);
    assert u == t.(parser := HasRead(Last(t)));
    RunFive(s, actions);
  }

  /** No interleaving gets stuck: from every state in which the parser has not finished, some steps lead
      to either verdict. */
  lemma EitherVerdictIsWithinReach(s: Recorded, error: Option<string>) returns (actions: seq<Action>)
    requires !s.parser.Finished?
    ensures Run(s, actions).parser.Finished?
    ensures Now(Run(s, actions)).bundle.status.state == if error.None? then BundleValid else BundleInvalid
  {
    var first := [];
    if Now(s).pod.None? {
      first := PodCanBeCreated(s);
    }
    var second := ParserCanFinish(Run(s, first), error);
    actions := first + second;
    RunConcat(s, first, second);
  }

  // --- the controller of the protocol is the controller of the program -------------------------

  /** The store holds what the snapshot says. */
  ghost predicate Shows(s: Store, ns: string, name: string, n: Snapshot) {
    && BundleKey(ns, name) in s.objects
    && s.objects[BundleKey(ns, name)].body == ProfileBundleBody(n.bundle.spec, n.bundle.status)
    && (n.pod.Some? <==> PodKey(ns, name) in s.objects)
    && (n.pod.Some? ==> s.objects[PodKey(ns, name)].body == PodBody(n.pod.value))
  }

  /** What happens to the four calls of a reconcile. */
  datatype Faults = Faults(readBundle: Fault, readPod: Fault, writeStatus: Fault, createPod: Fault)

  function NextFaults(w: World): Faults {
    Faults(NextFault(w), NextFault(Begin(w)), NextFault(Begin(Begin(w))), NextFault(Begin(Begin(Begin(w)))))
  }

  /** The steps of one reconcile on current reads; a failed read ends it. */
  function PassOf(last: nat, f: Faults): seq<Action> {
    [if f.readBundle == Healthy then ReadBundle(last) else AbandonReconcile,
     if f.readBundle == Healthy && f.readPod == Healthy then ReadPod(last) else AbandonReconcile,
     WriteStatus(f.writeStatus), CreatePod(f.createPod), AbandonReconcile]
  }

  /** What becomes of a snapshot when the controller takes these steps. */
  function AfterPass(n: Snapshot, f: Faults): Snapshot {
    var decision := Decide(n.pod);
    if f.readBundle != Healthy || f.readPod != Healthy || decision.LeaveAlone? || f.writeStatus == Refused then n
    else
      n.(bundle := Written(n.bundle, StatusFor(decision, n.bundle.status)),
         pod := if decision.Launch? && f.writeStatus == Healthy && f.createPod != Refused then Some(Pod([])) else n.pod)
  }

  lemma ControllerPass(s: Recorded, f: Faults)
    requires s.controller.Idle?
    ensures Now(Run(s, PassOf(Last(s), f))) == AfterPass(Now(s), f)
  {
    var actions := PassOf(Last(s), f);
    RunFive(s, actions);
    var r := Perform(Perform(s, actions[0]), actions[1]);
    if f.readBundle == Healthy && f.readPod == Healthy {
      assert r == s.(controller := HasPod(Last(s), Last(s)));
      WritesAfterReads(r, f);
    } else {
      assert r == s;
    }
  }

  lemma WritesAfterReads(s: Recorded, f: Faults)
    requires s.controller == HasPod(Last(s), Last(s)) && f.readBundle == f.readPod == Healthy
    ensures Now(Perform(Perform(Perform(s, WriteStatus(f.writeStatus)), CreatePod(f.createPod)), AbandonReconcile))
      == AfterPass(Now(s), f)
  {
    var t := Perform(s, WriteStatus(f.writeStatus));
    assert Now(t).pod == Now(s).pod;
  }

  lemma ReadsFail(w: World, ns: string, name: string)
    requires Quiet(w) && BundleKey(ns, name) in w.store.objects
    requires NextFault(w) != Healthy || NextFault(Begin(w)) != Healthy
    ensures Reconcile(w, ns, name).0.store == w.store
  {
    QuietCall(w);
    QuietCall(Begin(w));
  }

  lemma ReadsSucceed(w: World, ns: string, name: string, n: Snapshot) returns (found: World)
    requires Quiet(w) && Shows(w.store, ns, name, n)
    requires NextFault(w) == Healthy && NextFault(Begin(w)) == Healthy
    ensures Quiet(found) && found.store == w.store
    ensures NextFault(found) == NextFault(Begin(Begin(w)))
    ensures NextFault(Begin(found)) == NextFault(Begin(Begin(Begin(w))))
    ensures Reconcile(w, ns, name).0
      == Act(found, ns, name, w.store.objects[BundleKey(ns, name)], Decide(n.pod)).0
  {
    QuietCall(w);
    QuietCall(Begin(w));
    found := Get(Get(w, BundleKey(ns, name)).0, PodKey(ns, name)).0;
    assert found.script == Begin(Begin(w)).script && found.after == w.after;
  }

  lemma ActShows(w: World, ns: string, name: string, n: Snapshot, f: Faults)
    requires Quiet(w) && Shows(w.store, ns, name, n)
    requires f == Faults(Healthy, Healthy, NextFault(w), NextFault(Begin(w)))
    ensures var r := Act(w, ns, name, w.store.objects[BundleKey(ns, name)], Decide(n.pod));
      Shows(r.0.store, ns, name, AfterPass(n, f))
  {
    match Decide(n.pod) {
      case LeaveAlone =>
      case ReportStartupError => StatusWriteShows(w, ns, name, n, StartupErrorStatus(n.bundle.status));
      case Launch => LaunchShows(w, ns, name, n, f);
    }
  }

  lemma LaunchShows(w: World, ns: string, name: string, n: Snapshot, f: Faults)
    requires Quiet(w) && Shows(w.store, ns, name, n) && n.pod.None?
    requires f == Faults(Healthy, Healthy, NextFault(w), NextFault(Begin(w)))
    ensures Shows(LaunchPod(w, ns, name, w.store.objects[BundleKey(ns, name)]).0.store, ns, name, AfterPass(n, f))
  {
    var pb, pending := w.store.objects[BundleKey(ns, name)], PendingStatus(n.bundle.status);
    StatusWriteShows(w, ns, name, n, pending);
    var r := StoreStatus(w, ns, name, pb, pending);
    if r.1.Ok? {
      CreationShows(r.0, ns, name, pb.uid, n.(bundle := Written(n.bundle, pending)));
    }
  }

  /** A status write on a current read. */
  lemma StatusWriteShows(w: World, ns: string, name: string, n: Snapshot, status: BundleStatus)
    requires Quiet(w) && Shows(w.store, ns, name, n)
    ensures var r := StoreStatus(w, ns, name, w.store.objects[BundleKey(ns, name)], status);
      && Quiet(r.0) && NextFault(r.0) == NextFault(Begin(w))
      && Shows(r.0.store, ns, name,
               if NextFault(w) == Refused then n else n.(bundle := Written(n.bundle, status)))
      && (r.1.Ok? <==> NextFault(w) == Healthy)
  {
    QuietCall(w);
  }

  lemma CreationShows(w: World, ns: string, name: string, uid: nat, n: Snapshot)
    requires Quiet(w) && Shows(w.store, ns, name, n) && n.pod.None?
    ensures Shows(Create(w, PodKey(ns, name), BundleOwners(name, uid), PodBody(Pod([]))).0.store, ns, name,
              if NextFault(w) == Refused then n else n.(pod := Some(Pod([]))))
  {
    QuietCall(w);
  }

  /** The controller's steps, taken one after the other on current reads, are one reconcile among no other
      writers, whichever of its calls fail and however they do. */
  lemma ReconcileIsARunOfTheController(w: World, ns: string, name: string, s: Recorded)
    requires Quiet(w) && s.controller.Idle? && Shows(w.store, ns, name, Now(s))
    ensures Shows(Reconcile(w, ns, name).0.store, ns, name, Now(Run(s, PassOf(Last(s), NextFaults(w)))))
  {
    var f := NextFaults(w);
    ControllerPass(s, f);
    if f.readBundle == Healthy && f.readPod == Healthy {
      var found := ReadsSucceed(w, ns, name, Now(s));
      ActShows(found, ns, name, Now(s), f);
    } else {
      ReadsFail(w, ns, name);
    }
  }
}
