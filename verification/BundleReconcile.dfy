/** What one ProfileBundle reconcile does to the world: a function of the world it starts in, with every
    API call in the order in which the controller makes it. */
module BundleReconcile {
  import opened ApiTypes
  import opened ApiStore

  const STARTUP_ERROR := "The init container failed to start. Check Status.ContentImage."

  function PodKey(ns: string, bundle: string): Key { Key(PodKind, ns, bundle + "-pp") }

  predicate PullFailed(s: InitStatus) {
    s.waiting == Some("ImagePullBackOff") || s.waiting == Some("ErrImagePull")
  }

  /** Init containers run one after the other: the scan stops at the first that is ready. */
  predicate StartupError(statuses: seq<InitStatus>) {
    if statuses == [] || statuses[0].ready then false
    else PullFailed(statuses[0]) || StartupError(statuses[1..])
  }

  /** An image cannot be pulled, and no init container up to that one is ready. */
  lemma {:induction false} StartupErrorExactly(statuses: seq<InitStatus>)
    ensures StartupError(statuses) <==>
      exists i :: 0 <= i < |statuses| && PullFailed(statuses[i]) && forall j :: 0 <= j <= i ==> !statuses[j].ready
  {
    if statuses != [] && !statuses[0].ready && !PullFailed(statuses[0]) {
      StartupErrorExactly(statuses[1..]);
      if StartupError(statuses[1..]) {
        var i :| 0 <= i < |statuses| - 1 && PullFailed(statuses[1..][i])
          && forall j :: 0 <= j <= i ==> !statuses[1..][j].ready;
        forall j | 0 <= j <= i + 1 ensures !statuses[j].ready {
          assert j > 0 ==> statuses[1..][j - 1] == statuses[j];
        }
        assert PullFailed(statuses[i + 1]);
      }
      if i :| 0 <= i < |statuses| && PullFailed(statuses[i]) && forall j :: 0 <= j <= i ==> !statuses[j].ready {
        forall j | 0 <= j <= i - 1 ensures !statuses[1..][j].ready {
          assert statuses[1..][j] == statuses[j + 1];
        }
        assert PullFailed(statuses[1..][i - 1]);
      }
    }
  }

  /** What the controller makes of the pod it finds. */
  datatype Decision = Launch | ReportStartupError | LeaveAlone

  function Decide(pod: Option<Pod>): Decision {
    match pod
    case None => Launch
    case Some(p) => if StartupError(p.initStatuses) then ReportStartupError else LeaveAlone
  }

  /** PENDING keeps the error message of an earlier verdict. */
  function PendingStatus(s: BundleStatus): BundleStatus { s.(state := BundlePending) }

  function StartupErrorStatus(s: BundleStatus): BundleStatus { BundleStatus(BundleInvalid, STARTUP_ERROR) }

  function StoreStatus(w: World, ns: string, name: string, pb: Object, status: BundleStatus): (World, Reply<Object>)
    requires pb.body.ProfileBundleBody?
  {
    UpdateStatus(w, BundleKey(ns, name), pb.version, ProfileBundleBody(pb.body.bundleSpec, status))
  }

  /** Once both lookups have been made. */
  function Act(w: World, ns: string, name: string, pb: Object, decision: Decision): (World, Outcome)
    requires pb.body.ProfileBundleBody?
  {
    match decision
    case Launch => LaunchPod(w, ns, name, pb)
    case ReportStartupError =>
      var r := StoreStatus(w, ns, name, pb, StartupErrorStatus(pb.body.bundleStatus));
      (r.0, OutcomeOf(r.1))
    case LeaveAlone => (w, Done)
  }

  function LaunchPod(w: World, ns: string, name: string, pb: Object): (World, Outcome)
    requires pb.body.ProfileBundleBody?
  {
    var r := StoreStatus(w, ns, name, pb, PendingStatus(pb.body.bundleStatus));
    if r.1.Err? then (r.0, Requeue)
    else
      var made := Create(r.0, PodKey(ns, name), BundleOwners(name, pb.uid), PodBody(Pod([])));
      (made.0, OutcomeOf(made.1))
  }

  function PodFound(r: Reply<Object>): Option<Pod>
    requires r.Ok? ==> r.value.body.PodBody?
  {
    if r.Ok? then Some(r.value.body.pod) else None
  }

  function Reconcile(w: World, ns: string, name: string): (World, Outcome) {
    var got := Get(w, BundleKey(ns, name));
    if got.1.Err? then (got.0, if got.1.error == NotFound then Done else Requeue)
    else
      var found := Get(got.0, PodKey(ns, name));
      if found.1.Err? && found.1.error != NotFound then (found.0, Requeue)
      else Act(found.0, ns, name, got.1.value, Decide(PodFound(found.1)))
  }

  // --- a reconcile on its own ----------------------------------------------------------------

  /** What is on record about a bundle and its pod once a reconcile has been completed. */
  ghost predicate Settled(s: Store, ns: string, name: string) {
    BundleKey(ns, name) in s.objects ==>
      && PodKey(ns, name) in s.objects
      && (StartupError(s.objects[PodKey(ns, name)].body.pod.initStatuses) ==>
            s.objects[BundleKey(ns, name)].body.bundleStatus == BundleStatus(BundleInvalid, STARTUP_ERROR))
  }

  /** Undisturbed, one reconcile settles a bundle: a missing pod is created, controlled by the bundle,
      and PENDING recorded; a pod that cannot start is reported; anything else is left alone. A
      reconcile changes something exactly when the bundle is there and not settled. */
  lemma OneReconcileSettles(w: World, ns: string, name: string)
    requires Calm(w)
    ensures var r := Reconcile(w, ns, name);
      && r.1 == Done && Calm(r.0) && Settled(r.0.store, ns, name)
      && (r.0.store == w.store <==> Settled(w.store, ns, name))
      && (BundleKey(ns, name) in w.store.objects && PodKey(ns, name) !in w.store.objects ==>
            && r.0.store.objects[BundleKey(ns, name)].body.bundleStatus.state == BundlePending
            && OwnedBy(r.0.store.objects[PodKey(ns, name)].owners, w.store.objects[BundleKey(ns, name)].uid))
  {
    if BundleKey(ns, name) in w.store.objects {
      var pb := w.store.objects[BundleKey(ns, name)];
      var found := Get(Get(w, BundleKey(ns, name)).0, PodKey(ns, name));
      assert found.0.store == w.store && Calm(found.0);
      if PodKey(ns, name) in w.store.objects {
        ReportSettles(found.0, ns, name, pb, Decide(PodFound(found.1)));
      } else {
        LaunchSettles(found.0, ns, name, pb);
      }
    }
  }

  lemma LaunchSettles(w: World, ns: string, name: string, pb: Object)
    requires Calm(w) && BundleKey(ns, name) in w.store.objects && w.store.objects[BundleKey(ns, name)] == pb
    requires PodKey(ns, name) !in w.store.objects
    ensures var r := LaunchPod(w, ns, name, pb);
      && r.1 == Done && Calm(r.0) && Settled(r.0.store, ns, name) && r.0.store != w.store
      && StatusIn(r.0.store, ns, name).state == BundlePending
      && OwnedBy(r.0.store.objects[PodKey(ns, name)].owners, pb.uid)
  {
    var r := StoreStatus(w, ns, name, pb, PendingStatus(pb.body.bundleStatus));
    CalmStatusWrite(w, ns, name, pb, PendingStatus(pb.body.bundleStatus));
    CalmPodCreation(r.0, ns, name, pb.uid);
  }

  lemma CalmStatusWrite(w: World, ns: string, name: string, pb: Object, status: BundleStatus)
    requires Calm(w) && BundleKey(ns, name) in w.store.objects && w.store.objects[BundleKey(ns, name)] == pb
    ensures var r := StoreStatus(w, ns, name, pb, status);
      && r.1.Ok? && Calm(r.0) && r.0.store.objects.Keys == w.store.objects.Keys
      && StatusIn(r.0.store, ns, name) == status
  {
  }

  lemma CalmPodCreation(w: World, ns: string, name: string, uid: nat)
    requires Calm(w) && PodKey(ns, name) !in w.store.objects
    ensures var r := Create(w, PodKey(ns, name), BundleOwners(name, uid), PodBody(Pod([])));
      && r.1.Ok? && Calm(r.0) && r.0.store.objects.Keys == w.store.objects.Keys + {PodKey(ns, name)}
      && r.0.store.objects[PodKey(ns, name)].body == PodBody(Pod([]))
      && r.0.store.objects[PodKey(ns, name)].owners == BundleOwners(name, uid)
      && forall k <- w.store.objects :: r.0.store.objects[k] == w.store.objects[k]
  {
  }

  lemma ReportSettles(w: World, ns: string, name: string, pb: Object, decision: Decision)
    requires Calm(w) && BundleKey(ns, name) in w.store.objects && w.store.objects[BundleKey(ns, name)] == pb
    requires PodKey(ns, name) in w.store.objects && decision == Decide(Some(w.store.objects[PodKey(ns, name)].body.pod))
    ensures var r := Act(w, ns, name, pb, decision);
      && r.1 == Done && Calm(r.0) && Settled(r.0.store, ns, name)
      && (r.0.store == w.store <==> Settled(w.store, ns, name))
  {
  }

  function StatusIn(s: Store, ns: string, name: string): BundleStatus
    requires BundleKey(ns, name) in s.objects
  {
    s.objects[BundleKey(ns, name)].body.bundleStatus
  }

  /** PENDING leaves the message as it was: that of an earlier verdict is not cleared, and without one there
      is none. Among no other writers a reconcile that launches a pod stores PENDING unless its status
      write is refused, whatever fails after it. */
  lemma PendingKeepsMessage(w: World, ns: string, name: string)
    requires Quiet(w) && BundleKey(ns, name) in w.store.objects && PodKey(ns, name) !in w.store.objects
    ensures var before, t := StatusIn(w.store, ns, name), Reconcile(w, ns, name).0.store;
      && BundleKey(ns, name) in t.objects
      && (StatusWriteLands(w) ==>
            && StatusIn(t, ns, name).state == BundlePending
            && StatusIn(t, ns, name).message == before.message)
      && (!StatusWriteLands(w) ==> t == w.store)
  {
    QuietCall(w);
    QuietCall(Begin(w));
    QuietCall(Begin(Begin(w)));
    var got := Get(w, BundleKey(ns, name));
    if got.1.Ok? {
      var found := Get(got.0, PodKey(ns, name));
      if found.1 == Err(NotFound) {
        LaunchKeepsMessage(found.0, ns, name, got.1.value);
      }
    }
  }

  /** The two lookups succeed, and the write after them is not refused. */
  ghost predicate StatusWriteLands(w: World) {
    NextFault(w) == Healthy && NextFault(Begin(w)) == Healthy && NextFault(Begin(Begin(w))) != Refused
  }

  /** What the launch of a pod does to the bundle. */
  lemma LaunchKeepsMessage(w: World, ns: string, name: string, pb: Object)
    requires Quiet(w) && BundleKey(ns, name) in w.store.objects && w.store.objects[BundleKey(ns, name)] == pb
    ensures var t := LaunchPod(w, ns, name, pb).0.store;
      && BundleKey(ns, name) in t.objects
      && (if NextFault(w) == Refused then t == w.store
          else StatusIn(t, ns, name) == PendingStatus(pb.body.bundleStatus))
  {
    QuietCall(w);
    var r := StoreStatus(w, ns, name, pb, PendingStatus(pb.body.bundleStatus));
    QuietCall(r.0);
  }

  // --- what is stored, in the terms of the API ---------------------------------------------------

  /** Some init container waits with one of these reasons, and none up to it is ready. */
  ghost predicate CannotPull(statuses: seq<InitStatus>) {
    exists i :: 0 <= i < |statuses| && IsWaiting(statuses[i]) && forall j :: 0 <= j <= i ==> !statuses[j].ready
  }

  ghost predicate IsWaiting(s: InitStatus) {
    s.waiting == Some("ImagePullBackOff") || s.waiting == Some("ErrImagePull")
  }

  lemma CannotPullIsStartupError(statuses: seq<InitStatus>)
    ensures StartupError(statuses) <==> CannotPull(statuses)
  {
    StartupErrorExactly(statuses);
    forall i | 0 <= i < |statuses| ensures PullFailed(statuses[i]) <==> IsWaiting(statuses[i]) {
    }
  }

  /** With its pod there, a bundle is reported INVALID exactly when an image cannot be pulled, for the one reason
      or the other, and no init container up to that one is ready; otherwise nothing is written. */
  lemma PullErrorIsReportedExactly(w: World, ns: string, name: string)
    requires var bundle, pod := Key(ProfileBundleKind, ns, name), Key(PodKind, ns, name + "-pp");
      Calm(w) && bundle in w.store.objects && pod in w.store.objects
    ensures var bundle, pod := Key(ProfileBundleKind, ns, name), Key(PodKind, ns, name + "-pp");
      var t := Reconcile(w, ns, name).0.store;
      if CannotPull(w.store.objects[pod].body.pod.initStatuses) then
        && OnlyChanges(w.store, t, {bundle})
        && t.objects[bundle].body == ProfileBundleBody(w.store.objects[bundle].body.bundleSpec,
             BundleStatus(BundleInvalid, "The init container failed to start. Check Status.ContentImage."))
      else t == w.store
  {
    CannotPullIsStartupError(w.store.objects[PodKey(ns, name)].body.pod.initStatuses);
  }

  /** Without its pod, PENDING is stored with the message that was there, and the pod is created, controlled by
      the bundle. */
  lemma PodIsLaunched(w: World, ns: string, name: string)
    requires var bundle, pod := Key(ProfileBundleKind, ns, name), Key(PodKind, ns, name + "-pp");
      Calm(w) && bundle in w.store.objects && pod !in w.store.objects
    ensures var bundle, pod := Key(ProfileBundleKind, ns, name), Key(PodKind, ns, name + "-pp");
      var before, t := w.store.objects[bundle], Reconcile(w, ns, name).0.store;
      && OnlyChanges(w.store, t, {bundle, pod})
      && t.objects[bundle].body == ProfileBundleBody(before.body.bundleSpec,
           BundleStatus(BundlePending, before.body.bundleStatus.message))
      && t.objects[pod].body == PodBody(Pod([]))
      && t.objects[pod].owners
         == [OwnerRef("compliance.openshift.io", "v1alpha1", "ProfileBundle", name, before.uid, true)]
  {
    var pb := w.store.objects[BundleKey(ns, name)];
    var found := Get(Get(w, BundleKey(ns, name)).0, PodKey(ns, name));
    assert found.0.store == w.store && Calm(found.0);
    LaunchStores(found.0, ns, name, pb);
  }

  lemma LaunchStores(w: World, ns: string, name: string, pb: Object)
    requires Calm(w) && BundleKey(ns, name) in w.store.objects && w.store.objects[BundleKey(ns, name)] == pb
    requires PodKey(ns, name) !in w.store.objects
    ensures var t := LaunchPod(w, ns, name, pb).0.store;
      && OnlyChanges(w.store, t, {BundleKey(ns, name), PodKey(ns, name)})
      && t.objects[BundleKey(ns, name)].body == ProfileBundleBody(pb.body.bundleSpec,
           BundleStatus(BundlePending, pb.body.bundleStatus.message))
      && t.objects[PodKey(ns, name)].body == PodBody(Pod([]))
      && t.objects[PodKey(ns, name)].owners == BundleOwners(name, pb.uid)
  {
    CalmStatusWrite(w, ns, name, pb, PendingStatus(pb.body.bundleStatus));
    CalmPodCreation(StoreStatus(w, ns, name, pb, PendingStatus(pb.body.bundleStatus)).0, ns, name, pb.uid);
  }

  // --- errors ----------------------------------------------------------------------------------------

  lemma ActDone(w: World, ns: string, name: string, pb: Object, pod: Option<Pod>)
    requires Quiet(w) && BundleKey(ns, name) in w.store.objects && w.store.objects[BundleKey(ns, name)] == pb
    requires pod.Some? <==> PodKey(ns, name) in w.store.objects
    requires pod.Some? ==> w.store.objects[PodKey(ns, name)].body.pod == pod.value
    requires Act(w, ns, name, pb, Decide(pod)).1 == Done
    ensures Settled(Act(w, ns, name, pb, Decide(pod)).0.store, ns, name)
  {
    QuietCall(w);
    if pod.None? {
      QuietCall(StoreStatus(w, ns, name, pb, PendingStatus(pb.body.bundleStatus)).0);
    }
  }

  /** Whichever calls fail, a reconcile among no other writers that returns no error has settled the bundle. */
  lemma NoErrorMeansSettled(w: World, ns: string, name: string)
    requires Quiet(w) && Reconcile(w, ns, name).1 == Done
    ensures Settled(Reconcile(w, ns, name).0.store, ns, name)
  {
    QuietCall(w);
    var got := Get(w, BundleKey(ns, name));
    if got.1.Ok? {
      QuietCall(got.0);
      var found := Get(got.0, PodKey(ns, name));
      ActDone(found.0, ns, name, got.1.value, PodFound(found.1));
    }
  }
}
