/** Deletion cascades: after a bundle is deleted the cluster's garbage collector removes, in any order
    and interleaved with reconciles of any TailoredProfile, the outputs of every TailoredProfile all of
    whose owners come from that bundle. No reconcile that starts after the deletion brings one back, and what
    a reconcile that was under way still creates is collected as well. */
module GarbageCollection {
  import opened ApiTypes
  import opened ApiStore
  import opened TailoredProfileReconcile
  import opened TailoredProfileConvergence
  import opened TailoredProfileOutcomes
  import opened Datastream
  import opened Import
  import opened ImportRestart
  import opened ImportedObjects
  import Publication = TailoredProfilePublication

  // --- the collector -------------------------------------------------------------------------

  ghost predicate Gone(s: Store, uid: nat) { forall k <- s.objects :: s.objects[k].uid != uid }

  /** Gone, and never to come back. */
  ghost predicate Dead(s: Store, uid: nat) { uid < s.nextUid && Gone(s, uid) }

  /** The collector removes an object that has owners, all of which are gone. */
  ghost predicate Orphan(s: Store, k: Key) {
    && k in s.objects && s.objects[k].owners != []
    && forall r <- s.objects[k].owners :: Gone(s, r.uid)
  }

  /** A single write of a reconcile that has read everything it goes by before: a change of its
      TailoredProfile under the version read, or the creation of the output. */
  datatype LateWrite =
    | Amend(version: nat, owner: Option<OwnerRef>, outputType: string, status: TailoredProfileStatus)
    | MakeConfigMap(tailoring: Tailoring)
    | MakePolicy(bundle: BundleSpec, tailoring: Tailoring)

  /** The collector may run at any time; a reconcile of any TailoredProfile may come in between, and
      any of its calls may fail; and so may a late write of a reconcile over a TailoredProfile with this uid,
      whatever has become of that since. */
  datatype Turn =
    | Collect(key: Key)
    | Pass(ns: string, name: string, time: string, faults: seq<Fault>, after: Fault)
    | Late(ns: string, name: string, uid: nat, write: LateWrite)

  function MakeLate(s: Store, out: Output): Store
    requires out.body.BodyKind() == out.key.kind
  {
    if out.key in s.objects then s else Put(s, out.key, out.owners, out.body)
  }

  function WriteLate(s: Store, ns: string, name: string, uid: nat, write: LateWrite): Store {
    match write
    case Amend(version, owner, outputType, status) =>
      var key := TailoredProfileKey(ns, name);
      if key !in s.objects || s.objects[key].version != version then s
      else
        var tp := s.objects[key];
        Put(s, key, if owner.Some? then Upsert(tp.owners, owner.value) else tp.owners,
          TailoredProfileBody(tp.body.spec.(outputType := outputType), status))
    case MakeConfigMap(tailoring) => MakeLate(s, ConfigMapOutput(ns, name, uid, tailoring))
    case MakePolicy(bundle, tailoring) => MakeLate(s, PolicyOutput(ns, name, bundle, tailoring))
  }

  ghost function Take(s: Store, turn: Turn): Store {
    match turn
    case Collect(k) => if Orphan(s, k) then Delete(s, k) else s
    case Pass(ns, name, time, faults, after) => Reconcile(Faulty(s, faults, after), ns, name, time).0.store
    case Late(ns, name, uid, write) => WriteLate(s, ns, name, uid, write)
  }

  ghost function TakeAll(s: Store, turns: seq<Turn>): Store
    decreases |turns|
  {
    if turns == [] then s else TakeAll(Take(s, turns[0]), turns[1..])
  }

  // --- what hangs on a deleted bundle ----------------------------------------------------------

  /** A bundle that has been deleted. */
  datatype Fallen = Fallen(ns: string, name: string, uid: nat)

  /** An object that only the fallen bundle owned, as imported objects are owned. */
  ghost predicate HangsOn(o: Object, b: Fallen) {
    o.owners != [] && forall r <- o.owners :: r.uid == b.uid && (RefersToBundle(r) ==> r.name == b.name)
  }

  /** Whoever still has this uid is a Profile that hangs on the fallen bundle. */
  ghost predicate Doomed(s: Store, uid: nat, b: Fallen) {
    && uid < s.nextUid
    && forall k <- s.objects :: s.objects[k].uid == uid ==> k.kind == ProfileKind && HangsOn(s.objects[k], b)
  }

  /** A TailoredProfile all of whose owners, and the Profile it extends if that exists, are doomed. */
  ghost predicate DoomedTailoredProfile(s: Store, ns: string, o: Object, b: Fallen) {
    && o.body.TailoredProfileBody? && o.owners != []
    && (forall r <- o.owners :: Doomed(s, r.uid, b))
    && var p := ProfileKey(ns, o.body.spec.extended);
    p in s.objects ==> Doomed(s, s.objects[p].uid, b)
  }

  function OutputConfigMap(ns: string, name: string): Key { Key(ConfigMapKind, ns, ConfigMapName(name)) }

  /** The bundle is gone, a TailoredProfile with this name and uid is doomed if it is still there, and
      its ConfigMap, if it is there, is controlled by it. */
  ghost predicate Falling(s: Store, b: Fallen, name: string, uid: nat) {
    var key, output := TailoredProfileKey(b.ns, name), OutputConfigMap(b.ns, name);
    && BundleKey(b.ns, b.name) !in s.objects && Dead(s, b.uid)
    && (key in s.objects ==> DoomedTailoredProfile(s, b.ns, s.objects[key], b))
    && uid < s.nextUid && (forall k <- s.objects :: s.objects[k].uid == uid ==> k == key)
    && (output in s.objects ==> s.objects[output].owners == [OwnerOf("TailoredProfile", name, uid, true)])
  }

  // --- how it starts -----------------------------------------------------------------------------

  /** The owner is a stored Profile that hangs on the bundle. */
  ghost predicate IsProfileOf(s: Store, uid: nat, b: Fallen) {
    exists k <- s.objects :: k.kind == ProfileKind && s.objects[k].uid == uid && HangsOn(s.objects[k], b)
  }

  /** Everything about the TailoredProfile comes from the bundle, which is still there. That no two objects
      share a uid is no restriction: `UniqueUids` shows that no run of any program changes that. */
  ghost predicate AllFrom(s: Store, b: Fallen, name: string) {
    var bundle, key, output := BundleKey(b.ns, b.name), TailoredProfileKey(b.ns, name), OutputConfigMap(b.ns, name);
    && UniqueUids(s)
    && bundle in s.objects && s.objects[bundle].uid == b.uid
    && key in s.objects && s.objects[key].owners != []
    && (forall r <- s.objects[key].owners :: IsProfileOf(s, r.uid, b))
    && (var p := ProfileKey(b.ns, s.objects[key].body.spec.extended); p in s.objects ==> HangsOn(s.objects[p], b))
    && (output in s.objects ==>
          s.objects[output].owners == [OwnerOf("TailoredProfile", name, s.objects[key].uid, true)])
  }

  /** Deleting the bundle starts the fall of the TailoredProfile. */
  lemma DeletionStartsTheFall(s: Store, b: Fallen, name: string)
    requires AllFrom(s, b, name)
    ensures Falling(Delete(s, BundleKey(b.ns, b.name)), b, name, s.objects[TailoredProfileKey(b.ns, name)].uid)
  {
    var t, o := Delete(s, BundleKey(b.ns, b.name)), s.objects[TailoredProfileKey(b.ns, name)];
    forall r <- o.owners ensures Doomed(t, r.uid, b) {
      assert IsProfileOf(s, r.uid, b);
    }
  }

  /** A Profile that an import of the bundle has newly made hangs on the bundle. */
  lemma ImportedProfilesHangOnTheBundle(s0: Store, s: Store, c: Config, uid: nat, d: Document, k: Key)
    requires Reached(s0, s, BundleKey(c.ns, c.bundle), Plan(Steps(c, uid, d)))
    requires k in s.objects && k !in s0.objects && k.kind == ProfileKind
    ensures HangsOn(s.objects[k], Fallen(c.ns, c.bundle, uid))
  {
    var plan := Plan(Steps(c, uid, d));
    assert FirstOfPlan(plan, k, s.objects[k]);
    var j :| 0 <= j < |plan| && IsFirst(plan, j) && plan[j].key == k && Holds(s.objects[k], plan[j]);
    var n := PlannedProfile(c, uid, d, plan[j]);
    assert s.objects[k].owners == BundleOwners(c.bundle, uid);
  }

  /** A ConfigMap that the reconciler has published, in any run, is controlled by its TailoredProfile,
      which was owned by the Profile it extends. */
  lemma PublishedConfigMapsAreControlled(log: seq<Access>, start: nat, end: nat, ns: string, name: string, time: string,
                                         snap: Publication.Snapshot)
    requires end < |log| && Publication.Justifies(log, start, end, ns, name, time, snap)
    requires log[end].key.kind == ConfigMapKind
    ensures log[end].Made? && log[end].key == OutputConfigMap(ns, name)
    ensures log[end].made.owners == [OwnerOf("TailoredProfile", name, snap.tp.uid, true)]
    ensures OwnedBy(snap.tp.owners, snap.profile.uid)
  {
  }

  // --- collecting ------------------------------------------------------------------------------

  lemma CollectKeepsFalling(s: Store, b: Fallen, name: string, uid: nat, k: Key)
    requires Falling(s, b, name, uid)
    ensures Falling(Delete(s, k), b, name, uid)
  {
  }

  /** As long as the TailoredProfile or its ConfigMap is left, there is something to collect. */
  lemma LeftoversCanBeCollected(s: Store, b: Fallen, name: string, uid: nat) returns (k: Key)
    requires Falling(s, b, name, uid)
    requires TailoredProfileKey(b.ns, name) in s.objects || OutputConfigMap(b.ns, name) in s.objects
    ensures Orphan(s, k)
  {
    if h :| h in s.objects && HangsOn(s.objects[h], b) {
      k := h;
    } else if TailoredProfileKey(b.ns, name) in s.objects {
      k := TailoredProfileKey(b.ns, name);
    } else {
      k := OutputConfigMap(b.ns, name);
    }
  }

  // --- passes ----------------------------------------------------------------------------------

  /** What a pass over one TailoredProfile can do to a store: change that TailoredProfile, and add its
      output, under a new uid. */
  ghost predicate Framed(s: Store, t: Store, ns: string, name: string) {
    && s.nextUid <= t.nextUid
    && s.objects.Keys <= t.objects.Keys
    && (forall k <- s.objects :: t.objects[k].uid == s.objects[k].uid)
    && (forall k <- s.objects :: k == TailoredProfileKey(ns, name) || t.objects[k] == s.objects[k])
    && (forall k <- t.objects ::
          || k in s.objects
          || (t.objects[k].uid >= s.nextUid && k in {OutputConfigMap(ns, name), Key(PolicyKind, ns, name)}))
  }

  lemma FramedReflexive(s: Store, ns: string, name: string)
    ensures Framed(s, s, ns, name)
  {
  }

  lemma PutIsFramed(s: Store, t: Store, k: Key, owners: seq<OwnerRef>, body: Body, ns: string, name: string)
    requires Framed(s, t, ns, name) && body.BodyKind() == k.kind
    requires if k in t.objects then k == TailoredProfileKey(ns, name)
             else k in {OutputConfigMap(ns, name), Key(PolicyKind, ns, name)}
    ensures Framed(s, Put(t, k, owners, body), ns, name)
  {
  }

  lemma FullVerdictIsFramed(s: Store, ns: string, name: string, v: Verdict, time: string)
    requires TailoredProfileKey(ns, name) in s.objects
    requires v.Publish? ==> forall n <- s.objects[TailoredProfileKey(ns, name)].body.spec.Selected() :: n in v.rules
    ensures Framed(s, HalfVerdict(s, ns, name, v, time), ns, name)
    ensures Framed(s, FullVerdict(s, ns, name, v, time), ns, name)
  {
    var key, tp := TailoredProfileKey(ns, name), s.objects[TailoredProfileKey(ns, name)];
    FramedReflexive(s, ns, name);
    match v {
      case NoBundle =>
      case Complain(problem) =>
        PutIsFramed(s, s, key, tp.owners,
          TailoredProfileBody(tp.body.spec, ErrorStatus(tp.body.status, problem)), ns, name);
      case Publish(_, _, _, _) =>
        var out := OutputOf(ns, name, tp, v, time);
        if out.key !in s.objects {
          var half := HalfVerdict(s, ns, name, v, time);
          PutIsFramed(s, s, key, tp.owners,
            TailoredProfileBody(tp.body.spec, ReadyStatus(tp.body.status, name, out.ref)), ns, name);
          PutIsFramed(s, half, out.key, out.owners, out.body, ns, name);
        }
    }
  }

  lemma EffectIsFramed(s: Store, ns: string, name: string, time: string)
    ensures Framed(s, HalfEffect(s, ns, name, time), ns, name)
    ensures Framed(s, Effect(s, ns, name, time), ns, name)
  {
    var key := TailoredProfileKey(ns, name);
    if key in s.objects && ReadyForVerdict(s, ns, s.objects[key]) {
      FullVerdictIsFramed(s, ns, name, VerdictOn(s, ns, s.objects[key].body.spec), time);
    }
  }

  /** A pass over another TailoredProfile. */
  lemma OtherPassKeepsFalling(s: Store, t: Store, b: Fallen, name: string, uid: nat, ns': string, name': string)
    requires Falling(s, b, name, uid) && Framed(s, t, ns', name') && (ns' != b.ns || name' != name)
    ensures Falling(t, b, name, uid)
    ensures OutputConfigMap(b.ns, name) in t.objects <==> OutputConfigMap(b.ns, name) in s.objects
  {
    OutputNamesAreApart(b.ns, name, ns', name');
    FramedKeepsDead(s, t, ns', name', b.uid);
    var key := TailoredProfileKey(b.ns, name);
    assert key in t.objects ==> key in s.objects && t.objects[key] == s.objects[key];
    if key in s.objects {
      FramedKeepsDoomed(s, t, ns', name', s.objects[key], b);
    }
  }

  lemma OutputNamesAreApart(ns: string, name: string, ns': string, name': string)
    ensures OutputConfigMap(ns, name) == OutputConfigMap(ns', name') <==> ns == ns' && name == name'
  {
    assert ConfigMapName(name)[..|ConfigMapName(name)| - 3] == name;
    assert ConfigMapName(name')[..|ConfigMapName(name')| - 3] == name';
  }

  lemma FramedKeepsDead(s: Store, t: Store, ns: string, name: string, uid: nat)
    requires Framed(s, t, ns, name) && Dead(s, uid)
    ensures Dead(t, uid)
  {
  }

  lemma FramedKeepsDoom(s: Store, t: Store, ns: string, name: string, uid: nat, b: Fallen)
    requires Framed(s, t, ns, name) && Doomed(s, uid, b)
    ensures Doomed(t, uid, b)
  {
  }

  lemma FramedKeepsDoomed(s: Store, t: Store, ns: string, name: string, o: Object, b: Fallen)
    requires Framed(s, t, ns, name) && DoomedTailoredProfile(s, b.ns, o, b)
    ensures DoomedTailoredProfile(t, b.ns, o, b)
  {
    forall r <- o.owners ensures Doomed(t, r.uid, b) {
      FramedKeepsDoom(s, t, ns, name, r.uid, b);
    }
    var p := ProfileKey(b.ns, o.body.spec.extended);
    if p in s.objects {
      FramedKeepsDoom(s, t, ns, name, s.objects[p].uid, b);
    }
  }

  // --- a pass over the doomed TailoredProfile itself -------------------------------------------

  /** Without its bundle a Profile has nothing to scan with. */
  lemma DoomedProfileHasNoBundle(s: Store, b: Fallen, name: string, uid: nat, p: Object)
    requires Falling(s, b, name, uid) && HangsOn(p, b)
    ensures BundleOf(s, b.ns, p).None?
  {
  }

  lemma DoomedIsNotPublished(s: Store, b: Fallen, name: string, uid: nat)
    requires Falling(s, b, name, uid) && TailoredProfileKey(b.ns, name) in s.objects
    ensures !VerdictOn(s, b.ns, s.objects[TailoredProfileKey(b.ns, name)].body.spec).Publish?
  {
    var spec := s.objects[TailoredProfileKey(b.ns, name)].body.spec;
    var k := ProfileKey(b.ns, spec.extended);
    if k in s.objects {
      DoomedProfileHasNoBundle(s, b, name, uid, s.objects[k]);
    }
  }

  /** What a pass leaves of a doomed TailoredProfile: the Profile it extends may become an owner. */
  ghost predicate OnlyOwnerAdded(s: Store, o: Object, n: Object, ns: string) {
    && o.body.TailoredProfileBody? && n.body.TailoredProfileBody? && n.body.spec.extended == o.body.spec.extended
    && n.owners != []
    && forall r <- n.owners :: r in o.owners
         || (ProfileKey(ns, o.body.spec.extended) in s.objects
           && r.uid == s.objects[ProfileKey(ns, o.body.spec.extended)].uid)
  }

  lemma {:induction false} UpsertAddsOne(owners: seq<OwnerRef>, ref: OwnerRef)
    ensures forall r <- Upsert(owners, ref) :: r in owners || r == ref
    ensures Upsert(owners, ref) != []
  {
    if owners != [] && !ReferToSame(owners[0], ref) {
      UpsertAddsOne(owners[1..], ref);
    }
  }

  lemma DoomedPass(s: Store, b: Fallen, name: string, uid: nat, time: string)
    requires Falling(s, b, name, uid) && TailoredProfileKey(b.ns, name) in s.objects
    ensures HalfEffect(s, b.ns, name, time) == s
    ensures var key, t := TailoredProfileKey(b.ns, name), Effect(s, b.ns, name, time);
      t.objects.Keys == s.objects.Keys && OnlyOwnerAdded(s, s.objects[key], t.objects[key], b.ns)
  {
    var key := TailoredProfileKey(b.ns, name);
    DoomedIsNotPublished(s, b, name, uid);
    var spec := s.objects[key].body.spec;
    if !NeedsOutputType(spec) && NeedsOwner(s, b.ns, s.objects[key]) {
      UpsertAddsOne(s.objects[key].owners,
        OwnerOf("Profile", spec.extended, s.objects[ProfileKey(b.ns, spec.extended)].uid, false));
    }
  }

  lemma OwnPassKeepsFalling(s: Store, t: Store, b: Fallen, name: string, uid: nat)
    requires Falling(s, b, name, uid) && Framed(s, t, b.ns, name) && t.objects.Keys == s.objects.Keys
    requires var key := TailoredProfileKey(b.ns, name);
      key in s.objects ==> OnlyOwnerAdded(s, s.objects[key], t.objects[key], b.ns)
    ensures Falling(t, b, name, uid)
  {
    FramedKeepsDead(s, t, b.ns, name, b.uid);
    var key := TailoredProfileKey(b.ns, name);
    if key in s.objects {
      var o, n := s.objects[key], t.objects[key];
      forall r <- n.owners ensures Doomed(s, r.uid, b) {
      }
      assert DoomedTailoredProfile(s, b.ns, n, b);
      FramedKeepsDoomed(s, t, b.ns, name, n, b);
    }
  }

  // --- late writes -----------------------------------------------------------------------------

  lemma LateWriteIsFramed(s: Store, ns: string, name: string, uid: nat, write: LateWrite)
    ensures Framed(s, WriteLate(s, ns, name, uid, write), ns, name)
  {
    FramedReflexive(s, ns, name);
    match write {
      case Amend(version, owner, outputType, status) =>
        var key := TailoredProfileKey(ns, name);
        if key in s.objects {
          var tp := s.objects[key];
          PutIsFramed(s, s, key, if owner.Some? then Upsert(tp.owners, owner.value) else tp.owners,
            TailoredProfileBody(tp.body.spec.(outputType := outputType), status), ns, name);
        }
      case MakeConfigMap(tailoring) => MakingIsFramed(s, ConfigMapOutput(ns, name, uid, tailoring), ns, name);
      case MakePolicy(bundle, tailoring) => MakingIsFramed(s, PolicyOutput(ns, name, bundle, tailoring), ns, name);
    }
  }

  lemma MakingIsFramed(s: Store, out: Output, ns: string, name: string)
    requires out.body.BodyKind() == out.key.kind && out.key in {OutputConfigMap(ns, name), Key(PolicyKind, ns, name)}
    ensures Framed(s, MakeLate(s, out), ns, name)
  {
    FramedReflexive(s, ns, name);
    if out.key !in s.objects {
      PutIsFramed(s, s, out.key, out.owners, out.body, ns, name);
    }
  }

  /** The store has become what a late write makes of it, or the write has not taken effect. */
  ghost predicate IsLateWrite(s: Store, t: Store, ns: string, name: string, uid: nat, write: LateWrite) {
    t == s || t == WriteLate(s, ns, name, uid, write)
  }

  /** The TailoredProfile has been read in `s`, and `w` is later. */
  ghost predicate ReadEarlier(s: Store, w: World, ns: string, name: string, tp: Object) {
    TailoredProfileKey(ns, name) in s.objects && s.objects[TailoredProfileKey(ns, name)] == tp && Later(s, w.store)
  }

  /** Every write that a reconcile makes is one of these, however long ago it has done its reading, and
      whatever others have done since and do right before it. */
  lemma StatusWriteIsLate(s: Store, w: World, ns: string, name: string, tp: Object, status: TailoredProfileStatus)
    requires ReadEarlier(s, w, ns, name, tp)
    ensures var r := UpdateStatus(
                w, TailoredProfileKey(ns, name), tp.version, TailoredProfileBody(tp.body.spec, status));
      IsLateWrite(Begin(w).store, r.0.store, ns, name, tp.uid,
        Amend(tp.version, None, tp.body.spec.outputType, status))
  {
    BeginIsLater(w);
    LaterTransitive(s, w.store, Begin(w).store);
  }

  lemma SpecWriteIsLate(s: Store, w: World, ns: string, name: string, tp: Object, owner: Option<OwnerRef>,
                        outputType: string)
    requires ReadEarlier(s, w, ns, name, tp)
    ensures var owners := if owner.Some? then Upsert(tp.owners, owner.value) else tp.owners;
      var body := TailoredProfileBody(tp.body.spec.(outputType := outputType), tp.body.status);
      IsLateWrite(Begin(w).store, Update(w, TailoredProfileKey(ns, name), tp.version, owners, body).0.store,
        ns, name, tp.uid, Amend(tp.version, owner, outputType, tp.body.status))
  {
    BeginIsLater(w);
    LaterTransitive(s, w.store, Begin(w).store);
  }

  lemma CreationIsLate(w: World, ns: string, name: string, tp: Object, bundle: BundleSpec, tailoring: Tailoring)
    requires tp.body.TailoredProfileBody?
    ensures var out := OutputFor(ns, name, tp, bundle, tailoring);
      IsLateWrite(Begin(w).store, Create(w, out.key, out.owners, out.body).0.store, ns, name, tp.uid,
        if tp.body.spec.outputType == CONFIG_MAP_OUTPUT then MakeConfigMap(tailoring)
        else MakePolicy(bundle, tailoring))
  {
  }

  /** A late write over the TailoredProfile in question comes from a reconcile that has read that very one,
      and a Profile that is doomed by now. */
  ghost predicate ReadBefore(s: Store, turn: Turn, b: Fallen, name: string, uid: nat) {
    turn.Late? && turn.ns == b.ns && turn.name == name ==>
      turn.uid == uid && (turn.write.Amend? && turn.write.owner.Some? ==> Doomed(s, turn.write.owner.value.uid, b))
  }

  /** An owner that an amendment adds is doomed like the others. */
  lemma AmendKeepsFalling(s: Store, b: Fallen, name: string, uid: nat, write: LateWrite)
    requires Falling(s, b, name, uid) && write.Amend?
    requires write.owner.Some? ==> Doomed(s, write.owner.value.uid, b)
    ensures Falling(WriteLate(s, b.ns, name, uid, write), b, name, uid)
  {
    var key, t := TailoredProfileKey(b.ns, name), WriteLate(s, b.ns, name, uid, write);
    LateWriteIsFramed(s, b.ns, name, uid, write);
    FramedKeepsDead(s, t, b.ns, name, b.uid);
    if key in s.objects {
      if write.owner.Some? {
        UpsertAddsOne(s.objects[key].owners, write.owner.value);
      }
      assert DoomedTailoredProfile(s, b.ns, t.objects[key], b);
      FramedKeepsDoomed(s, t, b.ns, name, t.objects[key], b);
    }
  }

  /** A late ConfigMap is controlled by the doomed TailoredProfile, whether that is still there or not. */
  lemma MakingKeepsFalling(s: Store, b: Fallen, name: string, uid: nat, write: LateWrite)
    requires Falling(s, b, name, uid) && !write.Amend?
    ensures Falling(WriteLate(s, b.ns, name, uid, write), b, name, uid)
  {
    var key, t := TailoredProfileKey(b.ns, name), WriteLate(s, b.ns, name, uid, write);
    LateWriteIsFramed(s, b.ns, name, uid, write);
    FramedKeepsDead(s, t, b.ns, name, b.uid);
    assert key in t.objects ==> key in s.objects && t.objects[key] == s.objects[key];
    if key in s.objects {
      FramedKeepsDoomed(s, t, b.ns, name, s.objects[key], b);
    }
  }

  lemma LateWriteKeepsFalling(s: Store, turn: Turn, b: Fallen, name: string, uid: nat)
    requires Falling(s, b, name, uid) && turn.Late? && ReadBefore(s, turn, b, name, uid)
    ensures Falling(Take(s, turn), b, name, uid)
    ensures NothingBack(s, Take(s, turn), b, name, MakesConfigMap(turn, b, name))
  {
    LateWriteIsFramed(s, turn.ns, turn.name, turn.uid, turn.write);
    if turn.ns != b.ns || turn.name != name {
      OtherPassKeepsFalling(s, Take(s, turn), b, name, uid, turn.ns, turn.name);
    } else if turn.write.Amend? {
      AmendKeepsFalling(s, b, name, uid, turn.write);
    } else {
      MakingKeepsFalling(s, b, name, uid, turn.write);
    }
  }

  // --- every run -------------------------------------------------------------------------------

  /** A late write that may bring the ConfigMap in question back. */
  ghost predicate MakesConfigMap(turn: Turn, b: Fallen, name: string) {
    turn.Late? && turn.ns == b.ns && turn.name == name && turn.write.MakeConfigMap?
  }

  ghost predicate NothingBack(s: Store, t: Store, b: Fallen, name: string, late: bool) {
    && (OutputConfigMap(b.ns, name) in t.objects ==> late || OutputConfigMap(b.ns, name) in s.objects)
    && (TailoredProfileKey(b.ns, name) in t.objects ==> TailoredProfileKey(b.ns, name) in s.objects)
  }

  lemma TurnKeepsFalling(s: Store, turn: Turn, b: Fallen, name: string, uid: nat)
    requires Falling(s, b, name, uid) && ReadBefore(s, turn, b, name, uid)
    ensures Falling(Take(s, turn), b, name, uid)
    ensures NothingBack(s, Take(s, turn), b, name, MakesConfigMap(turn, b, name))
  {
    match turn {
      case Collect(k) => CollectKeepsFalling(s, b, name, uid, k);
      case Pass(ns, name', time, faults, after) =>
        var t := Take(s, turn);
        QuietReconcile(Faulty(s, faults, after), ns, name', time);
        EffectIsFramed(s, ns, name', time);
        FramedReflexive(s, ns, name');
        PassKeepsFalling(s, t, b, name, uid, ns, name', time);
      case Late(_, _, _, _) => LateWriteKeepsFalling(s, turn, b, name, uid);
    }
  }

  lemma TurnIsFramed(s: Store, turn: Turn)
    requires !turn.Collect?
    ensures Framed(s, Take(s, turn), turn.ns, turn.name)
  {
    if turn.Pass? {
      QuietReconcile(Faulty(s, turn.faults, turn.after), turn.ns, turn.name, turn.time);
      EffectIsFramed(s, turn.ns, turn.name, turn.time);
      FramedReflexive(s, turn.ns, turn.name);
    } else {
      LateWriteIsFramed(s, turn.ns, turn.name, turn.uid, turn.write);
    }
  }

  lemma TurnKeepsDoom(s: Store, turn: Turn, uid: nat, b: Fallen)
    requires Doomed(s, uid, b)
    ensures Doomed(Take(s, turn), uid, b)
  {
    if !turn.Collect? {
      TurnIsFramed(s, turn);
      FramedKeepsDoom(s, Take(s, turn), turn.ns, turn.name, uid, b);
    }
  }

  /** All late writes come from reconciles that have done their reading before `s`. */
  ghost predicate AllReadBefore(s: Store, turns: seq<Turn>, b: Fallen, name: string, uid: nat) {
    forall turn <- turns :: ReadBefore(s, turn, b, name, uid)
  }

  lemma TurnKeepsReadBefore(s: Store, turns: seq<Turn>, b: Fallen, name: string, uid: nat)
    requires turns != [] && AllReadBefore(s, turns, b, name, uid)
    ensures AllReadBefore(Take(s, turns[0]), turns[1..], b, name, uid)
  {
    forall turn <- turns[1..] ensures ReadBefore(Take(s, turns[0]), turn, b, name, uid) {
      assert turn in turns && ReadBefore(s, turn, b, name, uid);
      if turn.Late? && turn.write.Amend? && turn.write.owner.Some? && Doomed(s, turn.write.owner.value.uid, b) {
        TurnKeepsDoom(s, turns[0], turn.write.owner.value.uid, b);
      }
    }
  }

  lemma PassKeepsFalling(s: Store, t: Store, b: Fallen, name: string, uid: nat, ns: string, name': string, time: string)
    requires Falling(s, b, name, uid) && Framed(s, t, ns, name')
    requires t in {s, HalfEffect(s, ns, name', time), Effect(s, ns, name', time)}
    ensures Falling(t, b, name, uid) && NothingBack(s, t, b, name, false)
  {
    if ns != b.ns || name' != name {
      OtherPassKeepsFalling(s, t, b, name, uid, ns, name');
    } else if t != s && TailoredProfileKey(ns, name) in s.objects {
      DoomedPass(s, b, name, uid, time);
      OwnPassKeepsFalling(s, t, b, name, uid);
    }
  }

  /** In every run of collections, passes and late writes the TailoredProfile stays doomed, and when it is
      gone it stays gone; so does its ConfigMap, but for late creations. */
  lemma {:induction false} RunKeepsFalling(s: Store, turns: seq<Turn>, b: Fallen, name: string, uid: nat)
    requires Falling(s, b, name, uid) && AllReadBefore(s, turns, b, name, uid)
    ensures Falling(TakeAll(s, turns), b, name, uid)
    ensures NothingBack(s, TakeAll(s, turns), b, name, exists turn <- turns :: MakesConfigMap(turn, b, name))
    decreases |turns|
  {
    if turns != [] {
      assert turns[0] in turns && forall turn <- turns[1..] :: turn in turns;
      TurnKeepsFalling(s, turns[0], b, name, uid);
      TurnKeepsReadBefore(s, turns, b, name, uid);
      RunKeepsFalling(Take(s, turns[0]), turns[1..], b, name, uid);
    }
  }

  /** After a bundle has been deleted, whatever collections, passes and late writes follow in whatever order:
      as soon as nothing is left to collect, neither the TailoredProfile nor its ConfigMap is there. */
  lemma NothingIsLeftAfterDeletion(s: Store, turns: seq<Turn>, b: Fallen, name: string, uid: nat)
    requires Falling(s, b, name, uid) && AllReadBefore(s, turns, b, name, uid)
    requires forall k :: !Orphan(TakeAll(s, turns), k)
    ensures TailoredProfileKey(b.ns, name) !in TakeAll(s, turns).objects
    ensures OutputConfigMap(b.ns, name) !in TakeAll(s, turns).objects
  {
    var t := TakeAll(s, turns);
    RunKeepsFalling(s, turns, b, name, uid);
    if TailoredProfileKey(b.ns, name) in t.objects || OutputConfigMap(b.ns, name) in t.objects {
      var k := LeftoversCanBeCollected(t, b, name, uid);
    }
  }

  // --- termination -----------------------------------------------------------------------------

  function OutputAt(tp: Key, kind: Kind): Key {
    if kind == PolicyKind then Key(PolicyKind, tp.namespace, tp.name) else OutputConfigMap(tp.namespace, tp.name)
  }

  /** The TailoredProfile has an output of this kind that stays as long as it does. */
  ghost predicate Provided(s: Store, tp: Key, kind: Kind)
    requires tp in s.objects
  {
    var k := OutputAt(tp, kind);
    k in s.objects && (s.objects[k].owners == [] || OwnedBy(s.objects[k].owners, s.objects[tp].uid))
  }

  /** The outputs that passes may still have to make. */
  ghost function Missing(s: Store): set<(Key, Kind)> {
    set tp <- s.objects, kind <- {ConfigMapKind, PolicyKind} |
      tp.kind == TailoredProfileKind && !Provided(s, tp, kind) :: (tp, kind)
  }

  /** The objects there are, and those that passes may still add. */
  ghost function Potential(s: Store): nat { |s.objects.Keys| + |Missing(s)| }

  /** A collection takes an object away, and no output of a TailoredProfile that is still there ... */
  lemma CollectingLowersPotential(s: Store, k: Key)
    requires Orphan(s, k)
    ensures Potential(Take(s, Collect(k))) < Potential(s)
  {
    var t := Delete(s, k);
    assert s.objects.Keys == t.objects.Keys + {k};
    forall tp, kind | (tp, kind) in Missing(t) ensures (tp, kind) in Missing(s) {
      assert tp in s.objects;
    }
    SubsetIsSmaller(Missing(t), Missing(s));
  }

  lemma {:induction false} SubsetIsSmaller<T>(a: set<T>, b: set<T>)
    requires a <= b
    ensures |a| <= |b|
    decreases a
  {
    if a != {} {
      var x :| x in a;
      SubsetIsSmaller(a - {x}, b - {x});
    }
  }

  /** What a pass adds: nothing, or one output that was missing and is now provided. */
  ghost predicate AddsMissing(s: Store, t: Store, ns: string, name: string) {
    var tp := TailoredProfileKey(ns, name);
    t.objects.Keys == s.objects.Keys
    || exists kind <- {ConfigMapKind, PolicyKind} :: AddsOutput(s, t, tp, kind)
  }

  ghost predicate AddsOutput(s: Store, t: Store, tp: Key, kind: Kind) {
    && tp in s.objects && tp in t.objects && tp.kind == TailoredProfileKind
    && OutputAt(tp, kind) !in s.objects
    && t.objects.Keys == s.objects.Keys + {OutputAt(tp, kind)} && Provided(t, tp, kind)
  }

  /** ... and a pass adds no output but a missing one. */
  lemma AddingKeepsPotential(s: Store, t: Store, ns: string, name: string)
    requires Framed(s, t, ns, name) && AddsMissing(s, t, ns, name)
    ensures Potential(t) <= Potential(s)
  {
    var tp := TailoredProfileKey(ns, name);
    if t.objects.Keys == s.objects.Keys {
      NothingNewIsMissing(s, t, ns, name);
      SubsetIsSmaller(Missing(t), Missing(s));
    } else {
      var kind :| kind in {ConfigMapKind, PolicyKind} && AddsOutput(s, t, tp, kind);
      NothingNewIsMissing(s, t, ns, name);
      assert (tp, kind) in Missing(s) && (tp, kind) !in Missing(t);
      SubsetIsSmaller(Missing(t), Missing(s) - {(tp, kind)});
    }
  }

  lemma NothingNewIsMissing(s: Store, t: Store, ns: string, name: string)
    requires Framed(s, t, ns, name)
    ensures Missing(t) <= Missing(s)
  {
    forall tp, kind | (tp, kind) in Missing(t) ensures (tp, kind) in Missing(s) {
      assert tp in s.objects;
    }
  }

  lemma FullVerdictAddsMissing(s: Store, ns: string, name: string, v: Verdict, time: string)
    requires TailoredProfileKey(ns, name) in s.objects
    requires v.Publish? ==> forall n <- s.objects[TailoredProfileKey(ns, name)].body.spec.Selected() :: n in v.rules
    ensures AddsMissing(s, FullVerdict(s, ns, name, v, time), ns, name)
    ensures HalfVerdict(s, ns, name, v, time).objects.Keys == s.objects.Keys
  {
    var tp := s.objects[TailoredProfileKey(ns, name)];
    if v.Publish? {
      var out := OutputOf(ns, name, tp, v, time);
      OutputIsProvided(ns, name, tp, v, time);
      if out.key !in s.objects {
        var half := HalfVerdict(s, ns, name, v, time);
        PutAddsOutput(s, half, TailoredProfileKey(ns, name), out);
      }
    }
  }

  lemma OutputIsProvided(ns: string, name: string, tp: Object, v: Verdict, time: string)
    requires tp.body.TailoredProfileBody? && v.Publish? && forall n <- tp.body.spec.Selected() :: n in v.rules
    ensures var out := OutputOf(ns, name, tp, v, time);
      && out.key.kind in {ConfigMapKind, PolicyKind}
      && out.key == OutputAt(TailoredProfileKey(ns, name), out.key.kind)
      && (out.owners == [] || OwnedBy(out.owners, tp.uid))
  {
    RefsApart(ns, name, tp.uid);
  }

  lemma PutAddsOutput(s: Store, half: Store, tp: Key, out: Output)
    requires tp in s.objects && tp.kind == TailoredProfileKind && half.objects.Keys == s.objects.Keys
    requires half.objects[tp].uid == s.objects[tp].uid && out.body.BodyKind() == out.key.kind
    requires out.key.kind in {ConfigMapKind, PolicyKind} && out.key == OutputAt(tp, out.key.kind)
    requires out.key !in s.objects && (out.owners == [] || OwnedBy(out.owners, s.objects[tp].uid))
    ensures AddsOutput(s, Put(half, out.key, out.owners, out.body), tp, out.key.kind)
  {
  }

  lemma EffectAddsMissing(s: Store, ns: string, name: string, time: string)
    ensures AddsMissing(s, Effect(s, ns, name, time), ns, name)
    ensures HalfEffect(s, ns, name, time).objects.Keys == s.objects.Keys
  {
    var key := TailoredProfileKey(ns, name);
    if key in s.objects && ReadyForVerdict(s, ns, s.objects[key]) {
      FullVerdictAddsMissing(s, ns, name, VerdictOn(s, ns, s.objects[key].body.spec), time);
    }
  }

  lemma PassKeepsPotential(s: Store, turn: Turn)
    requires turn.Pass?
    ensures Potential(Take(s, turn)) <= Potential(s)
  {
    TurnIsFramed(s, turn);
    QuietReconcile(Faulty(s, turn.faults, turn.after), turn.ns, turn.name, turn.time);
    EffectAddsMissing(s, turn.ns, turn.name, turn.time);
    AddingKeepsPotential(s, Take(s, turn), turn.ns, turn.name);
  }

  function LateKey(turn: Turn): Key
    requires turn.Late?
  {
    match turn.write
    case Amend(_, _, _, _) => TailoredProfileKey(turn.ns, turn.name)
    case MakeConfigMap(_) => OutputConfigMap(turn.ns, turn.name)
    case MakePolicy(_, _) => Key(PolicyKind, turn.ns, turn.name)
  }

  /** A late write may add an output of a TailoredProfile that is no more. */
  lemma LateWriteAddsOne(s: Store, turn: Turn)
    requires turn.Late?
    ensures Potential(Take(s, turn)) <= Potential(s) + 1
  {
    var t := Take(s, turn);
    TurnIsFramed(s, turn);
    NothingNewIsMissing(s, t, turn.ns, turn.name);
    SubsetIsSmaller(Missing(t), Missing(s));
    SubsetIsSmaller(t.objects.Keys, s.objects.Keys + {LateKey(turn)});
  }

  ghost predicate Removes(s: Store, turn: Turn) { turn.Collect? && Orphan(s, turn.key) }

  /** How many turns of a run remove an object. */
  ghost function Removals(s: Store, turns: seq<Turn>): nat
    decreases |turns|
  {
    if turns == [] then 0 else Bit(Removes(s, turns[0])) + Removals(Take(s, turns[0]), turns[1..])
  }

  function LateWrites(turns: seq<Turn>): nat {
    if turns == [] then 0 else Bit(turns[0].Late?) + LateWrites(turns[1..])
  }

  /** The cascade ends: in every run of collections, late writes, and passes over any TailoredProfiles, failing
      in any way, the removals are bounded by what there was, what passes could add, and the late writes. */
  lemma {:induction false} TheCascadeEnds(s: Store, turns: seq<Turn>)
    ensures Removals(s, turns) + Potential(TakeAll(s, turns)) <= Potential(s) + LateWrites(turns)
    decreases |turns|
  {
    if turns != [] {
      TurnKeepsPotential(s, turns[0]);
      TheCascadeEnds(Take(s, turns[0]), turns[1..]);
    }
  }

  lemma TurnKeepsPotential(s: Store, turn: Turn)
    ensures Bit(Removes(s, turn)) + Potential(Take(s, turn)) <= Potential(s) + Bit(turn.Late?)
  {
    match turn {
      case Collect(k) => if Orphan(s, k) { CollectingLowersPotential(s, k); }
      case Pass(_, _, _, _, _) => PassKeepsPotential(s, turn);
      case Late(_, _, _, _) => LateWriteAddsOne(s, turn);
    }
  }

  /** The collector never comes up empty-handed while there is something to collect. */
  ghost predicate Diligent(s: Store, turns: seq<Turn>)
    decreases |turns|
  {
    turns != [] ==>
      && (turns[0].Collect? ==> Orphan(s, turns[0].key) || forall k :: !Orphan(s, k))
      && Diligent(Take(s, turns[0]), turns[1..])
  }

  function Collections(turns: seq<Turn>): nat {
    if turns == [] then 0 else Bit(turns[0].Collect?) + Collections(turns[1..])
  }

  /** So once a diligent collector has had enough turns, in whatever order they come with passes over
      whatever TailoredProfiles, the doomed TailoredProfile and its ConfigMap are gone, and they stay so. */
  lemma {:induction false} EverythingIsGoneInTheEnd(s: Store, turns: seq<Turn>, b: Fallen, name: string, uid: nat)
    requires Falling(s, b, name, uid) && Diligent(s, turns) && AllReadBefore(s, turns, b, name, uid)
    requires forall turn <- turns :: !MakesConfigMap(turn, b, name)
    requires Collections(turns) > Potential(s) + LateWrites(turns)
    ensures TailoredProfileKey(b.ns, name) !in TakeAll(s, turns).objects
    ensures OutputConfigMap(b.ns, name) !in TakeAll(s, turns).objects
    decreases |turns|
  {
    if forall k :: !Orphan(s, k) {
      NothingIsLeftAfterDeletion(s, [], b, name, uid);
      RunKeepsFalling(s, turns, b, name, uid);
    } else {
      assert turns[0] in turns;
      TurnKeepsPotential(s, turns[0]);
      TurnKeepsFalling(s, turns[0], b, name, uid);
      TurnKeepsReadBefore(s, turns, b, name, uid);
      EverythingIsGoneInTheEnd(Take(s, turns[0]), turns[1..], b, name, uid);
    }
  }

  /** Reconciles that straddle the deletion, however many there are, only put it off: once the last of them
      has made its ConfigMap, if it does, that many collections are enough again. */
  lemma EverythingIsGoneAfterStragglers(s: Store, turns: seq<Turn>, more: seq<Turn>, b: Fallen, name: string, uid: nat)
    requires Falling(s, b, name, uid) && AllReadBefore(s, turns, b, name, uid)
    requires var t := TakeAll(s, turns);
      && Diligent(t, more) && AllReadBefore(t, more, b, name, uid)
      && forall turn <- more :: !MakesConfigMap(turn, b, name)
    requires Collections(more) > Potential(s) + LateWrites(turns) + LateWrites(more)
    ensures TailoredProfileKey(b.ns, name) !in TakeAll(TakeAll(s, turns), more).objects
    ensures OutputConfigMap(b.ns, name) !in TakeAll(TakeAll(s, turns), more).objects
  {
    RunKeepsFalling(s, turns, b, name, uid);
    TheCascadeEnds(s, turns);
    EverythingIsGoneInTheEnd(TakeAll(s, turns), more, b, name, uid);
  }

  lemma CollectingShrinks(s: Store, k: Key)
    requires Orphan(s, k)
    ensures |Take(s, Collect(k)).objects| == |s.objects| - 1
  {
    assert s.objects.Keys == Delete(s, k).objects.Keys + {k};
    SizeIsNumberOfKeys(s.objects);
    SizeIsNumberOfKeys(Delete(s, k).objects);
  }

  lemma SizeIsNumberOfKeys(m: map<Key, Object>)
    ensures |m| == |m.Keys|
  {
  }

  /** From every store collections alone reach a store in which nothing is left to collect. */
  lemma {:induction false} CollectionEnds(s: Store) returns (turns: seq<Turn>)
    ensures |turns| <= |s.objects| && forall turn <- turns :: turn.Collect?
    ensures forall k :: !Orphan(TakeAll(s, turns), k)
    decreases |s.objects|
  {
    if k :| Orphan(s, k) {
      CollectingShrinks(s, k);
      var rest := CollectionEnds(Take(s, Collect(k)));
      turns := [Collect(k)] + rest;
      assert turns[1..] == rest;
    } else {
      turns := [];
    }
  }

  // --- outputs without owner -------------------------------------------------------------------

  /** An object without owners that is no TailoredProfile is never collected, and no pass changes it. */
  lemma {:induction false} OwnerlessObjectsStay(s: Store, turns: seq<Turn>, k: Key)
    requires k in s.objects && s.objects[k].owners == [] && k.kind != TailoredProfileKind
    ensures k in TakeAll(s, turns).objects && TakeAll(s, turns).objects[k] == s.objects[k]
    decreases |turns|
  {
    if turns != [] {
      OwnerlessObjectStays(s, turns[0], k);
      OwnerlessObjectsStay(Take(s, turns[0]), turns[1..], k);
    }
  }

  lemma OwnerlessObjectStays(s: Store, turn: Turn, k: Key)
    requires k in s.objects && s.objects[k].owners == [] && k.kind != TailoredProfileKind
    ensures k in Take(s, turn).objects && Take(s, turn).objects[k] == s.objects[k]
  {
    if !turn.Collect? {
      TurnIsFramed(s, turn);
    }
  }

  /** What a TailoredProfile is before it is published. */
  ghost predicate Stored(s: Store, ns: string, name: string, uid: nat, outputType: string) {
    var key := TailoredProfileKey(ns, name);
    key in s.objects && s.objects[key].uid == uid && s.objects[key].body.spec.outputType == outputType
  }

  /** A published output outlives its bundle exactly when it is a Policy: publish, delete the bundle, and
      let collections, passes and late writes follow until nothing is left to collect. */
  lemma OutputOutlivesTheBundleExactlyForPolicies(w: World, s: Store, b: Fallen, name: string, time: string,
                                                  turns: seq<Turn>, uid: nat, outputType: string)
    requires Publishes(w, b.ns, name, time) && s == Reconcile(w, b.ns, name, time).0.store
    requires Stored(w.store, b.ns, name, uid, outputType) && AllFrom(s, b, name)
    requires var t := Delete(s, BundleKey(b.ns, b.name));
      AllReadBefore(t, turns, b, name, uid) && forall k :: !Orphan(TakeAll(t, turns), k)
    ensures OutputKey(b.ns, name, outputType) in TakeAll(Delete(s, BundleKey(b.ns, b.name)), turns).objects <==>
      outputType == POLICY_OUTPUT
  {
    PassPublishes(w, b.ns, name, time);
    PublishableHasKnownOutput(w.store, b.ns, name);
    DeletionStartsTheFall(s, b, name);
    OutputAfterDeletion(w.store, s, b, name, turns, uid, outputType);
  }

  lemma OutputAfterDeletion(s0: Store, s: Store, b: Fallen, name: string, turns: seq<Turn>, uid: nat,
                            outputType: string)
    requires Stored(s0, b.ns, name, uid, outputType) && PublishedAs(s0, s, b.ns, name) && KnownOutput(outputType)
    requires var t := Delete(s, BundleKey(b.ns, b.name));
      Falling(t, b, name, uid) && AllReadBefore(t, turns, b, name, uid) && forall k :: !Orphan(TakeAll(t, turns), k)
    ensures OutputKey(b.ns, name, outputType) in TakeAll(Delete(s, BundleKey(b.ns, b.name)), turns).objects <==>
      outputType == POLICY_OUTPUT
  {
    var t := Delete(s, BundleKey(b.ns, b.name));
    if outputType == POLICY_OUTPUT {
      RefsApart(b.ns, name, 0);
      OwnerlessObjectsStay(t, turns, OutputKey(b.ns, name, outputType));
    } else {
      NothingIsLeftAfterDeletion(t, turns, b, name, uid);
    }
  }
}
