/** The API server as the operator sees it: a versioned store of objects, and a script that says,
    for every future API call, what everybody else writes first and whether the call fails.
    A statement about every script is a statement about every interleaving of the operator's
    API calls with other writers, and about every pattern of transient failures. */
module ApiStore {
  import opened ApiTypes

  // --- the store ---------------------------------------------------------------------------

  datatype Object = Object(uid: nat, version: nat, owners: seq<OwnerRef>, body: Body)

  datatype StoreData = StoreData(objects: map<Key, Object>, nextUid: nat, nextVersion: nat)

  /** Keys and bodies agree, and versions and uids are below the counters. */
  ghost predicate WellFormed(s: StoreData) {
    && (forall k <- s.objects :: s.objects[k].body.BodyKind() == k.kind)
    && (forall k <- s.objects :: s.objects[k].version < s.nextVersion && s.objects[k].uid < s.nextUid)
  }

  type Store = s: StoreData | WellFormed(s) witness StoreData(map[], 0, 0)

  /** Writes an object under a key. A write that changes nothing keeps the version. */
  function Put(s: Store, key: Key, owners: seq<OwnerRef>, body: Body): (r: Store)
    requires body.BodyKind() == key.kind
    ensures r.objects.Keys == s.objects.Keys + {key}
    ensures r.objects[key].owners == owners && r.objects[key].body == body
    ensures forall k <- s.objects :: k != key ==> r.objects[k] == s.objects[k]
  {
    if key in s.objects then
      var prior := s.objects[key];
      if prior.owners == owners && prior.body == body then s
      else StoreData(s.objects[key := Object(prior.uid, s.nextVersion, owners, body)], s.nextUid, s.nextVersion + 1)
    else
      StoreData(s.objects[key := Object(s.nextUid, s.nextVersion, owners, body)], s.nextUid + 1, s.nextVersion + 1)
  }

  function Delete(s: Store, key: Key): (r: Store)
    ensures r.objects.Keys == s.objects.Keys - {key}
    ensures forall k <- r.objects :: r.objects[k] == s.objects[k]
  {
    StoreData(s.objects - {key}, s.nextUid, s.nextVersion)
  }

  /** `t` can be reached from `s` by writes: a version of `s` still stored in `t` belongs to the
      very object it belonged to in `s`, and uids are never reused. */
  ghost predicate Later(s: Store, t: Store) {
    && s.nextVersion <= t.nextVersion && s.nextUid <= t.nextUid
    && (forall k <- t.objects :: t.objects[k].version < s.nextVersion ==>
          k in s.objects && s.objects[k] == t.objects[k])
    && (forall k <- t.objects :: t.objects[k].uid < s.nextUid ==>
          k in s.objects && s.objects[k].uid == t.objects[k].uid)
  }

  /** The objects under these keys are there, and all others are as they were. */
  ghost predicate OnlyChanges(s: Store, t: Store, keys: set<Key>) {
    && t.objects.Keys == s.objects.Keys + keys
    && forall k <- s.objects :: k !in keys ==> t.objects[k] == s.objects[k]
  }

  // --- the script --------------------------------------------------------------------------

  /** How an API call fails, if it does: before it takes effect, or after. */
  datatype Fault = Healthy | Refused | ReplyLost

  /** A write by anybody but the process under study. */
  datatype Edit = Write(key: Key, owners: seq<OwnerRef>, body: Body) | Remove(key: Key)

  datatype Event = Event(edits: seq<Edit>, fault: Fault)

  /** What the process under study has seen and done. */
  datatype Access = Read(key: Key, seen: Object) | Wrote(key: Key, written: Object) | Made(key: Key, made: Object)

  /** `after` is the fault of every call once the script is used up: `Refused` there is a process
      that is stopped for good at that point. */
  datatype World = World(store: Store, script: seq<Event>, after: Fault, log: seq<Access>)

  /** Other writers are subject to the same typing rules as everyone: an ill-typed write is dropped. */
  function ApplyEdit(s: Store, e: Edit): Store {
    match e
    case Write(key, owners, body) => if body.BodyKind() == key.kind then Put(s, key, owners, body) else s
    case Remove(key) => Delete(s, key)
  }

  function ApplyEdits(s: Store, edits: seq<Edit>): Store
    decreases |edits|
  {
    if edits == [] then s else ApplyEdits(ApplyEdit(s, edits[0]), edits[1..])
  }

  /** The start of an API call: other writers go first. */
  function Begin(w: World): World {
    if w.script == [] then w
    else w.(store := ApplyEdits(w.store, w.script[0].edits), script := w.script[1..])
  }

  function NextFault(w: World): Fault {
    if w.script == [] then w.after else w.script[0].fault
  }

  /** Nobody else writes; calls may still fail in any way. */
  ghost predicate Quiet(w: World) { forall e <- w.script :: e.edits == [] }

  /** Nobody else writes and no call fails. */
  ghost predicate Calm(w: World) { w.script == [] && w.after == Healthy }

  // --- API calls ---------------------------------------------------------------------------

  datatype ApiError = NotFound | Conflict | AlreadyExists | Transient

  datatype Reply<+T> = Ok(value: T) | Err(error: ApiError)

  /** How a reconcile ends: `Requeue` is an error, after which it is retried right away. */
  datatype Outcome = Done | Requeue

  function OutcomeOf(r: Reply<Object>): Outcome { if r.Ok? then Done else Requeue }

  function Get(w: World, key: Key): (r: (World, Reply<Object>))
    ensures r.1.Ok? ==> r.1.value.body.BodyKind() == key.kind
  {
    var b := Begin(w);
    if NextFault(w) != Healthy then (b, Err(Transient))
    else if key !in b.store.objects then (b, Err(NotFound))
    else (b.(log := b.log + [Read(key, b.store.objects[key])]), Ok(b.store.objects[key]))
  }

  /** The reply to a call that took effect. */
  function Answer(fault: Fault, made: Object): Reply<Object> {
    if fault == Healthy then Ok(made) else Err(Transient)
  }

  function Create(w: World, key: Key, owners: seq<OwnerRef>, body: Body): (World, Reply<Object>)
    requires body.BodyKind() == key.kind
  {
    var b := Begin(w);
    if NextFault(w) == Refused then (b, Err(Transient))
    else if key in b.store.objects then (b, if NextFault(w) == Healthy then Err(AlreadyExists) else Err(Transient))
    else
      var s := Put(b.store, key, owners, body);
      (b.(store := s, log := b.log + [Made(key, s.objects[key])]), Answer(NextFault(w), s.objects[key]))
  }

  /** The object that a write through the main endpoint leaves: status comes from the stored object. */
  function KeepStatus(stored: Body, sent: Body): (r: Body)
    requires stored.BodyKind() == sent.BodyKind()
    ensures r.BodyKind() == sent.BodyKind()
  {
    match sent
    case TailoredProfileBody(spec, _) => TailoredProfileBody(spec, stored.status)
    case ProfileBundleBody(spec, _) => ProfileBundleBody(spec, stored.bundleStatus)
    case _ => sent
  }

  /** The object that a write through the status endpoint leaves: only status comes from the caller. */
  function TakeStatus(stored: Body, sent: Body): (r: Body)
    requires stored.BodyKind() == sent.BodyKind()
    ensures r.BodyKind() == sent.BodyKind()
  {
    match sent
    case TailoredProfileBody(_, status) => TailoredProfileBody(stored.spec, status)
    case ProfileBundleBody(_, status) => ProfileBundleBody(stored.bundleSpec, status)
    case _ => stored
  }

  /** A write that is refused unless the caller's version is the stored one. */
  function Update(w: World, key: Key, version: nat, owners: seq<OwnerRef>, body: Body): (World, Reply<Object>)
    requires body.BodyKind() == key.kind
  {
    var b := Begin(w);
    if NextFault(w) == Refused then (b, Err(Transient))
    else if key !in b.store.objects then (b, if NextFault(w) == Healthy then Err(NotFound) else Err(Transient))
    else if b.store.objects[key].version != version then
      (b, if NextFault(w) == Healthy then Err(Conflict) else Err(Transient))
    else
      var s := Put(b.store, key, owners, KeepStatus(b.store.objects[key].body, body));
      (b.(store := s, log := b.log + [Wrote(key, s.objects[key])]), Answer(NextFault(w), s.objects[key]))
  }

  function UpdateStatus(w: World, key: Key, version: nat, body: Body): (World, Reply<Object>)
    requires body.BodyKind() == key.kind
  {
    var b := Begin(w);
    if NextFault(w) == Refused then (b, Err(Transient))
    else if key !in b.store.objects then (b, if NextFault(w) == Healthy then Err(NotFound) else Err(Transient))
    else if b.store.objects[key].version != version then
      (b, if NextFault(w) == Healthy then Err(Conflict) else Err(Transient))
    else
      var stored := b.store.objects[key];
      var s := Put(b.store, key, stored.owners, TakeStatus(stored.body, body));
      (b.(store := s, log := b.log + [Wrote(key, s.objects[key])]), Answer(NextFault(w), s.objects[key]))
  }

  // --- what holds across calls -------------------------------------------------------------

  lemma LaterTransitive(s: Store, t: Store, u: Store)
    requires Later(s, t) && Later(t, u)
    ensures Later(s, u)
  {
  }

  lemma {:induction false} EditsAreLater(s: Store, edits: seq<Edit>)
    ensures Later(s, ApplyEdits(s, edits))
    decreases |edits|
  {
    if edits != [] {
      var t := ApplyEdit(s, edits[0]);
      EditsAreLater(t, edits[1..]);
      LaterTransitive(s, t, ApplyEdits(s, edits));
    }
  }

  lemma BeginIsLater(w: World)
    ensures Later(w.store, Begin(w).store)
  {
    if w.script != [] {
      EditsAreLater(w.store, w.script[0].edits);
    }
  }

  lemma QuietCall(w: World)
    requires Quiet(w)
    ensures Begin(w).store == w.store && Quiet(Begin(w))
    ensures Calm(w) ==> Begin(w) == w && NextFault(w) == Healthy
  {
    if w.script != [] {
      assert w.script[0] in w.script;
      assert forall e <- w.script[1..] :: e in w.script;
    }
  }

  // --- uids ------------------------------------------------------------------------------------

  ghost predicate UniqueUids(s: Store) {
    forall j, k :: j in s.objects && k in s.objects && s.objects[j].uid == s.objects[k].uid ==> j == k
  }

  lemma PutKeepsUids(s: Store, key: Key, owners: seq<OwnerRef>, body: Body)
    requires UniqueUids(s) && body.BodyKind() == key.kind
    ensures UniqueUids(Put(s, key, owners, body))
  {
    var t := Put(s, key, owners, body);
    forall j, k | j in t.objects && k in t.objects && t.objects[j].uid == t.objects[k].uid ensures j == k {
      assert j in s.objects || j == key;
      assert k in s.objects || k == key;
    }
  }

  lemma {:induction false} EditsKeepUids(s: Store, edits: seq<Edit>)
    requires UniqueUids(s)
    ensures UniqueUids(ApplyEdits(s, edits))
    decreases |edits|
  {
    if edits != [] {
      EditKeepsUids(s, edits[0]);
      EditsKeepUids(ApplyEdit(s, edits[0]), edits[1..]);
    }
  }

  lemma EditKeepsUids(s: Store, e: Edit)
    requires UniqueUids(s)
    ensures UniqueUids(ApplyEdit(s, e))
  {
    match e {
      case Write(key, owners, body) => if body.BodyKind() == key.kind { PutKeepsUids(s, key, owners, body); }
      case Remove(_) =>
    }
  }

  lemma BeginKeepsUids(w: World)
    requires UniqueUids(w.store)
    ensures UniqueUids(Begin(w).store)
  {
    if w.script != [] {
      EditsKeepUids(w.store, w.script[0].edits);
    }
  }

  lemma CreateKeepsUids(w: World, key: Key, owners: seq<OwnerRef>, body: Body)
    requires UniqueUids(w.store) && body.BodyKind() == key.kind
    ensures UniqueUids(Create(w, key, owners, body).0.store)
  {
    BeginKeepsUids(w);
    PutKeepsUids(Begin(w).store, key, owners, body);
  }

  lemma UpdateKeepsUids(w: World, key: Key, version: nat, owners: seq<OwnerRef>, body: Body)
    requires UniqueUids(w.store) && body.BodyKind() == key.kind
    ensures UniqueUids(Update(w, key, version, owners, body).0.store)
  {
    BeginKeepsUids(w);
    var b := Begin(w).store;
    if key in b.objects {
      PutKeepsUids(b, key, owners, KeepStatus(b.objects[key].body, body));
    }
  }

  lemma UpdateStatusKeepsUids(w: World, key: Key, version: nat, body: Body)
    requires UniqueUids(w.store) && body.BodyKind() == key.kind
    ensures UniqueUids(UpdateStatus(w, key, version, body).0.store)
  {
    BeginKeepsUids(w);
    var b := Begin(w).store;
    if key in b.objects {
      PutKeepsUids(b, key, b.objects[key].owners, TakeStatus(b.objects[key].body, body));
    }
  }
}
