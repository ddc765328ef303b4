/** Imports are restart-safe: any number of runs stopped anywhere, then a complete one, store what one
    complete run stores, and every new name holds the first object of the document with that name. */
module ImportRestart {
  import opened ApiTypes
  import opened ApiStore
  import opened Import

  /** The objects the steps ask for, up to the first step that stops the import. */
  function Plan(steps: seq<Step>): seq<Item> {
    if steps == [] then []
    else
      match steps[0]
      case Stop(_) => []
      case Skip => Plan(steps[1..])
      case Make(item, _) => [item] + Plan(steps[1..])
  }

  /** The error the steps end with when no creation fails. */
  function StopError(steps: seq<Step>): Option<string> {
    if steps == [] then None else if steps[0].Stop? then Some(steps[0].error) else StopError(steps[1..])
  }

  // --- creating a prefix of a plan ---------------------------------------------------------

  function Add(s: Store, i: Item): Store {
    if i.key in s.objects then s else Put(s, i.key, i.owners, i.body)
  }

  function AddFirst(s: Store, plan: seq<Item>, n: nat): Store
    requires n <= |plan|
    decreases n
  {
    if n == 0 then s else AddFirst(Add(s, plan[0]), plan[1..], n - 1)
  }

  lemma AddKeeps(s: Store, i: Item)
    ensures var t := Add(s, i);
      && t.objects.Keys == s.objects.Keys + {i.key}
      && (forall k <- s.objects :: t.objects[k] == s.objects[k])
      && (i.key !in s.objects ==> Holds(t.objects[i.key], i))
  {
  }

  /** Nobody else writes, and nothing is refused before the process stops for good. */
  ghost predicate StopsAnywhere(w: World) { forall e <- w.script :: e.edits == [] && e.fault != Refused }

  ghost predicate Stopped(w: World) { w.script == [] && w.after == Refused }

  lemma CallInStoppingRun(w: World)
    requires StopsAnywhere(w)
    ensures Begin(w).store == w.store && StopsAnywhere(Begin(w))
    ensures NextFault(w) == Refused ==> Stopped(w)
  {
    if w.script != [] {
      assert w.script[0] in w.script;
      assert forall e <- w.script[1..] :: e in w.script;
    }
  }

  lemma CreateInStoppingRun(w: World, i: Item)
    requires StopsAnywhere(w)
    ensures var r := CreateUnlessPresent(w, i);
      && StopsAnywhere(r.0)
      && (if Stopped(w) then r.0 == w && !r.1 else r.0.store == Add(w.store, i))
      && (Calm(w) ==> Calm(r.0) && r.1)
  {
    CallInStoppingRun(w);
  }

  /** The steps have been taken up to the creation of the first `n` objects of their plan. */
  ghost predicate RanFirst(w: World, steps: seq<Step>, n: nat) {
    var r := RunSteps(w, steps);
    && StopsAnywhere(r.0)
    && n <= |Plan(steps)| && r.0.store == AddFirst(w.store, Plan(steps), n)
    && (Stopped(w) ==> n == 0)
    && (Calm(w) ==> n == |Plan(steps)| && Calm(r.0) && r.1 == StopError(steps))
  }

  /** However a run stops, it has created a prefix of its plan; a complete one has created all of it. */
  lemma {:induction false} StepsInStoppingRun(w: World, steps: seq<Step>) returns (n: nat)
    requires StopsAnywhere(w)
    ensures RanFirst(w, steps, n)
    decreases |steps|
  {
    n := 0;
    if steps != [] {
      match steps[0] {
        case Stop(_) =>
        case Skip => n := StepsInStoppingRun(w, steps[1..]);
        case Make(item, required) =>
          CreateInStoppingRun(w, item);
          var r := CreateUnlessPresent(w, item);
          var m := 0;
          if r.1 || !required {
            m := StepsInStoppingRun(r.0, steps[1..]);
          }
          n := if Stopped(w) then 0 else m + 1;
          OneMoreCreated(w, steps, m);
      }
    }
  }

  lemma OneMoreCreated(w: World, steps: seq<Step>, m: nat)
    requires StopsAnywhere(w) && steps != [] && steps[0].Make?
    requires var r := CreateUnlessPresent(w, steps[0].item);
      if r.1 || !steps[0].required then RanFirst(r.0, steps[1..], m) else m == 0
    ensures RanFirst(w, steps, if Stopped(w) then 0 else m + 1)
  {
    CreateInStoppingRun(w, steps[0].item);
    assert Plan(steps)[1..] == Plan(steps[1..]);
  }

  // --- what has been reached from a store --------------------------------------------------

  ghost predicate IsFirst(plan: seq<Item>, j: nat) {
    j < |plan| && forall i :: 0 <= i < j ==> plan[i].key != plan[j].key
  }

  ghost predicate Holds(o: Object, i: Item) { o.owners == i.owners && o.body == i.body }

  /** Object `o` under key `k` is the first one the plan has for that key. */
  ghost predicate FirstOfPlan(plan: seq<Item>, k: Key, o: Object) {
    exists j :: 0 <= j < |plan| && IsFirst(plan, j) && plan[j].key == k && Holds(o, plan[j])
  }

  /** The bundle is still the same object, whatever its status. */
  ghost predicate SameBundle(s0: Store, s: Store, bundle: Key) {
    && bundle in s0.objects && bundle in s.objects
    && s.objects[bundle].uid == s0.objects[bundle].uid && s.objects[bundle].owners == s0.objects[bundle].owners
    && KeepStatus(s.objects[bundle].body, s0.objects[bundle].body) == s.objects[bundle].body
  }

  /** `s` is `s0` with some names of the plan added, each holding the first object of that name. */
  ghost predicate Reached(s0: Store, s: Store, bundle: Key, plan: seq<Item>) {
    && SameBundle(s0, s, bundle)
    && (forall k <- s0.objects :: k != bundle ==> k in s.objects && s.objects[k] == s0.objects[k])
    && (forall k <- s.objects {:trigger FirstOfPlan(plan, k, s.objects[k])} ::
          k in s0.objects || FirstOfPlan(plan, k, s.objects[k]))
  }

  /** Reached, with the first `n` names of the plan in place. */
  ghost predicate ReachedFirst(s0: Store, s: Store, bundle: Key, plan: seq<Item>, n: nat) {
    && n <= |plan|
    && Reached(s0, s, bundle, plan)
    && forall i :: 0 <= i < n ==> plan[i].key in s.objects
  }

  lemma AddingOneKeepsReached(s0: Store, t: Store, bundle: Key, plan: seq<Item>, j: nat)
    requires j < |plan| && ReachedFirst(s0, t, bundle, plan, j)
    ensures ReachedFirst(s0, Add(t, plan[j]), bundle, plan, j + 1)
  {
    AddKeeps(t, plan[j]);
    if plan[j].key !in t.objects {
      assert IsFirst(plan, j);
      assert FirstOfPlan(plan, plan[j].key, Add(t, plan[j]).objects[plan[j].key]);
    }
  }

  lemma {:induction false} AddingKeepsReached(s0: Store, s: Store, bundle: Key, plan: seq<Item>, j: nat, n: nat)
    returns (r: Store)
    requires j + n <= |plan| && ReachedFirst(s0, s, bundle, plan, j)
    ensures r == AddFirst(s, plan[j..], n)
    ensures ReachedFirst(s0, r, bundle, plan, j + n)
    decreases n
  {
    if n == 0 {
      r := s;
    } else {
      AddingOneKeepsReached(s0, s, bundle, plan, j);
      r := AddingKeepsReached(s0, Add(s, plan[j]), bundle, plan, j + 1, n - 1);
      assert plan[j..][1..] == plan[j + 1..];
    }
  }

  // --- whole runs --------------------------------------------------------------------------

  function StepsOf(c: Config, uid: nat, content: Content): seq<Step> {
    if content.Parsed? then Steps(c, uid, content.document) else []
  }

  lemma VerdictKeepsReached(s0: Store, w: World, c: Config, pb: Object, error: Option<string>, plan: seq<Item>)
    requires StopsAnywhere(w) && Reached(s0, w.store, BundleKey(c.ns, c.bundle), plan) && pb.body.ProfileBundleBody?
    requires BundleKey(c.ns, c.bundle) in w.store.objects
    ensures Reached(s0, StoreVerdict(w, c, pb, error).0.store, BundleKey(c.ns, c.bundle), plan)
  {
    CallInStoppingRun(w);
  }

  /** Stopped anywhere, a run adds names of the plan only, each with its first object; a complete run
      adds all of them. */
  lemma ImportKeepsReached(s0: Store, w: World, c: Config, content: Content, plan: seq<Item>)
    requires StopsAnywhere(w) && Reached(s0, w.store, BundleKey(c.ns, c.bundle), plan)
    requires plan == Plan(StepsOf(c, s0.objects[BundleKey(c.ns, c.bundle)].uid, content))
    ensures var t := ImportContent(w, c, content).0.store;
      && Reached(s0, t, BundleKey(c.ns, c.bundle), plan)
      && (Calm(w) ==> forall i <- plan :: i.key in t.objects)
  {
    var bundle := BundleKey(c.ns, c.bundle);
    CallInStoppingRun(w);
    var got := Get(w, bundle);
    if got.1.Ok? {
      IntoKeepsReached(s0, got.0, c, got.1.value, content, plan);
    }
  }

  /** The same, once the bundle has been read. */
  lemma IntoKeepsReached(s0: Store, w: World, c: Config, pb: Object, content: Content, plan: seq<Item>)
    requires StopsAnywhere(w) && Reached(s0, w.store, BundleKey(c.ns, c.bundle), plan) && pb.body.ProfileBundleBody?
    requires plan == Plan(StepsOf(c, pb.uid, content))
    ensures var t := ImportInto(w, c, pb, content).0.store;
      && Reached(s0, t, BundleKey(c.ns, c.bundle), plan)
      && (Calm(w) ==> forall i <- plan :: i.key in t.objects)
  {
    match content {
      case Unreadable(e) =>
        VerdictKeepsReached(s0, w, c, pb, Some("Couldn't read content file: " + e), plan);
      case Malformed(e) =>
        VerdictKeepsReached(s0, w, c, pb, Some("Couldn't read content XML: " + e), plan);
      case Parsed(d) =>
        StepsKeepReached(s0, w, BundleKey(c.ns, c.bundle), Steps(c, pb.uid, d));
        var done := RunSteps(w, Steps(c, pb.uid, d));
        VerdictKeepsReached(s0, done.0, c, pb, done.1, plan);
        VerdictKeepsKeys(done.0, c, pb, done.1);
    }
  }

  lemma StepsKeepReached(s0: Store, w: World, bundle: Key, steps: seq<Step>)
    requires StopsAnywhere(w) && Reached(s0, w.store, bundle, Plan(steps))
    ensures var t := RunSteps(w, steps).0;
      && StopsAnywhere(t) && Reached(s0, t.store, bundle, Plan(steps))
      && (Calm(w) ==> Calm(t) && forall i <- Plan(steps) :: i.key in t.store.objects)
  {
    var plan := Plan(steps);
    var n := StepsInStoppingRun(w, steps);
    assert plan[0..] == plan;
    var t := AddingKeepsReached(s0, w.store, bundle, plan, 0, n);
  }

  lemma VerdictKeepsKeys(w: World, c: Config, pb: Object, error: Option<string>)
    requires StopsAnywhere(w) && pb.body.ProfileBundleBody?
    ensures w.store.objects.Keys <= StoreVerdict(w, c, pb, error).0.store.objects.Keys
  {
    CallInStoppingRun(w);
  }

  /** One run of the parser: what happens to its calls, and how it ends. */
  datatype Attempt = Attempt(script: seq<Event>, after: Fault)

  function WorldOf(s: Store, a: Attempt): World { World(s, a.script, a.after, []) }

  const UNINTERRUPTED := Attempt([], Healthy)

  function Attempts(s: Store, c: Config, content: Content, attempts: seq<Attempt>): Store
    decreases |attempts|
  {
    if attempts == [] then s
    else Attempts(ImportContent(WorldOf(s, attempts[0]), c, content).0.store, c, content, attempts[1..])
  }

  lemma {:induction false} AttemptsKeepReached(s0: Store, s: Store, c: Config, content: Content,
                                               attempts: seq<Attempt>, plan: seq<Item>)
    requires forall a <- attempts :: StopsAnywhere(WorldOf(s, a))
    requires Reached(s0, s, BundleKey(c.ns, c.bundle), plan)
    requires plan == Plan(StepsOf(c, s0.objects[BundleKey(c.ns, c.bundle)].uid, content))
    ensures Reached(s0, Attempts(s, c, content, attempts), BundleKey(c.ns, c.bundle), plan)
    decreases |attempts|
  {
    if attempts != [] {
      assert attempts[0] in attempts;
      ImportKeepsReached(s0, WorldOf(s, attempts[0]), c, content, plan);
      var t := ImportContent(WorldOf(s, attempts[0]), c, content).0.store;
      forall a <- attempts[1..] ensures StopsAnywhere(WorldOf(t, a)) {
        assert StopsAnywhere(WorldOf(s, a));
      }
      AttemptsKeepReached(s0, t, c, content, attempts[1..], plan);
    }
  }

  /** Two stores hold the same objects, up to uids and versions, apart from the bundle's status. */
  ghost predicate SameObjects(s: Store, t: Store, bundle: Key) {
    && s.objects.Keys == t.objects.Keys
    && (forall k <- s.objects :: k != bundle ==>
          s.objects[k].owners == t.objects[k].owners && s.objects[k].body == t.objects[k].body)
  }

  lemma ReachedAllIsUnique(s0: Store, s: Store, t: Store, bundle: Key, plan: seq<Item>)
    requires Reached(s0, s, bundle, plan) && forall i <- plan :: i.key in s.objects
    requires Reached(s0, t, bundle, plan) && forall i <- plan :: i.key in t.objects
    ensures SameObjects(s, t, bundle)
  {
    ReachedKeys(s0, s, t, bundle, plan);
    ReachedKeys(s0, t, s, bundle, plan);
    forall k <- s.objects | k != bundle
      ensures s.objects[k].owners == t.objects[k].owners && s.objects[k].body == t.objects[k].body
    {
      if k !in s0.objects {
        assert FirstOfPlan(plan, k, s.objects[k]) && FirstOfPlan(plan, k, t.objects[k]);
        var i :| 0 <= i < |plan| && IsFirst(plan, i) && plan[i].key == k && Holds(s.objects[k], plan[i]);
        var j :| 0 <= j < |plan| && IsFirst(plan, j) && plan[j].key == k && Holds(t.objects[k], plan[j]);
        assert i == j;
      }
    }
  }

  lemma ReachedKeys(s0: Store, s: Store, t: Store, bundle: Key, plan: seq<Item>)
    requires Reached(s0, s, bundle, plan)
    requires Reached(s0, t, bundle, plan) && forall i <- plan :: i.key in t.objects
    ensures s.objects.Keys <= t.objects.Keys
  {
    forall k <- s.objects ensures k in t.objects {
      if k !in s0.objects {
        assert FirstOfPlan(plan, k, s.objects[k]);
        var j :| 0 <= j < |plan| && IsFirst(plan, j) && plan[j].key == k && Holds(s.objects[k], plan[j]);
        assert plan[j] in plan;
      }
    }
  }

  /** What an import does to a store, up to uids and versions: everything but the bundle's status is
      as it was, and of the names of the plan the ones that are new hold their first object. */
  ghost predicate Imported(s0: Store, s: Store, bundle: Key, plan: seq<Item>) {
    && Reached(s0, s, bundle, plan)
    && forall i <- plan :: i.key in s.objects
  }

  /** Whatever the attempts have reached, one complete run makes it what a complete run would have made
      in the first place. */
  lemma OneCompleteRunDecides(s0: Store, c: Config, content: Content, attempts: seq<Attempt>)
    requires BundleKey(c.ns, c.bundle) in s0.objects
    requires var plan := Plan(StepsOf(c, s0.objects[BundleKey(c.ns, c.bundle)].uid, content));
      && Reached(s0, s0, BundleKey(c.ns, c.bundle), plan)
      && Reached(s0, Attempts(s0, c, content, attempts), BundleKey(c.ns, c.bundle), plan)
    ensures var bundle := BundleKey(c.ns, c.bundle);
      var t := Attempts(s0, c, content, attempts + [UNINTERRUPTED]);
      && SameObjects(t, Attempts(s0, c, content, [UNINTERRUPTED]), bundle)
      && Imported(s0, t, bundle, Plan(StepsOf(c, s0.objects[bundle].uid, content)))
  {
    var bundle := BundleKey(c.ns, c.bundle);
    var plan := Plan(StepsOf(c, s0.objects[bundle].uid, content));
    var s := Attempts(s0, c, content, attempts);
    ImportKeepsReached(s0, WorldOf(s, UNINTERRUPTED), c, content, plan);
    ImportKeepsReached(s0, WorldOf(s0, UNINTERRUPTED), c, content, plan);
    AttemptsSnoc(s0, c, content, attempts);
    AttemptsSnoc(s0, c, content, []);
    assert [] + [UNINTERRUPTED] == [UNINTERRUPTED];
    ReachedAllIsUnique(s0, Attempts(s0, c, content, attempts + [UNINTERRUPTED]),
      Attempts(s0, c, content, [UNINTERRUPTED]), bundle, plan);
  }

  /** From any store with the bundle in it, any number of runs stopped at any point followed by a
      complete one leave the objects that one complete run leaves: the plan's, first come first served. */
  lemma ImportIsRestartSafe(s0: Store, c: Config, content: Content, attempts: seq<Attempt>)
    requires BundleKey(c.ns, c.bundle) in s0.objects
    requires forall a <- attempts :: StopsAnywhere(WorldOf(s0, a))
    ensures var bundle := BundleKey(c.ns, c.bundle);
      var t := Attempts(s0, c, content, attempts + [UNINTERRUPTED]);
      && SameObjects(t, Attempts(s0, c, content, [UNINTERRUPTED]), bundle)
      && Imported(s0, t, bundle, Plan(StepsOf(c, s0.objects[bundle].uid, content)))
  {
    var bundle := BundleKey(c.ns, c.bundle);
    var plan := Plan(StepsOf(c, s0.objects[bundle].uid, content));
    assert Reached(s0, s0, bundle, plan);
    AttemptsKeepReached(s0, s0, c, content, attempts, plan);
    OneCompleteRunDecides(s0, c, content, attempts);
  }

  lemma {:induction false} AttemptsSnoc(s: Store, c: Config, content: Content, attempts: seq<Attempt>)
    ensures Attempts(s, c, content, attempts + [UNINTERRUPTED])
         == ImportContent(WorldOf(Attempts(s, c, content, attempts), UNINTERRUPTED), c, content).0.store
    decreases |attempts|
  {
    if attempts == [] {
      assert ([] + [UNINTERRUPTED])[1..] == [];
    } else {
      assert (attempts + [UNINTERRUPTED])[1..] == attempts[1..] + [UNINTERRUPTED];
      AttemptsSnoc(ImportContent(WorldOf(s, attempts[0]), c, content).0.store, c, content, attempts[1..]);
    }
  }
}
