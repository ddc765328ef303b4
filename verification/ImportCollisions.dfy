/** Imports that go on after failures. A rule or a variable that cannot be created is passed over, so a
    later object of the same name may take the name for good: importing is safe to restart after any
    failures exactly when no two new rules or variables with one name differ. */
module ImportCollisions {
  import opened ApiTypes
  import opened ApiStore
  import opened Import
  import opened ImportRestart

  /** Whatever fails in earlier runs, a complete run leaves what it would have left in the first place. */
  ghost predicate RestartSafe(s0: Store, c: Config, content: Content) {
    forall attempts | (forall a <- attempts :: Quiet(WorldOf(s0, a))) ::
      SameObjects(Attempts(s0, c, content, attempts + [UNINTERRUPTED]), Attempts(s0, c, content, [UNINTERRUPTED]),
        BundleKey(c.ns, c.bundle))
  }

  /** Objects of the plan with one name are the same, apart from profiles and names already taken. */
  ghost predicate NoCollisions(s0: Store, plan: seq<Item>) {
    forall i, j :: 0 <= i < |plan| && 0 <= j < |plan| && plan[i].key == plan[j].key ==>
      plan[i] == plan[j] || Harmless(s0, plan[i].key)
  }

  ghost predicate Harmless(s0: Store, k: Key) { k in s0.objects || k.kind == ProfileKind }

  /** Only the creation of a profile must not fail. */
  ghost predicate RequiredAreProfiles(steps: seq<Step>) {
    forall s <- steps :: s.Make? ==> (s.required <==> s.item.key.kind == ProfileKind)
  }

  lemma StepsRequireProfiles(c: Config, uid: nat, content: Content)
    ensures RequiredAreProfiles(StepsOf(c, uid, content))
  {
  }

  // --- without collisions ----------------------------------------------------------------------

  ghost predicate OfPlan(plan: seq<Item>, k: Key, o: Object) {
    exists i <- plan :: i.key == k && Holds(o, i)
  }

  /** A new profile is the plan's first of its name, any other new object some object of its name. */
  ghost predicate Admissible(plan: seq<Item>, k: Key, o: Object) {
    if k.kind == ProfileKind then FirstOfPlan(plan, k, o) else OfPlan(plan, k, o)
  }

  /** `s` is `s0` with some objects of the plan added. */
  ghost predicate ReachedSomehow(s0: Store, s: Store, bundle: Key, plan: seq<Item>) {
    && SameBundle(s0, s, bundle)
    && (forall k <- s0.objects :: k != bundle ==> k in s.objects && s.objects[k] == s0.objects[k])
    && (forall k <- s.objects {:trigger Admissible(plan, k, s.objects[k])} ::
          k in s0.objects || Admissible(plan, k, s.objects[k]))
  }

  /** The profiles among the first `j` objects of the plan are in place. */
  ghost predicate ProfilesDone(s: Store, plan: seq<Item>, j: nat) {
    j <= |plan| && forall h :: 0 <= h < j && plan[h].key.kind == ProfileKind ==> plan[h].key in s.objects
  }

  lemma AddKeepsSomehow(s0: Store, s: Store, bundle: Key, plan: seq<Item>, j: nat)
    requires ReachedSomehow(s0, s, bundle, plan) && ProfilesDone(s, plan, j) && j < |plan|
    ensures ReachedSomehow(s0, Add(s, plan[j]), bundle, plan)
  {
    AddKeeps(s, plan[j]);
    var k := plan[j].key;
    if k !in s.objects {
      assert plan[j] in plan;
      assert k.kind == ProfileKind ==> IsFirst(plan, j);
      assert Admissible(plan, k, Add(s, plan[j]).objects[k]);
    }
  }

  lemma QuietCreate(w: World, i: Item)
    requires Quiet(w)
    ensures Quiet(CreateUnlessPresent(w, i).0)
    ensures CreateUnlessPresent(w, i).0.store in {w.store, Add(w.store, i)}
    ensures CreateUnlessPresent(w, i).1 ==> i.key in CreateUnlessPresent(w, i).0.store.objects
  {
    QuietCall(w);
  }

  lemma {:induction false} StepsKeepSomehow(s0: Store, w: World, steps: seq<Step>, bundle: Key, plan: seq<Item>, j: nat)
    requires Quiet(w) && ReachedSomehow(s0, w.store, bundle, plan) && ProfilesDone(w.store, plan, j)
    requires plan[j..] == Plan(steps) && RequiredAreProfiles(steps)
    ensures Quiet(RunSteps(w, steps).0) && ReachedSomehow(s0, RunSteps(w, steps).0.store, bundle, plan)
    decreases |steps|
  {
    if steps != [] {
      assert steps[0] in steps;
      match steps[0] {
        case Stop(_) =>
        case Skip => StepsKeepSomehow(s0, w, steps[1..], bundle, plan, j);
        case Make(item, required) =>
          assert plan[j] == item && plan[j + 1..] == plan[j..][1..];
          QuietCreate(w, item);
          AddKeepsSomehow(s0, w.store, bundle, plan, j);
          var r := CreateUnlessPresent(w, item);
          if r.1 || !required {
            StepsKeepSomehow(s0, r.0, steps[1..], bundle, plan, j + 1);
          }
      }
    }
  }

  lemma VerdictKeepsSomehow(s0: Store, w: World, c: Config, pb: Object, error: Option<string>, plan: seq<Item>)
    requires Quiet(w) && ReachedSomehow(s0, w.store, BundleKey(c.ns, c.bundle), plan) && pb.body.ProfileBundleBody?
    ensures ReachedSomehow(s0, StoreVerdict(w, c, pb, error).0.store, BundleKey(c.ns, c.bundle), plan)
  {
    QuietCall(w);
  }

  lemma ImportKeepsSomehow(s0: Store, w: World, c: Config, content: Content, plan: seq<Item>)
    requires Quiet(w) && ReachedSomehow(s0, w.store, BundleKey(c.ns, c.bundle), plan)
    requires plan == Plan(StepsOf(c, s0.objects[BundleKey(c.ns, c.bundle)].uid, content))
    ensures ReachedSomehow(s0, ImportContent(w, c, content).0.store, BundleKey(c.ns, c.bundle), plan)
  {
    QuietCall(w);
    var got := Get(w, BundleKey(c.ns, c.bundle));
    if got.1.Ok? {
      IntoKeepsSomehow(s0, got.0, c, got.1.value, content, plan);
    }
  }

  lemma IntoKeepsSomehow(s0: Store, w: World, c: Config, pb: Object, content: Content, plan: seq<Item>)
    requires Quiet(w) && ReachedSomehow(s0, w.store, BundleKey(c.ns, c.bundle), plan) && pb.body.ProfileBundleBody?
    requires plan == Plan(StepsOf(c, pb.uid, content))
    ensures ReachedSomehow(s0, ImportInto(w, c, pb, content).0.store, BundleKey(c.ns, c.bundle), plan)
  {
    match content {
      case Unreadable(error) => VerdictKeepsSomehow(s0, w, c, pb, Some("Couldn't read content file: " + error), plan);
      case Malformed(error) => VerdictKeepsSomehow(s0, w, c, pb, Some("Couldn't read content XML: " + error), plan);
      case Parsed(d) =>
        StepsRequireProfiles(c, pb.uid, content);
        assert plan[0..] == plan;
        StepsKeepSomehow(s0, w, Steps(c, pb.uid, d), BundleKey(c.ns, c.bundle), plan, 0);
        var done := RunSteps(w, Steps(c, pb.uid, d));
        VerdictKeepsSomehow(s0, done.0, c, pb, done.1, plan);
    }
  }

  lemma {:induction false} AttemptsKeepSomehow(s0: Store, s: Store, c: Config, content: Content,
                                               attempts: seq<Attempt>, plan: seq<Item>)
    requires forall a <- attempts :: Quiet(WorldOf(s, a))
    requires ReachedSomehow(s0, s, BundleKey(c.ns, c.bundle), plan)
    requires plan == Plan(StepsOf(c, s0.objects[BundleKey(c.ns, c.bundle)].uid, content))
    ensures ReachedSomehow(s0, Attempts(s, c, content, attempts), BundleKey(c.ns, c.bundle), plan)
    decreases |attempts|
  {
    if attempts != [] {
      assert attempts[0] in attempts;
      ImportKeepsSomehow(s0, WorldOf(s, attempts[0]), c, content, plan);
      var t := ImportContent(WorldOf(s, attempts[0]), c, content).0.store;
      forall a <- attempts[1..] ensures Quiet(WorldOf(t, a)) {
        assert Quiet(WorldOf(s, a));
      }
      AttemptsKeepSomehow(s0, t, c, content, attempts[1..], plan);
    }
  }

  lemma SomehowIsReached(s0: Store, s: Store, bundle: Key, plan: seq<Item>)
    requires NoCollisions(s0, plan) && ReachedSomehow(s0, s, bundle, plan)
    ensures Reached(s0, s, bundle, plan)
  {
    forall k <- s.objects | k !in s0.objects ensures FirstOfPlan(plan, k, s.objects[k]) {
      assert Admissible(plan, k, s.objects[k]);
      if k.kind != ProfileKind {
        var i :| 0 <= i < |plan| && plan[i].key == k && Holds(s.objects[k], plan[i]);
        var j := FirstIndex(plan, k, |plan|);
        assert plan[j] == plan[i];
      }
    }
  }

  /** The first place of a name in the plan. */
  lemma {:induction false} FirstIndex(plan: seq<Item>, k: Key, n: nat) returns (j: nat)
    requires n <= |plan| && exists i :: 0 <= i < n && plan[i].key == k
    ensures j < n && IsFirst(plan, j) && plan[j].key == k
    decreases n
  {
    if i :| 0 <= i < n - 1 && plan[i].key == k {
      j := FirstIndex(plan, k, n - 1);
    } else {
      j := n - 1;
    }
  }

  lemma SafeWithoutCollisions(s0: Store, c: Config, content: Content, attempts: seq<Attempt>)
    requires BundleKey(c.ns, c.bundle) in s0.objects
    requires NoCollisions(s0, Plan(StepsOf(c, s0.objects[BundleKey(c.ns, c.bundle)].uid, content)))
    requires forall a <- attempts :: Quiet(WorldOf(s0, a))
    ensures SameObjects(Attempts(s0, c, content, attempts + [UNINTERRUPTED]), Attempts(s0, c, content, [UNINTERRUPTED]),
              BundleKey(c.ns, c.bundle))
  {
    var bundle := BundleKey(c.ns, c.bundle);
    var plan := Plan(StepsOf(c, s0.objects[bundle].uid, content));
    assert ReachedSomehow(s0, s0, bundle, plan) && Reached(s0, s0, bundle, plan);
    AttemptsKeepSomehow(s0, s0, c, content, attempts, plan);
    SomehowIsReached(s0, Attempts(s0, c, content, attempts), bundle, plan);
    OneCompleteRunDecides(s0, c, content, attempts);
  }

  // --- with a collision ------------------------------------------------------------------------

  /** Refuses the creations of one name among the first `q` steps and lets the others pass. */
  function Refusals(steps: seq<Step>, q: nat, k: Key): seq<Event>
    requires q <= |steps|
    decreases q
  {
    if q == 0 then []
    else (if steps[0].Make? then [Event([], if steps[0].item.key == k then Refused else Healthy)] else [])
         + Refusals(steps[1..], q - 1, k)
  }

  lemma {:induction false} StoppedStepsDoNothing(w: World, steps: seq<Step>)
    requires Stopped(w)
    ensures RunSteps(w, steps).0 == w
    decreases |steps|
  {
    if steps != [] && !steps[0].Stop? {
      StoppedStepsDoNothing(w, steps[1..]);
    }
  }

  /** The process stops right after it has created the object of step `q`. */
  ghost predicate StopsAfter(w: World, steps: seq<Step>, q: nat, k: Key) {
    q < |steps| && w.script == Refusals(steps, q, k) + [Event([], Healthy)] && w.after == Refused
  }

  /** Step `q` makes a rule or variable under `k`, and no earlier step stops the import. */
  ghost predicate Reaches(steps: seq<Step>, q: nat, k: Key) {
    && RequiredAreProfiles(steps) && k.kind != ProfileKind
    && q < |steps| && steps[q].Make? && steps[q].item.key == k
    && forall h :: 0 <= h < q ==> !steps[h].Stop?
  }

  /** The name is stored for this object, and the process has stopped. */
  ghost predicate Landed(w: World, k: Key, i: Item) {
    Stopped(w) && Taken(w.store, k, i)
  }

  ghost predicate Taken(s: Store, k: Key, i: Item) { k in s.objects && Holds(s.objects[k], i) }

  lemma {:induction false} RefusedNamesLand(w: World, steps: seq<Step>, q: nat, k: Key)
    requires Reaches(steps, q, k) && StopsAfter(w, steps, q, k) && k !in w.store.objects
    ensures Landed(RunSteps(w, steps).0, k, steps[q].item)
    decreases q
  {
    var first := steps[0];
    assert first in steps;
    if q == 0 {
      var t := CreateUnlessPresent(w, first.item).0;
      assert w.script == [Event([], Healthy)] && w.script[1..] == [];
      StoppedStepsDoNothing(t, steps[1..]);
    } else {
      assert !first.Stop?;
      assert Refusals(steps, q, k)
          == (if first.Make? then [Event([], if first.item.key == k then Refused else Healthy)] else [])
             + Refusals(steps[1..], q - 1, k);
      RestReaches(steps, q, k);
      if first.Skip? {
        RefusedNamesLand(w, steps[1..], q - 1, k);
      } else {
        OneStepOn(w, steps, q, k);
        RefusedNamesLand(CreateUnlessPresent(w, first.item).0, steps[1..], q - 1, k);
      }
    }
  }

  lemma RestReaches(steps: seq<Step>, q: nat, k: Key)
    requires Reaches(steps, q, k) && q > 0
    ensures Reaches(steps[1..], q - 1, k) && steps[1..][q - 1] == steps[q]
  {
    forall h | 0 <= h < q - 1 ensures !steps[1..][h].Stop? {
      assert steps[1..][h] == steps[h + 1];
    }
    assert forall s <- steps[1..] :: s in steps;
  }

  lemma OneStepOn(w: World, steps: seq<Step>, q: nat, k: Key)
    requires Reaches(steps, q, k) && StopsAfter(w, steps, q, k) && k !in w.store.objects
    requires q > 0 && steps[0].Make?
    ensures var r := CreateUnlessPresent(w, steps[0].item);
      && StopsAfter(r.0, steps[1..], q - 1, k) && k !in r.0.store.objects
      && (r.1 || !steps[0].required)
  {
    assert steps[0] in steps;
    var e := Event([], if steps[0].item.key == k then Refused else Healthy);
    assert w.script == [e] + (Refusals(steps[1..], q - 1, k) + [Event([], Healthy)]);
    assert w.script[1..] == Refusals(steps[1..], q - 1, k) + [Event([], Healthy)];
  }

  lemma {:induction false} PlannedAt(steps: seq<Step>, g: nat) returns (q: nat)
    requires g < |Plan(steps)|
    ensures q < |steps| && steps[q].Make? && steps[q].item == Plan(steps)[g]
    ensures forall h :: 0 <= h < q ==> !steps[h].Stop?
    decreases |steps|
  {
    if steps[0].Make? && g == 0 {
      q := 0;
    } else {
      var p := PlannedAt(steps[1..], if steps[0].Make? then g - 1 else g);
      q := p + 1;
      forall h | 0 <= h < q ensures !steps[h].Stop? {
        assert h > 0 ==> steps[1..][h - 1] == steps[h];
      }
    }
  }

  lemma {:induction false} RefusalsAreQuiet(steps: seq<Step>, q: nat, k: Key)
    requires q <= |steps|
    ensures forall e <- Refusals(steps, q, k) :: e.edits == []
    decreases q
  {
    if q > 0 {
      RefusalsAreQuiet(steps[1..], q - 1, k);
    }
  }

  /** After the bundle has been read, such a run leaves the name to the object of step `q`. */
  lemma LandsInto(w: World, c: Config, pb: Object, content: Content, q: nat, k: Key)
    requires pb.body.ProfileBundleBody? && k !in w.store.objects
    requires Reaches(StepsOf(c, pb.uid, content), q, k) && StopsAfter(w, StepsOf(c, pb.uid, content), q, k)
    ensures Taken(ImportInto(w, c, pb, content).0.store, k, StepsOf(c, pb.uid, content)[q].item)
  {
    RefusedNamesLand(w, StepsOf(c, pb.uid, content), q, k);
  }

  function LosingAttempt(steps: seq<Step>, q: nat, k: Key): Attempt
    requires q <= |steps|
  {
    Attempt([Event([], Healthy)] + (Refusals(steps, q, k) + [Event([], Healthy)]), Refused)
  }

  lemma LosingAttemptIsQuiet(s0: Store, steps: seq<Step>, q: nat, k: Key)
    requires q <= |steps|
    ensures Quiet(WorldOf(s0, LosingAttempt(steps, q, k)))
  {
    RefusalsAreQuiet(steps, q, k);
  }

  lemma LosingAttemptReadsTheBundle(s0: Store, c: Config, steps: seq<Step>, q: nat, k: Key) returns (got: World)
    requires BundleKey(c.ns, c.bundle) in s0.objects && q < |steps|
    ensures Get(WorldOf(s0, LosingAttempt(steps, q, k)), BundleKey(c.ns, c.bundle)) ==
        (got, Ok(s0.objects[BundleKey(c.ns, c.bundle)]))
    ensures got.store == s0 && StopsAfter(got, steps, q, k)
  {
    var w := WorldOf(s0, LosingAttempt(steps, q, k));
    got := Get(w, BundleKey(c.ns, c.bundle)).0;
    assert w.script[1..] == Refusals(steps, q, k) + [Event([], Healthy)];
  }

  lemma ReadThenInto(w: World, c: Config, content: Content, got: World, pb: Object)
    requires Get(w, BundleKey(c.ns, c.bundle)) == (got, Ok(pb))
    ensures pb.body.ProfileBundleBody? && ImportContent(w, c, content) == ImportInto(got, c, pb, content)
  {
  }

  /** A run in which a later object takes the name. */
  lemma NameCanBeLost(s0: Store, c: Config, pb: Object, content: Content, q: nat, k: Key) returns (a: Attempt)
    requires BundleKey(c.ns, c.bundle) in s0.objects && s0.objects[BundleKey(c.ns, c.bundle)] == pb
    requires k !in s0.objects && Reaches(StepsOf(c, pb.uid, content), q, k)
    ensures Quiet(WorldOf(s0, a))
    ensures Taken(ImportContent(WorldOf(s0, a), c, content).0.store, k, StepsOf(c, pb.uid, content)[q].item)
  {
    a := LosingAttempt(StepsOf(c, pb.uid, content), q, k);
    LosingAttemptIsQuiet(s0, StepsOf(c, pb.uid, content), q, k);
    var got := LosingAttemptReadsTheBundle(s0, c, StepsOf(c, pb.uid, content), q, k);
    ReadThenInto(WorldOf(s0, a), c, content, got, pb);
    LandsInto(got, c, pb, content, q, k);
  }

  /** What a complete run finds it leaves alone. */
  lemma CompleteRunKeeps(t: Store, c: Config, content: Content, k: Key)
    requires BundleKey(c.ns, c.bundle) in t.objects && k in t.objects && k != BundleKey(c.ns, c.bundle)
    ensures var u := ImportContent(WorldOf(t, UNINTERRUPTED), c, content).0.store;
      k in u.objects && u.objects[k] == t.objects[k]
  {
    var plan := Plan(StepsOf(c, t.objects[BundleKey(c.ns, c.bundle)].uid, content));
    assert Reached(t, t, BundleKey(c.ns, c.bundle), plan);
    ImportKeepsReached(t, WorldOf(t, UNINTERRUPTED), c, content, plan);
  }

  /** A name taken by an earlier run is taken for good. */
  lemma LostForGood(s0: Store, c: Config, content: Content, a: Attempt, k: Key, i: Item)
    requires BundleKey(c.ns, c.bundle) in s0.objects && Quiet(WorldOf(s0, a)) && k != BundleKey(c.ns, c.bundle)
    requires Taken(ImportContent(WorldOf(s0, a), c, content).0.store, k, i)
    ensures Taken(Attempts(s0, c, content, [a] + [UNINTERRUPTED]), k, i)
  {
    BundleStays(s0, c, content, a);
    CompleteRunKeeps(ImportContent(WorldOf(s0, a), c, content).0.store, c, content, k);
    AttemptsSnoc(s0, c, content, [a]);
    OneAttempt(s0, c, content, a);
  }

  lemma OneAttempt(s0: Store, c: Config, content: Content, a: Attempt)
    ensures Attempts(s0, c, content, [a]) == ImportContent(WorldOf(s0, a), c, content).0.store
  {
    assert [a][1..] == [];
  }

  lemma UndisturbedRunTakesTheFirst(s0: Store, c: Config, content: Content, plan: seq<Item>, f: nat)
    requires BundleKey(c.ns, c.bundle) in s0.objects
    requires plan == Plan(StepsOf(c, s0.objects[BundleKey(c.ns, c.bundle)].uid, content))
    requires IsFirst(plan, f) && plan[f].key !in s0.objects
    ensures Taken(Attempts(s0, c, content, [UNINTERRUPTED]), plan[f].key, plan[f])
  {
    var bundle := BundleKey(c.ns, c.bundle);
    assert plan[f] in plan && Reached(s0, s0, bundle, plan);
    ImportKeepsReached(s0, WorldOf(s0, UNINTERRUPTED), c, content, plan);
    OneAttempt(s0, c, content, UNINTERRUPTED);
    ReachedTakesTheFirst(s0, ImportContent(WorldOf(s0, UNINTERRUPTED), c, content).0.store, bundle, plan, f);
  }

  lemma ReachedTakesTheFirst(s0: Store, s: Store, bundle: Key, plan: seq<Item>, f: nat)
    requires Reached(s0, s, bundle, plan) && IsFirst(plan, f)
    requires plan[f].key !in s0.objects && plan[f].key in s.objects
    ensures Taken(s, plan[f].key, plan[f])
  {
    assert FirstOfPlan(plan, plan[f].key, s.objects[plan[f].key]);
  }

  lemma UnsafeWithCollision(s0: Store, c: Config, content: Content, plan: seq<Item>, f: nat, g: nat)
    requires BundleKey(c.ns, c.bundle) in s0.objects
    requires plan == Plan(StepsOf(c, s0.objects[BundleKey(c.ns, c.bundle)].uid, content))
    requires IsFirst(plan, f) && g < |plan| && plan[g].key == plan[f].key && plan[g] != plan[f]
    requires !Harmless(s0, plan[f].key)
    ensures !RestartSafe(s0, c, content)
  {
    var pb := s0.objects[BundleKey(c.ns, c.bundle)];
    var q := PlannedAt(StepsOf(c, pb.uid, content), g);
    StepsRequireProfiles(c, pb.uid, content);
    var a := NameCanBeLost(s0, c, pb, content, q, plan[f].key);
    LostForGood(s0, c, content, a, plan[f].key, plan[g]);
    UndisturbedRunTakesTheFirst(s0, c, content, plan, f);
    DifferentObjects(Attempts(s0, c, content, [a] + [UNINTERRUPTED]), Attempts(s0, c, content, [UNINTERRUPTED]),
      BundleKey(c.ns, c.bundle), plan[g], plan[f]);
    assert forall b <- [a] :: Quiet(WorldOf(s0, b));
  }

  lemma DifferentObjects(s: Store, t: Store, bundle: Key, i: Item, j: Item)
    requires i.key == j.key != bundle && i != j && Taken(s, i.key, i) && Taken(t, i.key, j)
    ensures !SameObjects(s, t, bundle)
  {
  }

  lemma BundleStays(s0: Store, c: Config, content: Content, a: Attempt)
    requires BundleKey(c.ns, c.bundle) in s0.objects && Quiet(WorldOf(s0, a))
    ensures BundleKey(c.ns, c.bundle) in ImportContent(WorldOf(s0, a), c, content).0.store.objects
  {
    var bundle := BundleKey(c.ns, c.bundle);
    var plan := Plan(StepsOf(c, s0.objects[bundle].uid, content));
    assert ReachedSomehow(s0, s0, bundle, plan);
    ImportKeepsSomehow(s0, WorldOf(s0, a), c, content, plan);
  }

  /** An import is safe to restart after any failures exactly when no two rules or variables that are new
      share a name and differ. */
  lemma RestartSafeExactlyWithoutCollisions(s0: Store, c: Config, content: Content)
    requires BundleKey(c.ns, c.bundle) in s0.objects
    ensures RestartSafe(s0, c, content) <==>
      NoCollisions(s0, Plan(StepsOf(c, s0.objects[BundleKey(c.ns, c.bundle)].uid, content)))
  {
    var plan := Plan(StepsOf(c, s0.objects[BundleKey(c.ns, c.bundle)].uid, content));
    if NoCollisions(s0, plan) {
      forall attempts | (forall a <- attempts :: Quiet(WorldOf(s0, a)))
        ensures SameObjects(Attempts(s0, c, content, attempts + [UNINTERRUPTED]),
                  Attempts(s0, c, content, [UNINTERRUPTED]), BundleKey(c.ns, c.bundle))
      {
        SafeWithoutCollisions(s0, c, content, attempts);
      }
    } else {
      var i, j :| 0 <= i < |plan| && 0 <= j < |plan| && plan[i].key == plan[j].key && plan[i] != plan[j]
        && !Harmless(s0, plan[i].key);
      var f := FirstIndex(plan, plan[i].key, |plan|);
      UnsafeWithCollision(s0, c, content, plan, f, if plan[f] == plan[i] then j else i);
    }
  }
}
