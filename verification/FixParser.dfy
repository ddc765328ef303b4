/** pkg/profileparser/profileparser.go: which of a rule's fixes become available fixes. */
module FixParser {
  import opened ApiTypes
  import opened Datastream

  const MACHINE_CONFIG_FIX_TYPE := "urn:xccdf:fix:script:ignition"
  const KUBERNETES_FIX_TYPE := "urn:xccdf:fix:script:kubernetes"

  predicate IsRelevantFix(fix: FixNode) {
    fix.system == MACHINE_CONFIG_FIX_TYPE || fix.system == KUBERNETES_FIX_TYPE
  }

  predicate Usable(fix: FixNode) { IsRelevantFix(fix) && fix.decoded.Some? }

  /** Node `i` is the earliest usable fix of its platform. */
  predicate EarliestOfPlatform(nodes: seq<FixNode>, i: nat)
    requires i < |nodes|
  {
    Usable(nodes[i]) && forall j :: 0 <= j < i && Usable(nodes[j]) ==> nodes[j].platform != nodes[i].platform
  }

  function FixOf(node: FixNode): Fix
    requires Usable(node)
  {
    Fix(node.platform, node.disruption, node.decoded.value)
  }

  /** The earliest usable fix of every platform, in document order. */
  function FixesUpTo(nodes: seq<FixNode>, n: nat): seq<Fix>
    requires n <= |nodes|
  {
    if n == 0 then []
    else FixesUpTo(nodes, n - 1) + if EarliestOfPlatform(nodes, n - 1) then [FixOf(nodes[n - 1])] else []
  }

  function FixesOf(nodes: seq<FixNode>): seq<Fix> { FixesUpTo(nodes, |nodes|) }

  method CollectFixes(nodes: seq<FixNode>) returns (fixes: seq<Fix>)
    ensures fixes == FixesOf(nodes)
  {
    fixes := [];
    var foundPlatformMap: map<string, bool> := map[];
    for i := 0 to |nodes|
      invariant fixes == FixesUpTo(nodes, i)
      invariant forall p <- foundPlatformMap :: foundPlatformMap[p]
      invariant forall p :: p in foundPlatformMap <==>
        exists j :: 0 <= j < i && Usable(nodes[j]) && nodes[j].platform == p
    {
      var node := nodes[i];
      if !IsRelevantFix(node) {
        continue;
      }
      if node.platform in foundPlatformMap && foundPlatformMap[node.platform] {
        continue;
      }
      if node.decoded.None? {
        continue;
      }
      fixes := fixes + [Fix(node.platform, node.disruption, node.decoded.value)];
      foundPlatformMap := foundPlatformMap[node.platform := true];
    }
  }

  ghost predicate ComesFrom(nodes: seq<FixNode>, i: nat, f: Fix) {
    i < |nodes| && EarliestOfPlatform(nodes, i) && f == FixOf(nodes[i])
  }

  /** Exactly the earliest usable fix of each platform is available ... */
  lemma {:induction false} FixesAreTheEarliest(nodes: seq<FixNode>, n: nat)
    requires n <= |nodes|
    ensures forall f :: f in FixesUpTo(nodes, n) <==> exists i :: 0 <= i < n && ComesFrom(nodes, i, f)
  {
    if n > 0 {
      FixesAreTheEarliest(nodes, n - 1);
      var init := FixesUpTo(nodes, n - 1);
      forall f
        ensures f in FixesUpTo(nodes, n) <==> f in init || ComesFrom(nodes, n - 1, f)
      {
      }
    }
  }

  /** ... no platform has two of them, ... */
  lemma {:induction false} PlatformsAreDistinct(nodes: seq<FixNode>, n: nat)
    requires n <= |nodes|
    ensures forall a, b :: 0 <= a < b < |FixesUpTo(nodes, n)| ==>
      FixesUpTo(nodes, n)[a].platform != FixesUpTo(nodes, n)[b].platform
  {
    if n > 0 {
      PlatformsAreDistinct(nodes, n - 1);
      FixesAreTheEarliest(nodes, n - 1);
      var init := FixesUpTo(nodes, n - 1);
      if EarliestOfPlatform(nodes, n - 1) {
        forall a | 0 <= a < |init| ensures init[a].platform != nodes[n - 1].platform {
          assert init[a] in init;
          var i :| 0 <= i < n - 1 && ComesFrom(nodes, i, init[a]);
        }
      }
    }
  }

  /** ... and every platform with a usable fix has one: an undecodable fix blocks nothing. */
  lemma {:induction false} EveryPlatformIsServed(nodes: seq<FixNode>, i: nat)
    requires i < |nodes| && Usable(nodes[i])
    ensures exists f <- FixesOf(nodes) :: f.platform == nodes[i].platform
  {
    if EarliestOfPlatform(nodes, i) {
      FixesAreTheEarliest(nodes, |nodes|);
      assert ComesFrom(nodes, i, FixOf(nodes[i]));
    } else {
      var j :| 0 <= j < i && Usable(nodes[j]) && nodes[j].platform == nodes[i].platform;
      EveryPlatformIsServed(nodes, j);
    }
  }

  /** A fix that can be made available: of one of the two types, and decodable. */
  ghost predicate Fits(node: FixNode) {
    && (node.system == "urn:xccdf:fix:script:ignition" || node.system == "urn:xccdf:fix:script:kubernetes")
    && node.decoded.Some?
  }

  ghost predicate MadeOfFirstFitting(nodes: seq<FixNode>, i: nat, f: Fix) {
    && i < |nodes| && Fits(nodes[i])
    && f == Fix(nodes[i].platform, nodes[i].disruption, nodes[i].decoded.value)
    && forall j :: 0 <= j < i && Fits(nodes[j]) ==> nodes[j].platform != nodes[i].platform
  }

  /** In terms of the document: a fix is available exactly when it is made of the first fitting node of its
      platform, with that node's platform, disruption and object. */
  lemma AvailableExactly(nodes: seq<FixNode>, f: Fix)
    ensures f in FixesOf(nodes) <==> exists i :: 0 <= i < |nodes| && MadeOfFirstFitting(nodes, i, f)
  {
    FixesAreTheEarliest(nodes, |nodes|);
    forall i | 0 <= i < |nodes| ensures Fits(nodes[i]) <==> Usable(nodes[i]) {
    }
    if f in FixesOf(nodes) {
      var i :| 0 <= i < |nodes| && ComesFrom(nodes, i, f);
      assert MadeOfFirstFitting(nodes, i, f);
    }
    if i :| 0 <= i < |nodes| && MadeOfFirstFitting(nodes, i, f) {
      assert ComesFrom(nodes, i, f);
    }
  }

  /** Later nodes only add to the fixes: these are in document order. */
  lemma {:induction false} FixesInDocumentOrder(nodes: seq<FixNode>, more: seq<FixNode>)
    ensures FixesOf(nodes) <= FixesOf(nodes + more)
    decreases |more|
  {
    if more == [] {
      assert nodes + more == nodes;
    } else {
      var all, init := nodes + more, nodes + more[..|more| - 1];
      FixesInDocumentOrder(nodes, more[..|more| - 1]);
      assert all[..|init|] == init;
      SameUpTo(init, all, |init|);
    }
  }

  lemma {:induction false} SameUpTo(a: seq<FixNode>, b: seq<FixNode>, n: nat)
    requires a <= b && n <= |a|
    ensures FixesUpTo(a, n) == FixesUpTo(b, n)
  {
    if n > 0 {
      SameUpTo(a, b, n - 1);
    }
  }
}
