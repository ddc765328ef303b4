/** pkg/profileparser/profileparser.go: the annotations a rule gets from its references. An
    annotation is an insertion-ordered set, kept as a string joined by a separator. */
module Annotations {
  import opened ApiTypes
  import opened Datastream
  import opened Text

  const CONTROL_ANNOTATION_BASE := "control.compliance.openshift.io/"
  const RHACM_BASE := "policies.open-cluster-management.io/"
  const RHACM_STANDARDS_KEY := RHACM_BASE + "standards"
  const RHACM_CONTROLS_KEY := RHACM_BASE + "controls"
  const RULE_ID_ANNOTATION_KEY := "compliance.openshift.io/rule"

  /** A registered standard; `matches` is its compiled regular expression. */
  datatype Standard = Standard(name: string, matches: string -> bool)

  datatype Formatter = ProfileOperatorFormatter | RhacmFormatter

  const REGISTERED_FORMATTERS := [ProfileOperatorFormatter, RhacmFormatter]

  function ControlKey(std: string): string { CONTROL_ANNOTATION_BASE + std }

  // --- the specification -------------------------------------------------------------------

  function At(m: map<string, string>, key: string): Option<string> {
    if key in m then Some(m[key]) else None
  }

  /** A joined string with one more item. */
  function Extended(current: Option<string>, item: string, sep: char): string {
    match current
    case None => item
    case Some(value) => if item in Split(value, sep) then value else Join(Split(value, sep) + [item], sep)
  }

  function Appended(m: map<string, string>, key: string, item: string, sep: char): map<string, string> {
    m[key := Extended(At(m, key), item, sep)]
  }

  function Formatted(m: map<string, string>, f: Formatter, std: string, control: string): map<string, string> {
    match f
    case ProfileOperatorFormatter => Appended(m, ControlKey(std), control, ';')
    case RhacmFormatter =>
      Appended(Appended(m, RHACM_STANDARDS_KEY, std, ','), RHACM_CONTROLS_KEY, control, ',')
  }

  function FormattedByAll(m: map<string, string>, fs: seq<Formatter>, std: string, control: string): map<string, string>
  {
    if fs == [] then m
    else Formatted(FormattedByAll(m, fs[..|fs| - 1], std, control), fs[|fs| - 1], std, control)
  }

  /** One hit is one reference that one registered standard recognises. */
  datatype Hit = Hit(std: string, control: string)

  function HitsOfReference(r: ReferenceNode, stds: seq<Standard>): seq<Hit> {
    if stds == [] then []
    else
      var last := stds[|stds| - 1];
      HitsOfReference(r, stds[..|stds| - 1]) + if last.matches(r.href) then [Hit(last.name, r.text)] else []
  }

  function Hits(refs: seq<ReferenceNode>, stds: seq<Standard>): seq<Hit> {
    if refs == [] then []
    else
      var last := refs[|refs| - 1];
      Hits(refs[..|refs| - 1], stds) + if last.href == "" then [] else HitsOfReference(last, stds)
  }

  /** The annotations of a rule. */
  function AnnotationsFor(hits: seq<Hit>, fs: seq<Formatter>): map<string, string> {
    if hits == [] then map[]
    else
      FormattedByAll(AnnotationsFor(hits[..|hits| - 1], fs), fs, hits[|hits| - 1].std, hits[|hits| - 1].control)
  }

  // --- the code ----------------------------------------------------------------------------

  /** A Go map from annotation keys to values, updated in place. */
  class AnnotationMap {
    var entries: map<string, string>

    constructor ()
      ensures entries == map[]
    {
      entries := map[];
    }

    method AppendKeyWithSep(key: string, item: string, sep: char)
      modifies this
      ensures entries == Appended(old(entries), key, item, sep)
    {
      if key !in entries {
        entries := entries[key := item];
        return;
      }
      var curList := Split(entries[key], sep);
      for i := 0 to |curList|
        invariant entries == old(entries)
        invariant item !in curList[..i]
      {
        if curList[i] == item {
          assert entries == entries[key := entries[key]];
          return;
        }
      }
      assert curList[..|curList|] == curList;
      entries := entries[key := Join(curList + [item], sep)];
    }

    method Format(f: Formatter, std: string, control: string)
      modifies this
      ensures entries == Formatted(old(entries), f, std, control)
    {
      if f == ProfileOperatorFormatter {
        AppendKeyWithSep(ControlKey(std), control, ';');
      } else {
        AppendKeyWithSep(RHACM_STANDARDS_KEY, std, ',');
        AppendKeyWithSep(RHACM_CONTROLS_KEY, control, ',');
      }
    }
  }

  lemma NextReference(refs: seq<ReferenceNode>, stds: seq<Standard>, i: nat)
    requires i < |refs|
    ensures Hits(refs[..i + 1], stds)
      == if refs[i].href == "" then Hits(refs[..i], stds) else Hits(refs[..i], stds) + HitsOfReference(refs[i], stds)
  {
    assert refs[..i + 1][..i] == refs[..i];
    assert Hits(refs[..i], stds) + [] == Hits(refs[..i], stds);
  }

  lemma NextStandard(done: seq<Hit>, ref: ReferenceNode, stds: seq<Standard>, j: nat)
    requires j < |stds|
    ensures var sofar := done + HitsOfReference(ref, stds[..j]);
      done + HitsOfReference(ref, stds[..j + 1])
        == if stds[j].matches(ref.href) then sofar + [Hit(stds[j].name, ref.text)] else sofar
  {
    assert stds[..j + 1][..j] == stds[..j];
    var hits := HitsOfReference(ref, stds[..j]);
    assert done + (hits + [Hit(stds[j].name, ref.text)]) == done + hits + [Hit(stds[j].name, ref.text)];
    assert hits + [] == hits;
  }

  lemma NextHit(hits: seq<Hit>, h: Hit, fs: seq<Formatter>)
    ensures AnnotationsFor(hits + [h], fs) == FormattedByAll(AnnotationsFor(hits, fs), fs, h.std, h.control)
  {
    assert (hits + [h])[..|hits|] == hits;
  }

  lemma NextFormatter(m: map<string, string>, fs: seq<Formatter>, k: nat, std: string, control: string)
    requires k < |fs|
    ensures FormattedByAll(m, fs[..k + 1], std, control)
      == Formatted(FormattedByAll(m, fs[..k], std, control), fs[k], std, control)
  {
    assert fs[..k + 1][..k] == fs[..k];
  }

  method ParseXmlNode(refs: seq<ReferenceNode>, stds: seq<Standard>, fs: seq<Formatter>)
    returns (annotations: AnnotationMap)
    ensures fresh(annotations)
    ensures annotations.entries == AnnotationsFor(Hits(refs, stds), fs)
  {
    annotations := new AnnotationMap();
    for i := 0 to |refs|
      invariant fresh(annotations)
      invariant annotations.entries == AnnotationsFor(Hits(refs[..i], stds), fs)
    {
      var ref := refs[i];
      NextReference(refs, stds, i);
      if ref.href == "" {
        continue;
      }
      ghost var done := Hits(refs[..i], stds);
      assert done + [] == done;
      for j := 0 to |stds|
        invariant fresh(annotations)
        invariant annotations.entries == AnnotationsFor(done + HitsOfReference(ref, stds[..j]), fs)
      {
        NextStandard(done, ref, stds, j);
        if !stds[j].matches(ref.href) {
          continue;
        }
        ghost var sofar := done + HitsOfReference(ref, stds[..j]);
        NextHit(sofar, Hit(stds[j].name, ref.text), fs);
        ghost var before := annotations.entries;
        for k := 0 to |fs|
          invariant fresh(annotations)
          invariant annotations.entries == FormattedByAll(before, fs[..k], stds[j].name, ref.text)
        {
          NextFormatter(before, fs, k, stds[j].name, ref.text);
          annotations.Format(fs[k], stds[j].name, ref.text);
        }
        assert fs[..|fs|] == fs;
      }
      assert stds[..|stds|] == stds;
    }
    assert refs[..|refs|] == refs;
  }

  /** A hit is recorded exactly for a reference with an href and a standard that recognises it. */
  lemma {:induction false} HitsExactly(refs: seq<ReferenceNode>, stds: seq<Standard>, h: Hit)
    ensures h in Hits(refs, stds) <==>
      exists r <- refs, s <- stds :: r.href != "" && s.matches(r.href) && h == Hit(s.name, r.text)
  {
    if refs != [] {
      var init, last := refs[..|refs| - 1], refs[|refs| - 1];
      assert refs == init + [last];
      HitsExactly(init, stds, h);
      HitsOfReferenceExactly(last, stds, h);
    }
  }

  lemma {:induction false} HitsOfReferenceExactly(r: ReferenceNode, stds: seq<Standard>, h: Hit)
    ensures h in HitsOfReference(r, stds) <==> exists s <- stds :: s.matches(r.href) && h == Hit(s.name, r.text)
  {
    if stds != [] {
      assert stds == stds[..|stds| - 1] + [stds[|stds| - 1]];
      HitsOfReferenceExactly(r, stds[..|stds| - 1], h);
    }
  }

  // --- annotations are ordered sets --------------------------------------------------------

  /** The ordered set that a joined string stands for. */
  function Items(current: Option<string>, sep: char): seq<string> {
    if current.None? then [] else Split(current.value, sep)
  }

  /** The set kept under a key. */
  function ItemsAt(m: map<string, string>, key: string, sep: char): seq<string> {
    Items(At(m, key), sep)
  }

  lemma ExtendIsInsertion(current: Option<string>, item: string, sep: char)
    requires Free(item, sep)
    ensures Items(Some(Extended(current, item, sep)), sep) == Insert(Items(current, sep), item)
  {
    if current.None? {
      SplitFreeItem(item, sep);
    } else {
      var items := Split(current.value, sep);
      SplitIsFree(current.value, sep);
      if item !in items {
        SplitAfterJoin(items + [item], sep);
      }
    }
  }

  /** Appending an item without the separator is insertion into the ordered set, whatever string is
      already there, and touches no other key. */
  lemma AppendIsInsertion(m: map<string, string>, key: string, item: string, sep: char)
    requires Free(item, sep)
    ensures key in Appended(m, key, item, sep)
    ensures ItemsAt(Appended(m, key, item, sep), key, sep) == Insert(ItemsAt(m, key, sep), item)
    ensures Appended(m, key, item, sep) - {key} == m - {key}
  {
    ExtendIsInsertion(At(m, key), item, sep);
  }

  /** Appending twice is appending once exactly for the items that do not contain the separator. */
  lemma AppendIdempotentExactlyWhenFree(m: map<string, string>, key: string, item: string, sep: char)
    ensures var once := Appended(m, key, item, sep);
      Appended(once, key, item, sep) == once <==> Free(item, sep)
  {
    var once := Appended(m, key, item, sep);
    if Free(item, sep) {
      AppendIsInsertion(m, key, item, sep);
    } else {
      var items := Split(once[key], sep);
      SplitIsFree(once[key], sep);
      JoinAfterSplit(once[key], sep);
      JoinSnoc(items, item, sep);
    }
  }

  lemma {:induction false} JoinSnoc(items: seq<string>, item: string, sep: char)
    requires items != []
    ensures Join(items + [item], sep) == Join(items, sep) + [sep] + item
  {
    if |items| > 1 {
      assert (items + [item])[1..] == items[1..] + [item];
      JoinSnoc(items[1..], item, sep);
      assert items[0] + [sep] + (Join(items[1..], sep) + [sep] + item) == Join(items, sep) + [sep] + item;
    } else {
      assert (items + [item])[1..] == [item];
    }
  }

  function ControlsOf(hits: seq<Hit>, std: string): seq<string> {
    if hits == [] then []
    else ControlsOf(hits[..|hits| - 1], std) + if hits[|hits| - 1].std == std then [hits[|hits| - 1].control] else []
  }

  function Stds(hits: seq<Hit>): (r: seq<string>)
    ensures |r| == |hits| && forall i :: 0 <= i < |r| ==> r[i] == hits[i].std
  {
    seq(|hits|, i requires 0 <= i < |hits| => hits[i].std)
  }

  function Controls(hits: seq<Hit>): (r: seq<string>)
    ensures |r| == |hits| && forall i :: 0 <= i < |r| ==> r[i] == hits[i].control
  {
    seq(|hits|, i requires 0 <= i < |hits| => hits[i].control)
  }

  lemma KeysAreApart(std: string)
    ensures ControlKey(std) != RHACM_STANDARDS_KEY && ControlKey(std) != RHACM_CONTROLS_KEY
    ensures RHACM_STANDARDS_KEY != RHACM_CONTROLS_KEY
    ensures RULE_ID_ANNOTATION_KEY != ControlKey(std)
    ensures RULE_ID_ANNOTATION_KEY != RHACM_STANDARDS_KEY && RULE_ID_ANNOTATION_KEY != RHACM_CONTROLS_KEY
  {
    assert CONTROL_ANNOTATION_BASE[2] == 'n' && RULE_ID_ANNOTATION_KEY[2] == 'm' && RHACM_BASE[2] == 'l';
    assert ControlKey(std)[2] == 'n' && RHACM_STANDARDS_KEY[2] == 'l' && RHACM_CONTROLS_KEY[2] == 'l';
    assert |RHACM_STANDARDS_KEY| != |RHACM_CONTROLS_KEY|;
  }

  /** The keys as they are written. */
  lemma KeysAreLiteral(std: string)
    ensures ControlKey(std) == "control.compliance.openshift.io/" + std
    ensures RHACM_STANDARDS_KEY == "policies.open-cluster-management.io/standards"
    ensures RHACM_CONTROLS_KEY == "policies.open-cluster-management.io/controls"
    ensures RULE_ID_ANNOTATION_KEY == "compliance.openshift.io/rule"
  {
  }

  /** What the two registered formatters leave under each key after one more hit. */
  lemma OneMoreHit(m: map<string, string>, h: Hit, std: string)
    ensures var m' := FormattedByAll(m, REGISTERED_FORMATTERS, h.std, h.control);
      && At(m', ControlKey(std)) ==
           (if h.std == std then Some(Extended(At(m, ControlKey(std)), h.control, ';')) else At(m, ControlKey(std)))
      && At(m', RHACM_STANDARDS_KEY) == Some(Extended(At(m, RHACM_STANDARDS_KEY), h.std, ','))
      && At(m', RHACM_CONTROLS_KEY) == Some(Extended(At(m, RHACM_CONTROLS_KEY), h.control, ','))
      && m'.Keys == m.Keys + {ControlKey(h.std), RHACM_STANDARDS_KEY, RHACM_CONTROLS_KEY}
  {
    var fs := REGISTERED_FORMATTERS;
    assert fs[..1] == [ProfileOperatorFormatter] && fs[..1][..0] == [];
    var m1 := Formatted(m, ProfileOperatorFormatter, h.std, h.control);
    assert FormattedByAll(m, fs[..1], h.std, h.control) == m1;
    assert FormattedByAll(m, fs, h.std, h.control) == Formatted(m1, RhacmFormatter, h.std, h.control);
    KeysAreApart(h.std);
    KeysAreApart(std);
    assert ControlKey(std)[|CONTROL_ANNOTATION_BASE|..] == std;
    assert ControlKey(h.std)[|CONTROL_ANNOTATION_BASE|..] == h.std;
  }

  /** An annotation that is the deduplication of what was recorded shows that all of it was free of the
      separator: splitting yields nothing else. */
  lemma DedupIsFree(current: Option<string>, recorded: seq<string>, sep: char)
    requires Items(current, sep) == Dedup(recorded)
    ensures AllFree(recorded, sep)
  {
    if current.Some? {
      SplitIsFree(current.value, sep);
    }
    forall item <- recorded ensures Free(item, sep) {
      assert item in Items(current, sep);
    }
  }

  /** Split by its separator, every annotation is the deduplication, in order, of what was recorded
      under it, exactly when that is free of the separator: the controls of one standard, ... */
  lemma ControlsOfStandardAreDeduplicated(hits: seq<Hit>, std: string)
    ensures ItemsAt(AnnotationsFor(hits, REGISTERED_FORMATTERS), "control.compliance.openshift.io/" + std, ';')
         == Dedup(ControlsOf(hits, std))
      <==> AllFree(ControlsOf(hits, std), ';')
  {
    KeysAreLiteral(std);
    if AllFree(ControlsOf(hits, std), ';') {
      FreeControlsOfStandard(hits, std);
    } else {
      var current := At(AnnotationsFor(hits, REGISTERED_FORMATTERS), ControlKey(std));
      if Items(current, ';') == Dedup(ControlsOf(hits, std)) {
        DedupIsFree(current, ControlsOf(hits, std), ';');
      }
    }
  }

  lemma {:induction false} FreeControlsOfStandard(hits: seq<Hit>, std: string)
    requires AllFree(ControlsOf(hits, std), ';')
    ensures ItemsAt(AnnotationsFor(hits, REGISTERED_FORMATTERS), ControlKey(std), ';') == Dedup(ControlsOf(hits, std))
  {
    if hits != [] {
      var init, h := hits[..|hits| - 1], hits[|hits| - 1];
      assert h.std != std ==> ControlsOf(hits, std) == ControlsOf(init, std);
      FreeControlsOfStandard(init, std);
      var m := AnnotationsFor(init, REGISTERED_FORMATTERS);
      OneMoreHit(m, h, std);
      if h.std == std {
        Step(At(m, ControlKey(std)), ControlsOf(init, std), h.control, ';');
      }
    }
  }

  /** ... all standards, ... */
  lemma StandardsAreDeduplicated(hits: seq<Hit>)
    ensures ItemsAt(AnnotationsFor(hits, REGISTERED_FORMATTERS), "policies.open-cluster-management.io/standards", ',')
         == Dedup(Stds(hits))
      <==> AllFree(Stds(hits), ',')
  {
    KeysAreLiteral("");
    if AllFree(Stds(hits), ',') {
      FreeStandards(hits);
    } else if ItemsAt(AnnotationsFor(hits, REGISTERED_FORMATTERS), RHACM_STANDARDS_KEY, ',') == Dedup(Stds(hits)) {
      DedupIsFree(At(AnnotationsFor(hits, REGISTERED_FORMATTERS), RHACM_STANDARDS_KEY), Stds(hits), ',');
    }
  }

  lemma {:induction false} FreeStandards(hits: seq<Hit>)
    requires AllFree(Stds(hits), ',')
    ensures ItemsAt(AnnotationsFor(hits, REGISTERED_FORMATTERS), RHACM_STANDARDS_KEY, ',') == Dedup(Stds(hits))
  {
    if hits != [] {
      var init, h := hits[..|hits| - 1], hits[|hits| - 1];
      assert Stds(hits) == Stds(init) + [h.std];
      FreeStandards(init);
      var m := AnnotationsFor(init, REGISTERED_FORMATTERS);
      OneMoreHit(m, h, h.std);
      Step(At(m, RHACM_STANDARDS_KEY), Stds(init), h.std, ',');
    }
  }

  /** ... and all controls. */
  lemma ControlsAreDeduplicated(hits: seq<Hit>)
    ensures ItemsAt(AnnotationsFor(hits, REGISTERED_FORMATTERS), "policies.open-cluster-management.io/controls", ',')
         == Dedup(Controls(hits))
      <==> AllFree(Controls(hits), ',')
  {
    KeysAreLiteral("");
    if AllFree(Controls(hits), ',') {
      FreeControls(hits);
    } else if ItemsAt(AnnotationsFor(hits, REGISTERED_FORMATTERS), RHACM_CONTROLS_KEY, ',') == Dedup(Controls(hits)) {
      DedupIsFree(At(AnnotationsFor(hits, REGISTERED_FORMATTERS), RHACM_CONTROLS_KEY), Controls(hits), ',');
    }
  }

  lemma {:induction false} FreeControls(hits: seq<Hit>)
    requires AllFree(Controls(hits), ',')
    ensures ItemsAt(AnnotationsFor(hits, REGISTERED_FORMATTERS), RHACM_CONTROLS_KEY, ',') == Dedup(Controls(hits))
  {
    if hits != [] {
      var init, h := hits[..|hits| - 1], hits[|hits| - 1];
      assert Controls(hits) == Controls(init) + [h.control];
      FreeControls(init);
      var m := AnnotationsFor(init, REGISTERED_FORMATTERS);
      OneMoreHit(m, h, h.std);
      Step(At(m, RHACM_CONTROLS_KEY), Controls(init), h.control, ',');
    }
  }

  /** The keys that one hit writes under. */
  function KeysOf(h: Hit): set<string> { {ControlKey(h.std), RHACM_STANDARDS_KEY, RHACM_CONTROLS_KEY} }

  ghost predicate IsKeyOf(key: string, h: Hit) {
    || key == "control.compliance.openshift.io/" + h.std
    || key == "policies.open-cluster-management.io/standards"
    || key == "policies.open-cluster-management.io/controls"
  }

  function KeysOfAll(hits: seq<Hit>): (r: set<string>)
    ensures forall key :: key in r <==> exists h <- hits :: key in KeysOf(h)
  {
    if hits == [] then {}
    else
      assert hits == hits[..|hits| - 1] + [hits[|hits| - 1]];
      KeysOfAll(hits[..|hits| - 1]) + KeysOf(hits[|hits| - 1])
  }

  lemma {:induction false} KeysAreThoseOfHits(hits: seq<Hit>)
    ensures AnnotationsFor(hits, REGISTERED_FORMATTERS).Keys == KeysOfAll(hits)
  {
    if hits != [] {
      var init, h := hits[..|hits| - 1], hits[|hits| - 1];
      KeysAreThoseOfHits(init);
      OneMoreHit(AnnotationsFor(init, REGISTERED_FORMATTERS), h, h.std);
    }
  }

  /** No reference ever writes the annotation that carries a rule's name, and nothing else is written. */
  lemma AnnotationKeys(hits: seq<Hit>)
    ensures "compliance.openshift.io/rule" !in AnnotationsFor(hits, REGISTERED_FORMATTERS)
    ensures forall key :: key in AnnotationsFor(hits, REGISTERED_FORMATTERS) <==> exists h <- hits :: IsKeyOf(key, h)
  {
    KeysAreThoseOfHits(hits);
    forall h <- hits
      ensures RULE_ID_ANNOTATION_KEY !in KeysOf(h) && forall key :: key in KeysOf(h) <==> IsKeyOf(key, h)
    {
      KeysAreApart(h.std);
      KeysAreLiteral(h.std);
    }
  }

  lemma Step(current: Option<string>, recorded: seq<string>, item: string, sep: char)
    requires AllFree(recorded + [item], sep)
    requires Items(current, sep) == Dedup(recorded)
    ensures Items(Some(Extended(current, item, sep)), sep) == Dedup(recorded + [item])
  {
    assert item in recorded + [item];
    ExtendIsInsertion(current, item, sep);
    assert (recorded + [item])[..|recorded|] == recorded;
  }

  /** As a set, the RHACM control list is the union of the per-standard lists. */
  lemma ControlListIsUnionOfStandards(hits: seq<Hit>)
    requires AllFree(Controls(hits), ',') && AllFree(Controls(hits), ';')
    ensures var m := AnnotationsFor(hits, REGISTERED_FORMATTERS);
      forall c :: c in ItemsAt(m, RHACM_CONTROLS_KEY, ',')
        <==> exists h <- hits :: c in ItemsAt(m, ControlKey(h.std), ';')
  {
    var m := AnnotationsFor(hits, REGISTERED_FORMATTERS);
    FreeControls(hits);
    forall h <- hits
      ensures forall c :: c in ItemsAt(m, ControlKey(h.std), ';') <==> Hit(h.std, c) in hits
    {
      ControlsOfMembers(hits, h.std);
      forall c <- ControlsOf(hits, h.std) ensures Free(c, ';') {
        var i :| 0 <= i < |hits| && hits[i] == Hit(h.std, c);
        assert Controls(hits)[i] == c;
      }
      FreeControlsOfStandard(hits, h.std);
    }
    forall c
      ensures c in Controls(hits) <==> exists h <- hits :: c in ItemsAt(m, ControlKey(h.std), ';')
    {
      if c in Controls(hits) {
        var i :| 0 <= i < |hits| && Controls(hits)[i] == c;
        assert hits[i] in hits && hits[i] == Hit(hits[i].std, c);
      }
      if h :| h in hits && c in ItemsAt(m, ControlKey(h.std), ';') {
        var i :| 0 <= i < |hits| && hits[i] == Hit(h.std, c);
        assert Controls(hits)[i] == c;
      }
    }
  }

  lemma {:induction false} ControlsOfMembers(hits: seq<Hit>, std: string)
    ensures forall c :: c in ControlsOf(hits, std) <==> Hit(std, c) in hits
  {
    if hits != [] {
      ControlsOfMembers(hits[..|hits| - 1], std);
      assert hits == hits[..|hits| - 1] + [hits[|hits| - 1]];
    }
  }
}
