/** pkg/profileparser/profileparser.go: the default value and the choices of a variable. */
module VariableParser {
  import opened ApiTypes
  import opened Datastream
  import opened Variables

  /** The texts of the value nodes without a selector, and the choices of the others. */
  function Defaults(items: seq<ValueItem>): seq<string> {
    if items == [] then []
    else Defaults(items[..|items| - 1]) + if items[|items| - 1].selector.None? then [items[|items| - 1].text] else []
  }

  function Choices(items: seq<ValueItem>): seq<ValueSelection> {
    if items == [] then []
    else
      var last := items[|items| - 1];
      Choices(items[..|items| - 1])
        + if last.selector.Some? then [ValueSelection(last.selector.value, last.text)] else []
  }

  /** Every default but the last one is empty. */
  predicate OneDefault(defaults: seq<string>) {
    forall i :: 0 <= i < |defaults| - 1 ==> defaults[i] == ""
  }

  /** Fails exactly when a second default would replace a non-empty one; otherwise the last default
      and all the choices, in order, have been taken. */
  method ParseVarValues(items: seq<ValueItem>, v: Variable) returns (ok: bool)
    modifies v`value, v`selections
    ensures ok <==> OneDefault([old(v.value)] + Defaults(items))
    ensures ok ==> v.value == ([old(v.value)] + Defaults(items))[|Defaults(items)|]
    ensures ok ==> v.selections == old(v.selections) + Choices(items)
  {
    var start := v.value;
    for i := 0 to |items|
      invariant OneDefault([start] + Defaults(items[..i]))
      invariant v.value == ([start] + Defaults(items[..i]))[|Defaults(items[..i])|]
      invariant v.selections == old(v.selections) + Choices(items[..i])
    {
      ghost var before := [start] + Defaults(items[..i]);
      assert items[..i + 1][..i] == items[..i];
      if items[i].selector.Some? {
        v.selections := v.selections + [ValueSelection(items[i].selector.value, items[i].text)];
        assert [start] + Defaults(items[..i + 1]) == before;
        continue;
      }
      assert [start] + Defaults(items[..i + 1]) == before + [items[i].text];
      if v.value != "" {
        DefaultsGrow(items, i + 1);
        assert ([start] + Defaults(items))[|before| - 1] == before[|before| - 1] != "";
        return false;
      }
      v.value := items[i].text;
      assert before[|before| - 1] == "";
    }
    assert items[..|items|] == items;
    return true;
  }

  lemma {:induction false} DefaultsGrow(items: seq<ValueItem>, i: nat)
    requires i <= |items|
    ensures Defaults(items[..i]) <= Defaults(items)
  {
    if i < |items| {
      DefaultsGrow(items[..|items| - 1], i);
      assert items[..|items| - 1][..i] == items[..i];
    } else {
      assert items[..i] == items;
    }
  }

  function DefaultItems(texts: seq<string>): (r: seq<ValueItem>)
    ensures |r| == |texts| && forall i :: 0 <= i < |r| ==> r[i] == ValueItem(None, texts[i])
  {
    seq(|texts|, i requires 0 <= i < |texts| => ValueItem(None, texts[i]))
  }

  function ChoiceItems(choices: seq<ValueSelection>): (r: seq<ValueItem>)
    ensures |r| == |choices|
    ensures forall i :: 0 <= i < |r| ==> r[i] == ValueItem(Some(choices[i].description), choices[i].value)
  {
    seq(|choices|, i requires 0 <= i < |choices| => ValueItem(Some(choices[i].description), choices[i].value))
  }

  /** The defaults and the choices together account for every value node. */
  lemma {:induction false} DefaultsAndChoicesCoverAll(items: seq<ValueItem>)
    ensures multiset(items) == multiset(DefaultItems(Defaults(items))) + multiset(ChoiceItems(Choices(items)))
  {
    if items != [] {
      var init, last := items[..|items| - 1], items[|items| - 1];
      DefaultsAndChoicesCoverAll(init);
      assert items == init + [last];
      if last.selector.None? {
        Snoc(DefaultItems(Defaults(init)), DefaultItems(Defaults(items)), last);
        assert Choices(items) == Choices(init);
      } else {
        Snoc(ChoiceItems(Choices(init)), ChoiceItems(Choices(items)), last);
        assert Defaults(items) == Defaults(init);
      }
    }
  }

  lemma Snoc(init: seq<ValueItem>, items: seq<ValueItem>, last: ValueItem)
    requires |items| == |init| + 1 && items[|init|] == last && forall i :: 0 <= i < |init| ==> items[i] == init[i]
    ensures multiset(items) == multiset(init) + multiset{last}
  {
    assert items == init + [last];
  }

  /** The variable the parser makes of a value node, if it makes one. */
  function VariableOf(node: ValueNode): Option<VariableData>
    requires node.title.Some?
  {
    var defaults := [""] + Defaults(node.items);
    if OneDefault(defaults) then
      Some(VariableData(node.id, node.title.value, TypeOf(node.typeAttribute), defaults[|defaults| - 1],
        Choices(node.items)))
    else None
  }

  /** getVariableType: the type attribute's own vocabulary, with string for anything else. */
  function TypeOf(typeAttribute: Option<string>): string {
    if typeAttribute == Some("number") then NUMBER_TYPE
    else if typeAttribute == Some("boolean") then BOOL_TYPE
    else STRING_TYPE
  }

  /** Defaults and choices are taken one value node after the other; ... */
  lemma {:induction false} ValuesInDocumentOrder(a: seq<ValueItem>, b: seq<ValueItem>)
    ensures Defaults(a + b) == Defaults(a) + Defaults(b)
    ensures Choices(a + b) == Choices(a) + Choices(b)
    decreases |b|
  {
    if b == [] {
      assert a + b == a;
    } else {
      assert (a + b)[..|a + b| - 1] == a + b[..|b| - 1];
      ValuesInDocumentOrder(a, b[..|b| - 1]);
    }
  }

  /** ... each is one or the other, by its selector alone. */
  lemma OneValue(item: ValueItem)
    ensures item.selector.None? ==> Defaults([item]) == [item.text] && Choices([item]) == []
    ensures item.selector.Some? ==>
      Defaults([item]) == [] && Choices([item]) == [ValueSelection(item.selector.value, item.text)]
  {
    assert [item][..0] == [];
    assert Defaults([]) == [] && Choices([]) == [];
  }
}
