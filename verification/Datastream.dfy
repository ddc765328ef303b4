/** The parts of an XCCDF datastream the parser looks at, in document order. An attribute that
    Go reads as "" when absent is a plain string; one whose absence matters is an Option. */
module Datastream {
  import opened ApiTypes

  datatype SelectNode = SelectNode(idref: string, selected: string)

  datatype ProfileNode = ProfileNode(
    id: string, title: Option<string>, description: Option<string>,
    selects: seq<SelectNode>, setValues: seq<string>)

  /** `decoded` is what the YAML decoder makes of the fix's text. */
  datatype FixNode = FixNode(system: string, platform: string, disruption: string, decoded: Option<string>)

  datatype ReferenceNode = ReferenceNode(href: string, text: string)

  datatype RuleNode = RuleNode(
    id: string, title: Option<string>, fixes: seq<FixNode>, references: seq<ReferenceNode>)

  datatype ValueItem = ValueItem(selector: Option<string>, text: string)

  datatype ValueNode = ValueNode(
    id: string, hidden: string, title: Option<string>, typeAttribute: Option<string>, items: seq<ValueItem>)

  datatype Document = Document(profiles: seq<ProfileNode>, rules: seq<RuleNode>, values: seq<ValueNode>)
}
