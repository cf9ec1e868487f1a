/**
  The part of the MAVLink message-definition document both generators read:
  `<enum name=...>` elements holding `<entry name=...>` elements, each with an
  optional `<description>` and a list of `<param label=... index=...>text</param>`.
  Attributes and texts the parser may not find are `Option`s.
 */
module Xml {
  import opened Values

  /** The `index` attribute as `int(...)` sees it: absent (`int(None)` raises
      TypeError), present but not an integer literal (ValueError), or a number. */
  datatype IndexAttr = NoIndex | BadIndex | Index(n: int)

  datatype Param = Param(labelAttr: Option<string>, index: IndexAttr, text: Option<string>)

  datatype Entry = Entry(name: Option<string>, description: Option<string>, params: seq<Param>)

  datatype Enum = Enum(name: Option<string>, entries: seq<Entry>)

  /** A document: its enums in document order. */
  type Document = seq<Enum>

  /** `if param.get('label'):` — a label that is present and not empty. */
  predicate Labelled(p: Param) {
    p.labelAttr.Some? && p.labelAttr.value != []
  }

  /** `int(param.get('index'))`. */
  function ReadIndex(a: IndexAttr): (r: Result<int>)
    ensures r.Success? <==> a.Index?
    ensures r.Success? ==> r.value == a.n
    ensures a.NoIndex? ==> r == Failure(TypeError)
    ensures a.BadIndex? ==> r == Failure(ValueError)
  {
    match a
    case NoIndex => Failure(TypeError)
    case BadIndex => Failure(ValueError)
    case Index(n) => Success(n)
  }

  /** `root.find(".//enum[@name='MAV_CMD']")`: the first enum with that name. */
  function FindEnum(doc: Document, name: string): (r: Option<Enum>)
    ensures r.Some? ==> r.value in doc && r.value.name == Some(name)
    ensures r.None? <==> forall i :: 0 <= i < |doc| ==> doc[i].name != Some(name)
    ensures r.Some? ==> exists i :: 0 <= i < |doc| && doc[i] == r.value && forall j :: 0 <= j < i ==> doc[j].name != Some(name)
    decreases |doc|
  {
    if doc == [] then None
    else if doc[0].name == Some(name) then Some(doc[0])
    else
      var r := FindEnum(doc[1..], name);
      assert forall j :: 1 <= j < |doc| ==> doc[j] == doc[1..][j - 1];
      r
  }
}
