/**
 * The interface of a function-block type as drawFBDiagram reads it from the
 * parsed XML: the block name, its version, and the four pin lists (event
 * inputs and outputs, input and output variables), each in document order.
 */
module FunctionBlock {
  import opened XmlTree

  /** A data pin: its name and its IEC 61131 type name. */
  datatype Var = Var(name: string, typ: string)

  datatype Interface = Interface(
    name: string,
    version: string,
    eventInputs: seq<string>,
    eventOutputs: seq<string>,
    inputVars: seq<Var>,
    outputVars: seq<Var>)

  /**
   * The items `item` yields for the children of `nodes` whose element name is
   * `tag`, concatenated in document order: the shape of every scan of the
   * extraction (a loop over children with a name test and a `push_back`).
   */
  function Collect<T>(nodes: seq<XmlNode>, tag: string, item: XmlNode -> seq<T>): seq<T> {
    if |nodes| == 0 then []
    else
      var last := nodes[|nodes| - 1];
      Collect(nodes[..|nodes| - 1], tag, item) + (if last.name == tag then item(last) else [])
  }

  /** An `Event` element: its `Name`, or "Unnamed". */
  function EventItem(n: XmlNode): seq<string> {
    [Attr(n, "Name", "Unnamed")]
  }

  /** A `VarDeclaration` element: its `Name` or "Unnamed", its `Type` or "Unknown". */
  function VarItem(n: XmlNode): seq<Var> {
    [Var(Attr(n, "Name", "Unnamed"), Attr(n, "Type", "Unknown"))]
  }

  /** The events of an `EventInputs` or `EventOutputs` section. */
  function SectionEvents(section: XmlNode): seq<string> {
    Collect(section.children, "Event", EventItem)
  }

  /** The variables of an `InputVars` or `OutputVars` section. */
  function SectionVars(section: XmlNode): seq<Var> {
    Collect(section.children, "VarDeclaration", VarItem)
  }

  function ListEventInputs(list: XmlNode): seq<string> {
    Collect(list.children, "EventInputs", SectionEvents)
  }

  function ListEventOutputs(list: XmlNode): seq<string> {
    Collect(list.children, "EventOutputs", SectionEvents)
  }

  function ListInputVars(list: XmlNode): seq<Var> {
    Collect(list.children, "InputVars", SectionVars)
  }

  function ListOutputVars(list: XmlNode): seq<Var> {
    Collect(list.children, "OutputVars", SectionVars)
  }

  /** A `VersionInfo` child that carries a `Version` attribute. */
  predicate IsVersion(n: XmlNode) {
    n.name == "VersionInfo" && "Version" in n.attributes
  }

  /** The scan for the version over the root's children: "1.0" until a version is seen. */
  function VersionOf(children: seq<XmlNode>): string {
    if |children| == 0 then "1.0"
    else
      var last := children[|children| - 1];
      if IsVersion(last) then last.attributes["Version"] else VersionOf(children[..|children| - 1])
  }

  /** The interface drawFBDiagram extracts from the root element of a block type. */
  function InterfaceOf(root: XmlNode): Interface {
    Interface(
      Attr(root, "Name", "Unknown"),
      VersionOf(root.children),
      Collect(root.children, "InterfaceList", ListEventInputs),
      Collect(root.children, "InterfaceList", ListEventOutputs),
      Collect(root.children, "InterfaceList", ListInputVars),
      Collect(root.children, "InterfaceList", ListOutputVars))
  }

  // ---------------------------------------------------------------------
  // Properties of the extraction

  /** An item is collected exactly when some matching child yields it. */
  lemma {:induction false} CollectMembership<T>(nodes: seq<XmlNode>, tag: string, item: XmlNode -> seq<T>, x: T)
    ensures x in Collect(nodes, tag, item) <==> exists n :: n in nodes && n.name == tag && x in item(n)
  {
    if |nodes| > 0 {
      var init, last := nodes[..|nodes| - 1], nodes[|nodes| - 1];
      assert nodes == init + [last];
      CollectMembership(init, tag, item, x);
    }
  }

  /** Collecting is compositional over concatenated child lists: document order is kept. */
  lemma {:induction false} CollectAppend<T>(a: seq<XmlNode>, b: seq<XmlNode>, tag: string, item: XmlNode -> seq<T>)
    ensures Collect(a + b, tag, item) == Collect(a, tag, item) + Collect(b, tag, item)
  {
    if |b| == 0 {
      assert a + b == a;
    } else {
      var init, last := b[..|b| - 1], b[|b| - 1];
      assert (a + b)[..|a + b| - 1] == a + init;
      CollectAppend(a, init, tag, item);
    }
  }

  /** Children with another name contribute nothing. */
  lemma {:induction false} CollectSkips<T>(nodes: seq<XmlNode>, tag: string, item: XmlNode -> seq<T>)
    requires forall i :: 0 <= i < |nodes| ==> nodes[i].name != tag
    ensures Collect(nodes, tag, item) == []
  {
    if |nodes| > 0 {
      CollectSkips(nodes[..|nodes| - 1], tag, item);
    }
  }

  /** The events of one group of sections named `tag`, by membership. */
  lemma SectionsEventMembership(list: XmlNode, tag: string, e: string)
    ensures e in Collect(list.children, tag, SectionEvents) <==>
      exists section, ev ::
        section in list.children && section.name == tag &&
        ev in section.children && ev.name == "Event" && Attr(ev, "Name", "Unnamed") == e
  {
    CollectMembership(list.children, tag, SectionEvents, e);
    forall section | section in list.children {
      CollectMembership(section.children, "Event", EventItem, e);
    }
  }

  /** The variables of one group of sections named `tag`, by membership. */
  lemma SectionsVarMembership(list: XmlNode, tag: string, v: Var)
    ensures v in Collect(list.children, tag, SectionVars) <==>
      exists section, decl ::
        section in list.children && section.name == tag &&
        decl in section.children && decl.name == "VarDeclaration" &&
        v == Var(Attr(decl, "Name", "Unnamed"), Attr(decl, "Type", "Unknown"))
  {
    CollectMembership(list.children, tag, SectionVars, v);
    forall section | section in list.children {
      CollectMembership(section.children, "VarDeclaration", VarItem, v);
    }
  }

  /**
   * An event input is listed exactly when an `Event` element with that name
   * (or without one, for "Unnamed") sits in an `EventInputs` section of an
   * `InterfaceList` child of the root.
   */
  lemma EventInputMembership(root: XmlNode, e: string)
    ensures e in InterfaceOf(root).eventInputs <==>
      exists list, section, ev ::
        list in root.children && list.name == "InterfaceList" &&
        section in list.children && section.name == "EventInputs" &&
        ev in section.children && ev.name == "Event" && Attr(ev, "Name", "Unnamed") == e
  {
    CollectMembership(root.children, "InterfaceList", ListEventInputs, e);
    forall list | list in root.children {
      SectionsEventMembership(list, "EventInputs", e);
    }
  }

  /** The same for event outputs and `EventOutputs` sections. */
  lemma EventOutputMembership(root: XmlNode, e: string)
    ensures e in InterfaceOf(root).eventOutputs <==>
      exists list, section, ev ::
        list in root.children && list.name == "InterfaceList" &&
        section in list.children && section.name == "EventOutputs" &&
        ev in section.children && ev.name == "Event" && Attr(ev, "Name", "Unnamed") == e
  {
    CollectMembership(root.children, "InterfaceList", ListEventOutputs, e);
    forall list | list in root.children {
      SectionsEventMembership(list, "EventOutputs", e);
    }
  }

  /**
   * An input variable is listed exactly when a `VarDeclaration` element of an
   * `InputVars` section of an `InterfaceList` carries its name and type, a
   * missing name reading "Unnamed" and a missing type "Unknown".
   */
  lemma InputVarMembership(root: XmlNode, v: Var)
    ensures v in InterfaceOf(root).inputVars <==>
      exists list, section, decl ::
        list in root.children && list.name == "InterfaceList" &&
        section in list.children && section.name == "InputVars" &&
        decl in section.children && decl.name == "VarDeclaration" &&
        v == Var(Attr(decl, "Name", "Unnamed"), Attr(decl, "Type", "Unknown"))
  {
    CollectMembership(root.children, "InterfaceList", ListInputVars, v);
    forall list | list in root.children {
      SectionsVarMembership(list, "InputVars", v);
    }
  }

  /** The same for output variables and `OutputVars` sections. */
  lemma OutputVarMembership(root: XmlNode, v: Var)
    ensures v in InterfaceOf(root).outputVars <==>
      exists list, section, decl ::
        list in root.children && list.name == "InterfaceList" &&
        section in list.children && section.name == "OutputVars" &&
        decl in section.children && decl.name == "VarDeclaration" &&
        v == Var(Attr(decl, "Name", "Unnamed"), Attr(decl, "Type", "Unknown"))
  {
    CollectMembership(root.children, "InterfaceList", ListOutputVars, v);
    forall list | list in root.children {
      SectionsVarMembership(list, "OutputVars", v);
    }
  }

  /** A root whose children include no `InterfaceList` has no pins at all. */
  lemma NoInterfaceList(root: XmlNode)
    requires forall i :: 0 <= i < |root.children| ==> root.children[i].name != "InterfaceList"
    ensures InterfaceOf(root).eventInputs == [] && InterfaceOf(root).eventOutputs == []
    ensures InterfaceOf(root).inputVars == [] && InterfaceOf(root).outputVars == []
  {
    CollectSkips(root.children, "InterfaceList", ListEventInputs);
    CollectSkips(root.children, "InterfaceList", ListEventOutputs);
    CollectSkips(root.children, "InterfaceList", ListInputVars);
    CollectSkips(root.children, "InterfaceList", ListOutputVars);
  }

  /** Without a `VersionInfo` child carrying `Version`, the version is "1.0". */
  lemma {:induction false} VersionDefault(children: seq<XmlNode>)
    requires forall i :: 0 <= i < |children| ==> !IsVersion(children[i])
    ensures VersionOf(children) == "1.0"
  {
    if |children| > 0 {
      VersionDefault(children[..|children| - 1]);
    }
  }

  /** Otherwise the last such child decides the version. */
  lemma {:induction false} VersionLastWins(children: seq<XmlNode>, i: int)
    requires 0 <= i < |children| && IsVersion(children[i])
    requires forall j :: i < j < |children| ==> !IsVersion(children[j])
    ensures VersionOf(children) == children[i].attributes["Version"]
  {
    if i < |children| - 1 {
      VersionLastWins(children[..|children| - 1], i);
    }
  }

  // ---------------------------------------------------------------------
  // The extraction loops of drawFBDiagram

  /** Appends the events of one section, as the innermost `Event` loop does. */
  method PushEvents(acc: seq<string>, section: XmlNode) returns (r: seq<string>)
    ensures r == acc + SectionEvents(section)
  {
    r := acc;
    var i := 0;
    while i < |section.children|
      invariant 0 <= i <= |section.children|
      invariant r == acc + Collect(section.children[..i], "Event", EventItem)
    {
      var ev := section.children[i];
      assert section.children[..i + 1][..i] == section.children[..i];
      if ev.name == "Event" {
        var eventName := if "Name" in ev.attributes then ev.attributes["Name"] else "Unnamed";
        r := r + [eventName];
      }
      i := i + 1;
    }
    assert section.children[..i] == section.children;
  }

  /** Appends the variables of one section, as the innermost `VarDeclaration` loop does. */
  method PushVars(acc: seq<Var>, section: XmlNode) returns (r: seq<Var>)
    ensures r == acc + SectionVars(section)
  {
    r := acc;
    var i := 0;
    while i < |section.children|
      invariant 0 <= i <= |section.children|
      invariant r == acc + Collect(section.children[..i], "VarDeclaration", VarItem)
    {
      var decl := section.children[i];
      assert section.children[..i + 1][..i] == section.children[..i];
      if decl.name == "VarDeclaration" {
        var varName := if "Name" in decl.attributes then decl.attributes["Name"] else "Unnamed";
        var varType := if "Type" in decl.attributes then decl.attributes["Type"] else "Unknown";
        r := r + [Var(varName, varType)];
      }
      i := i + 1;
    }
    assert section.children[..i] == section.children;
  }

  /**
   * The scan of one `InterfaceList`: each section is routed by its name to one
   * of the four lists (the if / else-if chain), other children are skipped.
   */
  method ScanInterfaceList(list: XmlNode, ei0: seq<string>, eo0: seq<string>, iv0: seq<Var>, ov0: seq<Var>)
    returns (ei: seq<string>, eo: seq<string>, iv: seq<Var>, ov: seq<Var>)
    ensures ei == ei0 + ListEventInputs(list) && eo == eo0 + ListEventOutputs(list)
    ensures iv == iv0 + ListInputVars(list) && ov == ov0 + ListOutputVars(list)
  {
    ei, eo, iv, ov := ei0, eo0, iv0, ov0;
    var i := 0;
    while i < |list.children|
      invariant 0 <= i <= |list.children|
      invariant ei == ei0 + Collect(list.children[..i], "EventInputs", SectionEvents)
      invariant eo == eo0 + Collect(list.children[..i], "EventOutputs", SectionEvents)
      invariant iv == iv0 + Collect(list.children[..i], "InputVars", SectionVars)
      invariant ov == ov0 + Collect(list.children[..i], "OutputVars", SectionVars)
    {
      var section := list.children[i];
      assert list.children[..i + 1][..i] == list.children[..i];
      if section.name == "EventInputs" {
        ei := PushEvents(ei, section);
      } else if section.name == "EventOutputs" {
        eo := PushEvents(eo, section);
      } else if section.name == "InputVars" {
        iv := PushVars(iv, section);
      } else if section.name == "OutputVars" {
        ov := PushVars(ov, section);
      }
      i := i + 1;
    }
    assert list.children[..i] == list.children;
  }

  /**
   * The first half of drawFBDiagram: the name lookup, the version scan and the
   * pin scan over every `InterfaceList` child of the root.
   */
  method ExtractInterface(root: XmlNode) returns (iface: Interface)
    ensures iface == InterfaceOf(root)
  {
    var fbName := "Unknown";
    if "Name" in root.attributes {
      fbName := root.attributes["Name"];
    }

    var version := "1.0";
    var i := 0;
    while i < |root.children|
      invariant 0 <= i <= |root.children|
      invariant version == VersionOf(root.children[..i])
    {
      var child := root.children[i];
      assert root.children[..i + 1][..i] == root.children[..i];
      if child.name == "VersionInfo" && "Version" in child.attributes {
        version := child.attributes["Version"];
      }
      i := i + 1;
    }
    assert root.children[..i] == root.children;

    var eventInputs: seq<string> := [];
    var eventOutputs: seq<string> := [];
    var inputVars: seq<Var> := [];
    var outputVars: seq<Var> := [];
    i := 0;
    while i < |root.children|
      invariant 0 <= i <= |root.children|
      invariant eventInputs == Collect(root.children[..i], "InterfaceList", ListEventInputs)
      invariant eventOutputs == Collect(root.children[..i], "InterfaceList", ListEventOutputs)
      invariant inputVars == Collect(root.children[..i], "InterfaceList", ListInputVars)
      invariant outputVars == Collect(root.children[..i], "InterfaceList", ListOutputVars)
    {
      var child := root.children[i];
      assert root.children[..i + 1][..i] == root.children[..i];
      if child.name == "InterfaceList" {
        eventInputs, eventOutputs, inputVars, outputVars :=
          ScanInterfaceList(child, eventInputs, eventOutputs, inputVars, outputVars);
      }
      i := i + 1;
    }
    assert root.children[..i] == root.children;

    iface := Interface(fbName, version, eventInputs, eventOutputs, inputVars, outputVars);
  }
}
