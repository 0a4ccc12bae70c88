/** `generate_model_description` of src/autofmu/generator.py: the FMI 2.0
    model description tree, as a pure specification (`Description`), the
    step-by-step builder that mirrors the source (`GenerateModelDescription`)
    and the facts a reader of the tree can rely on. The package version and
    the `generationDateAndTime` stamp are parameters. */
module ModelDescription {
  import opened Wrappers
  import opened Decimal

  /** An XML element: its tag, its attributes and its children in document
      order. Attribute order is not kept. */
  datatype Element = Element(tag: string, attrib: map<string, string>, children: seq<Element>)

  /** The value of an attribute, if the element has it. */
  function Attr(e: Element, key: string): (r: Option<string>)
    ensures r.Some? <==> key in e.attrib
    ensures r.Some? ==> r.value == e.attrib[key]
  {
    if key in e.attrib then Some(e.attrib[key]) else None
  }

  /** lxml's `find(tag)`: the first child with that tag. */
  function FindChild(e: Element, tag: string): (r: Option<Element>)
    ensures r.None? <==> forall i :: 0 <= i < |e.children| ==> e.children[i].tag != tag
    ensures r.Some? ==> exists i :: 0 <= i < |e.children| && e.children[i] == r.value
                          && r.value.tag == tag
                          && forall j :: 0 <= j < i ==> e.children[j].tag != tag
  {
    FirstTagged(e.children, tag)
  }

  /** The position of the first element with the tag, `|es|` when none
      has it. */
  function FirstTaggedIndex(es: seq<Element>, tag: string): (i: nat)
    ensures i <= |es|
    ensures forall j :: 0 <= j < i ==> es[j].tag != tag
    ensures i < |es| ==> es[i].tag == tag
  {
    if es == [] || es[0].tag == tag then 0 else 1 + FirstTaggedIndex(es[1..], tag)
  }

  function FirstTagged(es: seq<Element>, tag: string): (r: Option<Element>)
    ensures r.None? <==> forall i :: 0 <= i < |es| ==> es[i].tag != tag
    ensures r.Some? ==> exists i :: 0 <= i < |es| && es[i] == r.value
                          && r.value.tag == tag
                          && forall j :: 0 <= j < i ==> es[j].tag != tag
  {
    var i := FirstTaggedIndex(es, tag);
    if i < |es| then Some(es[i]) else None
  }

  /** `find` returns the child at `i` when it is the first one with the tag. */
  lemma FindChildAt(e: Element, tag: string, i: nat)
    requires i < |e.children| && e.children[i].tag == tag
    requires forall j :: 0 <= j < i ==> e.children[j].tag != tag
    ensures FindChild(e, tag) == Some(e.children[i])
  {
    var r := FindChild(e, tag);
    assert r.Some?;
    var i' :| 0 <= i' < |e.children| && e.children[i'] == r.value && r.value.tag == tag
              && forall j :: 0 <= j < i' ==> e.children[j].tag != tag;
    assert i' == i;
  }

  /** The tags of a list of elements. */
  function Tags(es: seq<Element>): (ts: seq<string>)
    ensures |ts| == |es| && forall i :: 0 <= i < |es| ==> ts[i] == es[i].tag
  {
    seq(|es|, i requires 0 <= i < |es| => es[i].tag)
  }

  // ---------------------------------------------------------------------
  // The tree, element by element (src/autofmu/generator.py:37-105).

  /** `ModelExchange` or `CoSimulation`: the identifier and one source file
      named after it. */
  function Interface(tag: string, modelIdentifier: string): Element {
    Element(tag, map["modelIdentifier" := modelIdentifier],
      [Element("SourceFiles", map[], [Element("File", map["name" := modelIdentifier + ".c"], [])])])
  }

  function Category(name: string): Element {
    Element("Category", map["name" := name], [])
  }

  function LogCategories(): Element {
    Element("LogCategories", map[],
      [Category("logAll"), Category("logError"), Category("logFmiCall"), Category("logEvent")])
  }

  function InputVariable(name: string, reference: nat): Element {
    Element("ScalarVariable",
      map["name" := name, "valueReference" := DecimalString(reference), "causality" := "input"],
      [Element("Real", map["start" := "0.0"], [])])
  }

  function OutputVariable(name: string, reference: nat): Element {
    Element("ScalarVariable",
      map["name" := name, "valueReference" := DecimalString(reference), "causality" := "output"],
      [Element("Real", map[], [])])
  }

  function OutputUnknown(reference: nat): Element {
    Element("Unknown", map["index" := DecimalString(reference), "dependencies" := ""], [])
  }

  function InitialUnknown(reference: nat): Element {
    Element("Unknown", map["index" := DecimalString(reference)], [])
  }

  /** Inputs numbered from 1, then outputs numbered on from there. */
  function ScalarVariables(inputs: seq<string>, outputs: seq<string>): seq<Element> {
    seq(|inputs|, i requires 0 <= i < |inputs| => InputVariable(inputs[i], i + 1))
    + seq(|outputs|, j requires 0 <= j < |outputs| => OutputVariable(outputs[j], |inputs| + 1 + j))
  }

  function OutputUnknowns(nInputs: nat, nOutputs: nat): seq<Element> {
    seq(nOutputs, j requires 0 <= j < nOutputs => OutputUnknown(nInputs + 1 + j))
  }

  function InitialUnknowns(nInputs: nat, nOutputs: nat): seq<Element> {
    seq(nOutputs, j requires 0 <= j < nOutputs => InitialUnknown(nInputs + 1 + j))
  }

  /** The whole `fmiModelDescription` tree. */
  function Description(modelName: string, modelIdentifier: string, guid: string, toolVersion: string,
                       timestamp: string, inputs: seq<string>, outputs: seq<string>): Element
  {
    Element("fmiModelDescription",
      map["fmiVersion" := "2.0", "modelName" := modelName, "guid" := guid,
          "generationTool" := "autofmu " + toolVersion, "generationDateAndTime" := timestamp],
      [ Interface("ModelExchange", modelIdentifier),
        Interface("CoSimulation", modelIdentifier),
        LogCategories(),
        Element("ModelVariables", map[], ScalarVariables(inputs, outputs)),
        Element("ModelStructure", map[],
          [ Element("Outputs", map[], OutputUnknowns(|inputs|, |outputs|)),
            Element("InitialUnknowns", map[], InitialUnknowns(|inputs|, |outputs|)) ]) ])
  }

  // ---------------------------------------------------------------------
  // Which attribute values lxml accepts.

  /** lxml refuses an attribute value holding NUL or another control
      character below U+0020 other than tab, line feed and carriage return
      (it raises `ValueError`). */
  predicate XmlChar(c: char) {
    c == '\t' || c == '\n' || c == '\r' || c >= ' '
  }

  predicate XmlText(s: string) {
    forall i :: 0 <= i < |s| ==> XmlChar(s[i])
  }

  predicate AllXmlText(ss: seq<string>) {
    forall i :: 0 <= i < |ss| ==> XmlText(ss[i])
  }

  /** Every attribute value the builder hands to lxml is one it accepts:
      those of the root (generator.py:37-46), the identifier and the source
      file name (49-64), and the variable names (82-95). The other values
      are fixed strings or decimals. */
  predicate Describable(modelName: string, modelIdentifier: string, guid: string, toolVersion: string,
                        timestamp: string, inputs: seq<string>, outputs: seq<string>)
  {
    && XmlText(modelName) && XmlText(guid) && XmlText("autofmu " + toolVersion) && XmlText(timestamp)
    && XmlText(modelIdentifier) && XmlText(modelIdentifier + ".c")
    && AllXmlText(inputs) && AllXmlText(outputs)
  }

  /** The `ValueError` lxml raises for a value it refuses. */
  datatype DescriptionError = NotXmlCompatible

  /** The fixed strings and a decimal never hold a control character, so
      the `.c` suffix and the `autofmu ` prefix decide
      nothing: only the caller's texts can be refused. */
  lemma {:induction false} DescribableIff(modelName: string, modelIdentifier: string, guid: string, toolVersion: string,
                                          timestamp: string, inputs: seq<string>, outputs: seq<string>)
    ensures Describable(modelName, modelIdentifier, guid, toolVersion, timestamp, inputs, outputs)
        <==> (&& XmlText(modelName) && XmlText(guid) && XmlText(toolVersion) && XmlText(timestamp)
              && XmlText(modelIdentifier) && AllXmlText(inputs) && AllXmlText(outputs))
  {
    var pre := "autofmu ";
    assert forall i :: 0 <= i < |toolVersion| ==> (pre + toolVersion)[|pre| + i] == toolVersion[i];
    assert forall i :: 0 <= i < |modelIdentifier| ==> (modelIdentifier + ".c")[i] == modelIdentifier[i];
  }

  /** The builder as the source runs it: the fixed part first, then one loop
      over the inputs and one over the outputs, each appending to the
      children of `ModelVariables`, `Outputs` and `InitialUnknowns`. A value
      lxml refuses stops it with the error. */
  method GenerateModelDescription(modelName: string, modelIdentifier: string, guid: string,
                                  toolVersion: string, timestamp: string,
                                  inputs: seq<string>, outputs: seq<string>)
    returns (r: Result<Element, DescriptionError>)
    ensures r.Success? <==> Describable(modelName, modelIdentifier, guid, toolVersion, timestamp, inputs, outputs)
    ensures r.Success? ==> r.value == Description(modelName, modelIdentifier, guid, toolVersion, timestamp, inputs, outputs)
    ensures r.Failure? ==> r.error == NotXmlCompatible
  {
    if !(XmlText(modelName) && XmlText(guid) && XmlText("autofmu " + toolVersion) && XmlText(timestamp)) {
      return Failure(NotXmlCompatible);
    }
    if !(XmlText(modelIdentifier) && XmlText(modelIdentifier + ".c")) {
      return Failure(NotXmlCompatible);
    }
    var modelExchange := Interface("ModelExchange", modelIdentifier);
    var coSimulation := Interface("CoSimulation", modelIdentifier);
    var logCategories := LogCategories();

    var modelVariables: seq<Element> := [];
    var structureOutputs: seq<Element> := [];
    var structureInitialUnknowns: seq<Element> := [];

    var index := 1;
    while index <= |inputs|
      invariant 1 <= index <= |inputs| + 1
      invariant modelVariables == seq(index - 1, i requires 0 <= i < index - 1 => InputVariable(inputs[i], i + 1))
      invariant forall i :: 0 <= i < index - 1 ==> XmlText(inputs[i])
    {
      if !XmlText(inputs[index - 1]) {
        return Failure(NotXmlCompatible);
      }
      modelVariables := modelVariables + [InputVariable(inputs[index - 1], index)];
      index := index + 1;
    }
    assert modelVariables == ScalarVariables(inputs, outputs)[..|inputs|];

    var position := 0;
    index := |inputs| + 1;
    while position < |outputs|
      invariant 0 <= position <= |outputs| && index == |inputs| + 1 + position
      invariant modelVariables == ScalarVariables(inputs, outputs)[..|inputs| + position]
      invariant structureOutputs == OutputUnknowns(|inputs|, |outputs|)[..position]
      invariant structureInitialUnknowns == InitialUnknowns(|inputs|, |outputs|)[..position]
      invariant forall j :: 0 <= j < position ==> XmlText(outputs[j])
    {
      if !XmlText(outputs[position]) {
        return Failure(NotXmlCompatible);
      }
      modelVariables := modelVariables + [OutputVariable(outputs[position], index)];
      structureOutputs := structureOutputs + [OutputUnknown(index)];
      structureInitialUnknowns := structureInitialUnknowns + [InitialUnknown(index)];
      assert ScalarVariables(inputs, outputs)[..|inputs| + position + 1]
          == ScalarVariables(inputs, outputs)[..|inputs| + position] + [OutputVariable(outputs[position], index)];
      assert OutputUnknowns(|inputs|, |outputs|)[..position + 1]
          == OutputUnknowns(|inputs|, |outputs|)[..position] + [OutputUnknown(index)];
      assert InitialUnknowns(|inputs|, |outputs|)[..position + 1]
          == InitialUnknowns(|inputs|, |outputs|)[..position] + [InitialUnknown(index)];
      position := position + 1;
      index := index + 1;
    }
    assert modelVariables == ScalarVariables(inputs, outputs);
    assert structureOutputs == OutputUnknowns(|inputs|, |outputs|);
    assert structureInitialUnknowns == InitialUnknowns(|inputs|, |outputs|);

    var tree := Element("fmiModelDescription",
      map["fmiVersion" := "2.0", "modelName" := modelName, "guid" := guid,
          "generationTool" := "autofmu " + toolVersion, "generationDateAndTime" := timestamp],
      [ modelExchange, coSimulation, logCategories,
        Element("ModelVariables", map[], modelVariables),
        Element("ModelStructure", map[],
          [ Element("Outputs", map[], structureOutputs),
            Element("InitialUnknowns", map[], structureInitialUnknowns) ]) ]);
    return Success(tree);
  }

  // ---------------------------------------------------------------------
  // What the tree says (src/autofmu/generator.py:37-105).

  /** The `k`-th variable: an input numbered `k + 1`, or an output numbered
      `k + 1`. */
  lemma VariableAt(inputs: seq<string>, outputs: seq<string>, k: nat)
    requires k < |inputs| + |outputs|
    ensures |ScalarVariables(inputs, outputs)| == |inputs| + |outputs|
    ensures ScalarVariables(inputs, outputs)[k]
         == if k < |inputs| then InputVariable(inputs[k], k + 1) else OutputVariable(outputs[k - |inputs|], k + 1)
  {
  }

  /** Where the three lists live in the tree. */
  lemma Sections(modelName: string, modelIdentifier: string, guid: string, toolVersion: string,
                 timestamp: string, inputs: seq<string>, outputs: seq<string>)
    ensures var d := Description(modelName, modelIdentifier, guid, toolVersion, timestamp, inputs, outputs);
      && FindChild(d, "ModelVariables") == Some(Element("ModelVariables", map[], ScalarVariables(inputs, outputs)))
      && FindChild(d, "ModelStructure").Some?
      && var ms := FindChild(d, "ModelStructure").value;
      && FindChild(ms, "Outputs") == Some(Element("Outputs", map[], OutputUnknowns(|inputs|, |outputs|)))
      && FindChild(ms, "InitialUnknowns") == Some(Element("InitialUnknowns", map[], InitialUnknowns(|inputs|, |outputs|)))
  {
    var d := Description(modelName, modelIdentifier, guid, toolVersion, timestamp, inputs, outputs);
    FindChildAt(d, "ModelVariables", 3);
    FindChildAt(d, "ModelStructure", 4);
    var ms := d.children[4];
    FindChildAt(ms, "Outputs", 0);
    FindChildAt(ms, "InitialUnknowns", 1);
  }

  /** The root: FMI version 2.0, the model's name and guid, the tool and the
      time stamp, and its five sections in this order. */
  lemma RootOfDescription(modelName: string, modelIdentifier: string, guid: string, toolVersion: string,
                          timestamp: string, inputs: seq<string>, outputs: seq<string>)
    ensures var d := Description(modelName, modelIdentifier, guid, toolVersion, timestamp, inputs, outputs);
      && d.tag == "fmiModelDescription"
      && d.attrib.Keys == {"fmiVersion", "modelName", "guid", "generationTool", "generationDateAndTime"}
      && Attr(d, "fmiVersion") == Some("2.0")
      && Attr(d, "modelName") == Some(modelName)
      && Attr(d, "guid") == Some(guid)
      && Attr(d, "generationTool") == Some("autofmu " + toolVersion)
      && Attr(d, "generationDateAndTime") == Some(timestamp)
      && Tags(d.children) == ["ModelExchange", "CoSimulation", "LogCategories", "ModelVariables", "ModelStructure"]
  {
  }

  /** An interface element that names the model identifier and lists exactly
      one source file, `{modelIdentifier}.c`. */
  predicate DeclaresSourceFile(e: Option<Element>, modelIdentifier: string) {
    && e.Some?
    && Attr(e.value, "modelIdentifier") == Some(modelIdentifier)
    && |e.value.children| == 1
    && var sourceFiles := FindChild(e.value, "SourceFiles");
    && sourceFiles.Some?
    && |sourceFiles.value.children| == 1
    && sourceFiles.value.children[0].tag == "File"
    && Attr(sourceFiles.value.children[0], "name") == Some(modelIdentifier + ".c")
  }

  /** Both Model Exchange and Co-Simulation declare the identifier and its
      single C file. */
  lemma InterfacesDeclareSourceFile(modelName: string, modelIdentifier: string, guid: string, toolVersion: string,
                                    timestamp: string, inputs: seq<string>, outputs: seq<string>)
    ensures var d := Description(modelName, modelIdentifier, guid, toolVersion, timestamp, inputs, outputs);
      && DeclaresSourceFile(FindChild(d, "ModelExchange"), modelIdentifier)
      && DeclaresSourceFile(FindChild(d, "CoSimulation"), modelIdentifier)
  {
    var d := Description(modelName, modelIdentifier, guid, toolVersion, timestamp, inputs, outputs);
    FindChildAt(d, "ModelExchange", 0);
    FindChildAt(d, "CoSimulation", 1);
    FindChildAt(d.children[0], "SourceFiles", 0);
    FindChildAt(d.children[1], "SourceFiles", 0);
  }

  /** The four log categories, always the same and in this order. */
  lemma FixedLogCategories(modelName: string, modelIdentifier: string, guid: string, toolVersion: string,
                           timestamp: string, inputs: seq<string>, outputs: seq<string>)
    ensures var d := Description(modelName, modelIdentifier, guid, toolVersion, timestamp, inputs, outputs);
      && FindChild(d, "LogCategories").Some?
      && var cs := FindChild(d, "LogCategories").value.children;
      && Tags(cs) == ["Category", "Category", "Category", "Category"]
      && seq(|cs|, i requires 0 <= i < |cs| => Attr(cs[i], "name"))
         == [Some("logAll"), Some("logError"), Some("logFmiCall"), Some("logEvent")]
  {
    var d := Description(modelName, modelIdentifier, guid, toolVersion, timestamp, inputs, outputs);
    FindChildAt(d, "LogCategories", 2);
  }

  /** One `ScalarVariable` per name, inputs first and then outputs, each in
      the order given. */
  lemma OneVariablePerName(modelName: string, modelIdentifier: string, guid: string, toolVersion: string,
                           timestamp: string, inputs: seq<string>, outputs: seq<string>)
    ensures var d := Description(modelName, modelIdentifier, guid, toolVersion, timestamp, inputs, outputs);
      && FindChild(d, "ModelVariables").Some?
      && var vs := FindChild(d, "ModelVariables").value.children;
      && |vs| == |inputs| + |outputs|
      && (forall k :: 0 <= k < |vs| ==> vs[k].tag == "ScalarVariable")
      && (forall k :: 0 <= k < |vs| ==> Attr(vs[k], "name") == Some((inputs + outputs)[k]))
  {
    Sections(modelName, modelIdentifier, guid, toolVersion, timestamp, inputs, outputs);
    var vs := ScalarVariables(inputs, outputs);
    forall k | 0 <= k < |vs|
      ensures vs[k].tag == "ScalarVariable" && Attr(vs[k], "name") == Some((inputs + outputs)[k])
    {
      VariableAt(inputs, outputs, k);
    }
  }

  /** A numeric attribute, read as a number. */
  function NumberAttr(e: Element, key: string): (r: Option<nat>)
    ensures r.Some? ==> key in e.attrib && ParseDecimal(e.attrib[key]) == r
  {
    match Attr(e, key)
    case None => None
    case Some(text) => ParseDecimal(text)
  }

  /** The `j`-th entry of `Outputs` and of `InitialUnknowns` name the
      reference `nInputs + 1 + j`. */
  lemma UnknownAt(nInputs: nat, nOutputs: nat, j: nat)
    requires j < nOutputs
    ensures |OutputUnknowns(nInputs, nOutputs)| == nOutputs == |InitialUnknowns(nInputs, nOutputs)|
    ensures OutputUnknowns(nInputs, nOutputs)[j] == OutputUnknown(nInputs + 1 + j)
    ensures InitialUnknowns(nInputs, nOutputs)[j] == InitialUnknown(nInputs + 1 + j)
  {
  }

  /** Value references count up from 1 in document order, so inputs get
      `1..|inputs|` and outputs the numbers after. */
  lemma {:induction false} ReferencesCountFromOne(inputs: seq<string>, outputs: seq<string>, vs: seq<Element>)
    requires vs == ScalarVariables(inputs, outputs)
    ensures forall k :: 0 <= k < |vs| ==> NumberAttr(vs[k], "valueReference") == Some(k + 1)
  {
    forall k | 0 <= k < |vs|
      ensures NumberAttr(vs[k], "valueReference") == Some(k + 1)
    {
      VariableAt(inputs, outputs, k);
      ParseDecimalString(k + 1);
    }
  }

  /** A numeric attribute of each element of a list, in order. */
  function NumberAttrs(es: seq<Element>, key: string): (ns: seq<Option<nat>>)
    ensures |ns| == |es| && forall i :: 0 <= i < |es| ==> ns[i] == NumberAttr(es[i], key)
  {
    seq(|es|, i requires 0 <= i < |es| => NumberAttr(es[i], key))
  }

  /** The value references are exactly `1..N`: every one is in range, every
      number in range is used, and no two variables share one. */
  lemma ReferencesAreOneToN(inputs: seq<string>, outputs: seq<string>, vs: seq<Element>)
    requires vs == ScalarVariables(inputs, outputs)
    ensures forall k :: 0 <= k < |vs| ==>
      NumberAttr(vs[k], "valueReference").Some? && 1 <= NumberAttr(vs[k], "valueReference").value <= |vs|
    ensures forall n :: 1 <= n <= |vs| ==> Some(n) in NumberAttrs(vs, "valueReference")
    ensures forall k, l :: 0 <= k < |vs| && 0 <= l < |vs| && Attr(vs[k], "valueReference") == Attr(vs[l], "valueReference") ==> k == l
  {
    ReferencesCountFromOne(inputs, outputs, vs);
    var refs := NumberAttrs(vs, "valueReference");
    forall n | 1 <= n <= |vs|
      ensures Some(n) in refs
    {
      assert refs[n - 1] == Some(n);
    }
    forall k, l | 0 <= k < |vs| && 0 <= l < |vs| && Attr(vs[k], "valueReference") == Attr(vs[l], "valueReference")
      ensures k == l
    {
      assert NumberAttr(vs[k], "valueReference") == NumberAttr(vs[l], "valueReference");
    }
  }

  /** Inputs are `causality="input"` with a `Real` that starts at `0.0`;
      outputs are `causality="output"` with a bare `Real`. Only inputs carry
      a start value. */
  lemma CausalityAndStart(inputs: seq<string>, outputs: seq<string>, vs: seq<Element>)
    requires vs == ScalarVariables(inputs, outputs)
    ensures forall k :: 0 <= k < |vs| ==>
        && Attr(vs[k], "causality") == Some(if k < |inputs| then "input" else "output")
        && |vs[k].children| == 1 && vs[k].children[0].tag == "Real"
        && (Attr(vs[k].children[0], "start").Some? <==> k < |inputs|)
        && (k < |inputs| ==> vs[k].children[0].attrib == map["start" := "0.0"])
        && (k >= |inputs| ==> vs[k].children[0].attrib == map[])
  {
    forall k | 0 <= k < |vs|
      ensures Attr(vs[k], "causality") == Some(if k < |inputs| then "input" else "output")
      ensures |vs[k].children| == 1 && vs[k].children[0].tag == "Real"
      ensures Attr(vs[k].children[0], "start").Some? <==> k < |inputs|
      ensures k < |inputs| ==> vs[k].children[0].attrib == map["start" := "0.0"]
      ensures k >= |inputs| ==> vs[k].children[0].attrib == map[]
    {
      VariableAt(inputs, outputs, k);
    }
  }

  /** `ModelStructure/Outputs` and `InitialUnknowns` list the outputs, one
      `Unknown` each and in output order, by their value references; only
      `Outputs` carries the (empty) `dependencies`. */
  lemma StructureMirrorsOutputs(inputs: seq<string>, outputs: seq<string>,
                                vs: seq<Element>, outs: seq<Element>, inits: seq<Element>)
    requires vs == ScalarVariables(inputs, outputs)
    requires outs == OutputUnknowns(|inputs|, |outputs|) && inits == InitialUnknowns(|inputs|, |outputs|)
    ensures |outs| == |outputs| && |inits| == |outputs|
      && forall j :: 0 <= j < |outputs| ==>
        && outs[j].tag == "Unknown" && inits[j].tag == "Unknown"
        && Attr(outs[j], "index") == Attr(vs[|inputs| + j], "valueReference")
        && Attr(outs[j], "dependencies") == Some("")
        && outs[j].attrib.Keys == {"index", "dependencies"}
        && inits[j].attrib == map["index" := vs[|inputs| + j].attrib["valueReference"]]
  {
    forall j | 0 <= j < |outputs|
      ensures outs[j].tag == "Unknown" && inits[j].tag == "Unknown"
      ensures Attr(outs[j], "index") == Attr(vs[|inputs| + j], "valueReference")
      ensures Attr(outs[j], "dependencies") == Some("")
      ensures outs[j].attrib.Keys == {"index", "dependencies"}
      ensures inits[j].attrib == map["index" := vs[|inputs| + j].attrib["valueReference"]]
    {
      VariableAt(inputs, outputs, |inputs| + j);
      UnknownAt(|inputs|, |outputs|, j);
    }
  }

  /** Read the way the FMI 2.0 standard reads it, `index` is the position of
      a variable in `ModelVariables` counted from 1. Because value references
      count from 1 as well, every `Unknown` points at an output variable, and
      every output variable is pointed at. */
  lemma UnknownsIndexOutputs(inputs: seq<string>, outputs: seq<string>, vs: seq<Element>, outs: seq<Element>)
    requires vs == ScalarVariables(inputs, outputs) && outs == OutputUnknowns(|inputs|, |outputs|)
    ensures forall j :: 0 <= j < |outs| ==>
      var p := NumberAttr(outs[j], "index");
      && p.Some? && 1 <= p.value <= |vs|
      && Attr(vs[p.value - 1], "causality") == Some("output")
      && Attr(vs[p.value - 1], "name") == Some(outputs[j])
    ensures forall k :: 0 <= k < |vs| && Attr(vs[k], "causality") == Some("output") ==>
      Some(k + 1) in NumberAttrs(outs, "index")
  {
    forall j | 0 <= j < |outs|
      ensures NumberAttr(outs[j], "index") == Some(|inputs| + 1 + j)
      ensures Attr(vs[|inputs| + j], "causality") == Some("output")
      ensures Attr(vs[|inputs| + j], "name") == Some(outputs[j])
    {
      UnknownIndexAt(inputs, outputs, j);
    }
    forall k | 0 <= k < |vs| && Attr(vs[k], "causality") == Some("output")
      ensures Some(k + 1) in NumberAttrs(outs, "index")
    {
      VariableAt(inputs, outputs, k);
      assert k >= |inputs|;
      UnknownIndexAt(inputs, outputs, k - |inputs|);
      assert NumberAttrs(outs, "index")[k - |inputs|] == Some(k + 1);
    }
  }

  /** The `j`-th `Unknown` of `Outputs` reads as the reference of output
      `j`. */
  lemma UnknownIndexAt(inputs: seq<string>, outputs: seq<string>, j: nat)
    requires j < |outputs|
    ensures var vs, outs := ScalarVariables(inputs, outputs), OutputUnknowns(|inputs|, |outputs|);
      && |vs| == |inputs| + |outputs| && |outs| == |outputs|
      && NumberAttr(outs[j], "index") == Some(|inputs| + 1 + j)
      && Attr(vs[|inputs| + j], "causality") == Some("output")
      && Attr(vs[|inputs| + j], "name") == Some(outputs[j])
  {
    VariableAt(inputs, outputs, |inputs| + j);
    UnknownAt(|inputs|, |outputs|, j);
    ParseDecimalString(|inputs| + 1 + j);
  }
}
