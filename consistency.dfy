/** How the generated `modelDescription.xml` and the generated
    `fmi2Functions.c` fit together. Both are rendered from the same guid,
    inputs and outputs (src/autofmu/generator.py), so an importer reads the
    value references and the guid from the description and passes them to
    the C entry points. */
module Consistency {
  import opened Wrappers
  import opened ModelDescription
  import opened Fmi2Functions

  /** The value reference the description gives the variable at position
      `k` of `ModelVariables`. */
  function ReferenceOf(vs: seq<Element>, k: nat): Option<nat>
    requires k < |vs|
  {
    NumberAttr(vs[k], "valueReference")
  }

  /** As written, `fmi2SetReal` and `fmi2GetReal` index `VARIABLES` and `R`
      with the value reference itself, but the description numbers the
      references from 1. The reference of the last variable is therefore
      `NVARIABLES`, one past the end of `VARIABLES`, and when it is an
      output it is also past the end of `R`; every other reference names
      the slot of the next variable. */
  lemma {:induction false} DescriptionReferencesOverrun(inputs: seq<string>, outputs: seq<string>, vs: seq<Element>)
    requires vs == ScalarVariables(inputs, outputs)
    ensures forall k :: 0 <= k < |vs| ==> ReferenceOf(vs, k) == Some(k + 1)
    ensures |vs| > 0 ==> ReferenceOf(vs, |vs| - 1) == Some(|inputs + outputs|)
    ensures outputs != [] ==> ReferenceOf(vs, |vs| - 1).value >= |outputs|
  {
    ReferencesCountFromOne(inputs, outputs, vs);
    assert |vs| == |inputs + outputs|;
  }

  /** The smallest case: inputs `x`, `y` and output `z`. The description
      gives `z` the reference 3, while `VARIABLES` has the slots 0..2 and
      `R` the single entry 0, so neither as-written entry point accepts
      the reference the description advertises. */
  lemma TwoInputsOneOutput(vs: seq<Element>)
    requires vs == ScalarVariables(["x", "y"], ["z"])
    ensures Attr(vs[2], "name") == Some("z") && ReferenceOf(vs, 2) == Some(3)
    ensures |["x", "y"] + ["z"]| == 3 && |RelationshipTable(["z"])| == 1
  {
    DescriptionReferencesOverrun(["x", "y"], ["z"], vs);
    VariableAt(["x", "y"], ["z"], 2);
  }

  /** With the 1-based references, every reference of the description is
      one `SetRealByReference` accepts, and it lands in the slot of its own
      variable. */
  lemma {:induction false} ReferencesReachTheirSlots(inputs: seq<string>, outputs: seq<string>, vs: seq<Element>)
    requires vs == ScalarVariables(inputs, outputs)
    ensures forall k :: 0 <= k < |vs| ==>
      var r := ReferenceOf(vs, k);
      && r.Some? && 1 <= r.value <= |inputs + outputs|
      && SlotOf(r.value) == k
  {
    ReferencesCountFromOne(inputs, outputs, vs);
    assert |vs| == |inputs + outputs|;
  }

  /** Every output's reference is one `GetRealByReference` accepts, and it
      selects the relationship generated for that same output: the output
      at position `k` of `ModelVariables` is output `k - NINPUTS`. */
  lemma {:induction false} OutputReferencesReachTheirRelationship(inputs: seq<string>, outputs: seq<string>, vs: seq<Element>)
    requires vs == ScalarVariables(inputs, outputs)
    ensures |vs| == |inputs| + |outputs|
    ensures forall k :: |inputs| <= k < |vs| ==>
      var r := ReferenceOf(vs, k);
      && Attr(vs[k], "name") == Some(outputs[k - |inputs|])
      && r.Some? && |inputs| < r.value <= |inputs + outputs|
      && RelationshipTable(outputs)[RelationshipIndexOf(r.value, |inputs|)] == Relationship(outputs[k - |inputs|])
  {
    ReferencesCountFromOne(inputs, outputs, vs);
    forall k | |inputs| <= k < |vs|
      ensures Attr(vs[k], "name") == Some(outputs[k - |inputs|])
    {
      VariableAt(inputs, outputs, k);
    }
  }

  /** An importer that passes the guid of the description to
      `fmi2Instantiate`, with a name and all callbacks, gets an instance:
      the description and the C source carry the same guid. */
  lemma DescriptionGuidInstantiates(modelName: string, modelIdentifier: string, guid: string, toolVersion: string,
                                    timestamp: string, inputs: seq<string>, outputs: seq<string>,
                                    instanceName: string)
    requires guid != "" && instanceName != ""
    ensures var d := Description(modelName, modelIdentifier, guid, toolVersion, timestamp, inputs, outputs);
      Failures(Some(instanceName), Callbacks(true, true, true), Attr(d, "guid"), guid) == []
  {
    RootOfDescription(modelName, modelIdentifier, guid, toolVersion, timestamp, inputs, outputs);
    InstantiateSucceedsIff(guid, Some(instanceName), Callbacks(true, true, true),
      Attr(Description(modelName, modelIdentifier, guid, toolVersion, timestamp, inputs, outputs), "guid"));
  }
}
