/** The runtime of src/autofmu/sources/fmi2Functions.c, the C file every
    generated FMU carries, instantiated for one guid and one list of inputs
    and outputs.

    The file keeps all its state in the global buffer `VARIABLES`, one slot
    per variable, and answers `fmi2GetReal` from the table `R` of
    relationship functions, one per output, each of which returns `0.0`.
    `fmi2Real` is the type parameter `Real`; values of it are only copied,
    and `zero` stands for `0.0`. Strings are sequences, a null pointer is
    `None`, and the component handle `fmi2Instantiate` returns is an
    option. */
module Fmi2Functions {
  import opened Wrappers

  /** `fmi2Status`. */
  datatype Status = OK | Warning | Discard | Error | Fatal | Pending

  /** Which members of `fmi2CallbackFunctions` are set. */
  datatype Callbacks = Callbacks(hasLogger: bool, hasAllocateMemory: bool, hasFreeMemory: bool)

  /** One call of the `logger` callback: instance name, status, category,
      message format and the arguments after it. */
  datatype LogCall = LogCall(instanceName: string, status: Status, category: string, message: string, args: seq<string>)

  /** The component handle. The file keeps no per-instance state, so every
      successful instantiation hands out the same handle. */
  datatype Component = Component

  /** `R_{output}`: the relationship function generated for one output. */
  datatype Relationship = Relationship(output: string)

  /** The `R` table: one relationship per output, in output order. */
  function RelationshipTable(outputs: seq<string>): (table: seq<Relationship>)
    ensures |table| == |outputs| && forall j :: 0 <= j < |outputs| ==> table[j].output == outputs[j]
  {
    seq(|outputs|, j requires 0 <= j < |outputs| => Relationship(outputs[j]))
  }

  /** `fmi2GetTypesPlatform`: the `fmi2TypesPlatform` of the FMI 2.0 headers. */
  function GetTypesPlatform(): (platform: string)
    ensures platform == "default"
  {
    "default"
  }

  /** `fmi2GetVersion`: the `fmi2Version` of the FMI 2.0 headers. */
  function GetVersion(): (version: string)
    ensures version == "2.0"
  {
    "2.0"
  }

  /** The entry points whose body is `return fmi2OK;`. */
  datatype StatelessEntry =
    | SetDebugLogging | SetupExperiment | EnterInitializationMode | ExitInitializationMode
    | Terminate | Reset | GetInteger | GetBoolean | GetString | SetInteger | SetBoolean | SetString
    | GetFMUstate | SetFMUstate | FreeFMUstate | SerializedFMUstateSize | SerializeFMUstate
    | DeSerializeFMUstate | GetDirectionalDerivative | SetRealInputDerivatives
    | GetRealOutputDerivatives | DoStep | CancelStep | GetStatus | GetRealStatus
    | GetIntegerStatus | GetBooleanStatus | GetStringStatus

  // ---------------------------------------------------------------------
  // fmi2Instantiate (src/autofmu/sources/fmi2Functions.c:49-105).

  predicate Present(s: Option<string>) {
    s.Some? && s.value != ""
  }

  /** The log call of every check that fails, in the order the checks are
      written. The instance name is `"?"` when it is itself missing. */
  function Failures(instanceName: Option<string>, callbacks: Callbacks, fmuGuid: Option<string>,
                    guid: string): seq<LogCall>
  {
    var name := if Present(instanceName) then instanceName.value else "?";
    (if !Present(instanceName)
     then [LogCall("?", Error, "error", "fmi2Instantiate: Missing instance name.", [])] else [])
    + (if !callbacks.hasAllocateMemory || !callbacks.hasFreeMemory
       then [LogCall(name, Error, "error", "fmi2Instantiate: Missing callback function.", [])] else [])
    + (if !Present(fmuGuid)
       then [LogCall(name, Error, "error", "fmi2Instantiate: Missing GUID.", [])] else [])
    + (if Present(fmuGuid) && fmuGuid.value != guid
       then [LogCall(name, Error, "error", "fmi2Instantiate: Wrong GUID %s. Expected %s.", [fmuGuid.value, guid])]
       else [])
  }

  /** `fmi2Instantiate` for the embedded `GUID`: without a logger nothing is
      checked and nothing logged; otherwise the first failing check is
      logged, once, and instantiation fails; with no failing check it
      succeeds silently. */
  method Instantiate(guid: string, instanceName: Option<string>, callbacks: Callbacks, fmuGuid: Option<string>)
    returns (component: Option<Component>, log: seq<LogCall>)
    ensures !callbacks.hasLogger ==> component.None? && log == []
    ensures callbacks.hasLogger ==>
              var failures := Failures(instanceName, callbacks, fmuGuid, guid);
              && (component.Some? <==> failures == [])
              && log == (if failures == [] then [] else [failures[0]])
  {
    if !callbacks.hasLogger {
      return None, [];
    }
    if instanceName.None? || |instanceName.value| == 0 {
      return None, [LogCall("?", Error, "error", "fmi2Instantiate: Missing instance name.", [])];
    }
    var name := instanceName.value;
    if !callbacks.hasAllocateMemory || !callbacks.hasFreeMemory {
      return None, [LogCall(name, Error, "error", "fmi2Instantiate: Missing callback function.", [])];
    }
    if fmuGuid.None? || |fmuGuid.value| == 0 {
      return None, [LogCall(name, Error, "error", "fmi2Instantiate: Missing GUID.", [])];
    }
    if fmuGuid.value != guid {
      return None, [LogCall(name, Error, "error", "fmi2Instantiate: Wrong GUID %s. Expected %s.", [fmuGuid.value, guid])];
    }
    return Some(Component), [];
  }

  /** Instantiation succeeds exactly when there is a logger, a non-empty
      instance name, both memory callbacks, and the embedded guid. */
  lemma InstantiateSucceedsIff(guid: string, instanceName: Option<string>, callbacks: Callbacks, fmuGuid: Option<string>)
    ensures Failures(instanceName, callbacks, fmuGuid, guid) == []
        <==> Present(instanceName) && callbacks.hasAllocateMemory && callbacks.hasFreeMemory && fmuGuid == Some(guid) && guid != ""
  {
  }

  /** A failed check logs `fmi2Error` under category `error`, and any check
      after the first failing one is never reached: a wrong GUID is only
      reported when the name, the callbacks and the GUID are present. */
  lemma FirstFailureWins(guid: string, instanceName: Option<string>, callbacks: Callbacks, fmuGuid: Option<string>)
    ensures var failures := Failures(instanceName, callbacks, fmuGuid, guid);
      && (forall i :: 0 <= i < |failures| ==> failures[i].status == Error && failures[i].category == "error")
      && (!Present(instanceName) ==> failures[0].message == "fmi2Instantiate: Missing instance name." && failures[0].instanceName == "?")
      && (Present(instanceName) && !(callbacks.hasAllocateMemory && callbacks.hasFreeMemory) ==>
            failures[0] == LogCall(instanceName.value, Error, "error", "fmi2Instantiate: Missing callback function.", []))
      && (Present(instanceName) && callbacks.hasAllocateMemory && callbacks.hasFreeMemory && !Present(fmuGuid) ==>
            failures == [LogCall(instanceName.value, Error, "error", "fmi2Instantiate: Missing GUID.", [])])
      && (Present(instanceName) && callbacks.hasAllocateMemory && callbacks.hasFreeMemory && Present(fmuGuid)
          && fmuGuid.value != guid ==>
            failures == [LogCall(instanceName.value, Error, "error", "fmi2Instantiate: Wrong GUID %s. Expected %s.",
                                 [fmuGuid.value, guid])])
  {
  }

  // ---------------------------------------------------------------------
  // fmi2SetReal: a sequence of writes into VARIABLES.

  /** The buffer after writing `values[i]` at `refs[i]` for `i` = 0, 1, …
      in turn. */
  function Assigned<Real>(buffer: seq<Real>, refs: seq<nat>, values: seq<Real>): (after: seq<Real>)
    requires |refs| <= |values|
    requires forall i :: 0 <= i < |refs| ==> refs[i] < |buffer|
    ensures |after| == |buffer|
    decreases |refs|
  {
    if refs == [] then buffer
    else
      var n := |refs| - 1;
      Assigned(buffer, refs[..n], values)[refs[n] := values[n]]
  }

  /** The last position at which `refs` holds `k`, if any. */
  function LastIndexOf(refs: seq<nat>, k: nat): (r: Option<nat>)
    ensures r.Some? ==> r.value < |refs| && refs[r.value] == k
                        && forall i :: r.value < i < |refs| ==> refs[i] != k
    ensures r.None? ==> forall i :: 0 <= i < |refs| ==> refs[i] != k
  {
    if refs == [] then None
    else if refs[|refs| - 1] == k then Some(|refs| - 1)
    else LastIndexOf(refs[..|refs| - 1], k)
  }

  /** Last write wins: each slot ends up with the value of the last write to
      it, or keeps its old value when no write names it. */
  lemma {:induction false} AssignedLastWriteWins<Real>(buffer: seq<Real>, refs: seq<nat>, values: seq<Real>, k: nat)
    requires |refs| <= |values|
    requires forall i :: 0 <= i < |refs| ==> refs[i] < |buffer|
    requires k < |buffer|
    ensures Assigned(buffer, refs, values)[k]
         == match LastIndexOf(refs, k) case None => buffer[k] case Some(i) => values[i]
    decreases |refs|
  {
    if refs != [] {
      var n := |refs| - 1;
      AssignedLastWriteWins(buffer, refs[..n], values, k);
    }
  }

  /** The slot of `VARIABLES` that holds the variable with 1-based value
      reference `ref`. */
  function SlotOf(ref: nat): (slot: nat)
    requires ref >= 1
    ensures slot + 1 == ref
  {
    ref - 1
  }

  /** The entry of `R` that answers for the output with 1-based value
      reference `ref`, past the `nInputs` inputs. */
  function RelationshipIndexOf(ref: nat, nInputs: nat): (index: nat)
    requires ref > nInputs
    ensures nInputs + index + 1 == ref
  {
    ref - nInputs - 1
  }

  function Slots(refs: seq<nat>): (slots: seq<nat>)
    requires forall i :: 0 <= i < |refs| ==> refs[i] >= 1
    ensures |slots| == |refs| && forall i :: 0 <= i < |refs| ==> slots[i] == SlotOf(refs[i])
  {
    seq(|refs|, i requires 0 <= i < |refs| => SlotOf(refs[i]))
  }

  /** A generated FMU at run time: the instantiated macros and the global
      buffer. */
  class Runtime<Real> {
    const guid: string
    const inputs: seq<string>
    const outputs: seq<string>
    const zero: Real
    /** `R[NOUTPUTS]`. */
    const R: seq<Relationship>
    /** `fmi2Real VARIABLES[NVARIABLES]`. */
    var variables: array<Real>

    /** `NINPUTS`, `NOUTPUTS`, `NVARIABLES`. */
    function NInputs(): nat { |inputs| }
    function NOutputs(): nat { |outputs| }
    function NVariables(): nat { |inputs + outputs| }

    ghost predicate Valid()
      reads this
    {
      variables.Length == NVariables() && R == RelationshipTable(outputs)
    }

    /** The template instantiated for a guid, inputs and outputs; the global
        buffer starts out zeroed, as C does for static storage. */
    constructor (guid: string, inputs: seq<string>, outputs: seq<string>, zero: Real)
      ensures Valid()
      ensures this.guid == guid && this.inputs == inputs && this.outputs == outputs && this.zero == zero
      ensures fresh(variables) && variables[..] == seq(|inputs| + |outputs|, _ => zero)
    {
      this.guid := guid;
      this.inputs := inputs;
      this.outputs := outputs;
      this.zero := zero;
      this.R := RelationshipTable(outputs);
      var buffer := new Real[|inputs| + |outputs|](_ => zero);
      this.variables := buffer;
    }

    /** The macros agree: one slot per input and per output, and one
        relationship per output naming it. */
    lemma MacrosAgree()
      requires Valid()
      ensures NVariables() == NInputs() + NOutputs() == variables.Length
      ensures |R| == NOutputs() && forall j :: 0 <= j < |R| ==> R[j] == Relationship(outputs[j])
    {
    }

    /** What `R[j](VARIABLES, NINPUTS)` returns: every generated relationship
        is `return 0.0;`. */
    function Apply(r: Relationship, buffer: seq<Real>, n: nat): (value: Real)
      ensures value == zero
    {
      zero
    }

    /** `fmi2SetReal`: `VARIABLES[vr[i]] = value[i]` for `i < nvr`, in
        order. The C code does not check bounds, so every reference must be a
        slot of `VARIABLES`. */
    method SetReal(vr: seq<nat>, nvr: nat, value: seq<Real>) returns (status: Status)
      requires Valid()
      requires nvr <= |vr| && nvr <= |value|
      requires forall i :: 0 <= i < nvr ==> vr[i] < NVariables()
      modifies variables
      ensures Valid()
      ensures status == OK
      ensures variables[..] == Assigned(old(variables[..]), vr[..nvr], value)
    {
      var i := 0;
      while i < nvr
        invariant 0 <= i <= nvr
        invariant variables[..] == Assigned(old(variables[..]), vr[..i], value)
      {
        assert vr[..i + 1][..i] == vr[..i];
        variables[vr[i]] := value[i];
        i := i + 1;
      }
      assert vr[..i] == vr[..nvr];
      return OK;
    }

    /** `fmi2GetReal`: `value[i] = R[vr[i]](VARIABLES, NINPUTS)` for
        `i < nvr`. Every reference must be an index of `R`; `VARIABLES` is
        only read. */
    method GetReal(vr: seq<nat>, nvr: nat, value: array<Real>) returns (status: Status)
      requires Valid()
      requires nvr <= |vr| && nvr <= value.Length && value != variables
      requires forall i :: 0 <= i < nvr ==> vr[i] < NOutputs()
      modifies value
      ensures Valid()
      ensures status == OK
      ensures forall i :: 0 <= i < nvr ==> vr[i] < |R| && value[i] == Apply(R[vr[i]], variables[..], NInputs()) == zero
      ensures forall i :: nvr <= i < value.Length ==> value[i] == old(value[i])
    {
      var i := 0;
      while i < nvr
        invariant 0 <= i <= nvr
        invariant forall j :: 0 <= j < i ==> value[j] == Apply(R[vr[j]], variables[..], NInputs())
        invariant forall j :: i <= j < value.Length ==> value[j] == old(value[j])
      {
        var r := R[vr[i]];
        value[i] := Apply(r, variables[..], NInputs());
        i := i + 1;
      }
      return OK;
    }

    /** `fmi2SetReal` indexed by value reference as the model description
        numbers them (`1..NVARIABLES`): reference `r` is slot `r - 1`. */
    method SetRealByReference(vr: seq<nat>, nvr: nat, value: seq<Real>) returns (status: Status)
      requires Valid()
      requires nvr <= |vr| && nvr <= |value|
      requires forall i :: 0 <= i < nvr ==> 1 <= vr[i] <= NVariables()
      modifies variables
      ensures Valid()
      ensures status == OK
      ensures variables[..] == Assigned(old(variables[..]), Slots(vr[..nvr]), value)
    {
      var i := 0;
      while i < nvr
        invariant 0 <= i <= nvr
        invariant variables[..] == Assigned(old(variables[..]), Slots(vr[..i]), value)
      {
        assert Slots(vr[..i + 1])[..i] == Slots(vr[..i]);
        variables[SlotOf(vr[i])] := value[i];
        i := i + 1;
      }
      assert vr[..i] == vr[..nvr];
      return OK;
    }

    /** `fmi2GetReal` indexed by value reference: the outputs carry the
        references `NINPUTS + 1 .. NVARIABLES`, so reference `r` is
        relationship `r - NINPUTS - 1`. */
    method GetRealByReference(vr: seq<nat>, nvr: nat, value: array<Real>) returns (status: Status)
      requires Valid()
      requires nvr <= |vr| && nvr <= value.Length && value != variables
      requires forall i :: 0 <= i < nvr ==> NInputs() < vr[i] <= NVariables()
      modifies value
      ensures Valid()
      ensures status == OK
      ensures forall i :: 0 <= i < nvr ==>
                RelationshipIndexOf(vr[i], NInputs()) < |R|
                && value[i] == Apply(R[RelationshipIndexOf(vr[i], NInputs())], variables[..], NInputs()) == zero
      ensures forall i :: nvr <= i < value.Length ==> value[i] == old(value[i])
    {
      var i := 0;
      while i < nvr
        invariant 0 <= i <= nvr
        invariant forall j :: 0 <= j < i ==>
                    value[j] == Apply(R[RelationshipIndexOf(vr[j], NInputs())], variables[..], NInputs())
        invariant forall j :: i <= j < value.Length ==> value[j] == old(value[j])
      {
        var r := R[RelationshipIndexOf(vr[i], NInputs())];
        value[i] := Apply(r, variables[..], NInputs());
        i := i + 1;
      }
      return OK;
    }

    /** `fmi2FreeInstance`: nothing to release, and the values stay as they
        were. */
    method FreeInstance(c: Option<Component>)
      ensures unchanged(this) && unchanged(variables)
    {
    }

    /** Every other entry point returns `fmi2OK` and touches no state. */
    method CallStateless(entry: StatelessEntry) returns (status: Status)
      ensures status == OK
    {
      return OK;
    }
  }
}
