/** The Data Manager: it classifies the registered field specs, checks that a
    distribution descriptor exists for every shape in use, creates the
    stateless state and the pair of stateful states, and routes lookups by
    step to one of them. */
module Peridigm {
  import opened Wrappers
  import opened FieldSpecs
  import opened Allocation

  /** A handle to one field's buffer, or the default null handle. A buffer
      is identified by the state that owns it; its extent is fixed by its
      shape and its descriptor. */
  datatype VectorRef = Null | Ref(owner: State, length: Length, distribution: Distribution, spec: FieldSpec)

  /** One time snapshot of storage. Only which specs it was given, per shape,
      and on which descriptor, is modelled. */
  class State {
    var scalarData: Option<Block>
    var vector3DData: Option<Block>
    var bondData: Option<Block>

    constructor ()
      ensures Holdings() == Contents(None, None, None)
    {
      scalarData, vector3DData, bondData := None, None, None;
    }

    /** What this state has been given to allocate. */
    function Holdings(): (c: Contents)
      reads this
    {
      Contents(scalarData, vector3DData, bondData)
    }

    method AllocateScalarData(specs: seq<FieldSpec>, distribution: Distribution)
      modifies this
      ensures Holdings() == old(Holdings()).(scalar := Some(Block(specs, distribution)))
    {
      scalarData := Some(Block(specs, distribution));
    }

    method AllocateVector3DData(specs: seq<FieldSpec>, distribution: Distribution)
      modifies this
      ensures Holdings() == old(Holdings()).(vector3D := Some(Block(specs, distribution)))
    {
      vector3DData := Some(Block(specs, distribution));
    }

    method AllocateBondData(specs: seq<FieldSpec>, distribution: Distribution)
      modifies this
      ensures Holdings() == old(Holdings()).(bond := Some(Block(specs, distribution)))
    {
      bondData := Some(Block(specs, distribution));
    }

    /** The buffer this state keeps for `spec`, or the null handle when it
        keeps none. */
    function GetData(spec: FieldSpec): (data: VectorRef)
      reads this
    {
      match Locate(Holdings(), spec)
      case None => Null
      case Some((length, distribution)) => Ref(this, length, distribution, spec)
    }
  }

  class DataManager {
    var fieldSpecs: seq<FieldSpec>
    var statelessScalarFieldSpecs: seq<FieldSpec>
    var statelessVector3DFieldSpecs: seq<FieldSpec>
    var statelessBondFieldSpecs: seq<FieldSpec>
    var statefulScalarFieldSpecs: seq<FieldSpec>
    var statefulVector3DFieldSpecs: seq<FieldSpec>
    var statefulBondFieldSpecs: seq<FieldSpec>
    var scalarMap: Option<Distribution>
    var vector3DMap: Option<Distribution>
    var bondMap: Option<Distribution>
    var stateNone: State?
    var stateN: State?
    var stateNP1: State?

    constructor ()
      ensures fieldSpecs == []
      ensures statelessScalarFieldSpecs == statelessVector3DFieldSpecs == statelessBondFieldSpecs == []
      ensures statefulScalarFieldSpecs == statefulVector3DFieldSpecs == statefulBondFieldSpecs == []
      ensures Maps() == Descriptors(None, None, None)
      ensures stateNone == null && stateN == null && stateNP1 == null
      ensures Valid()
    {
      fieldSpecs := [];
      statelessScalarFieldSpecs, statelessVector3DFieldSpecs, statelessBondFieldSpecs := [], [], [];
      statefulScalarFieldSpecs, statefulVector3DFieldSpecs, statefulBondFieldSpecs := [], [], [];
      scalarMap, vector3DMap, bondMap := None, None, None;
      stateNone, stateN, stateNP1 := null, null, null;
    }

    /** The three descriptor handles. */
    function Maps(): (maps: Descriptors)
      reads this
    {
      Descriptors(scalarMap, vector3DMap, bondMap)
    }

    /** The stateful states exist together, are distinct objects, and hold
        the same allocations. */
    ghost predicate Valid()
      reads this, stateN, stateNP1
    {
      (stateN == null <==> stateNP1 == null) &&
      (stateN != null ==> stateN != stateNP1 && stateN.Holdings() == stateNP1.Holdings())
    }

    method SetScalarMap(distribution: Option<Distribution>)
      modifies this`scalarMap
      ensures Maps() == old(Maps()).(scalar := distribution)
    {
      scalarMap := distribution;
    }

    method SetVector3DMap(distribution: Option<Distribution>)
      modifies this`vector3DMap
      ensures Maps() == old(Maps()).(vector3D := distribution)
    {
      vector3DMap := distribution;
    }

    method SetBondMap(distribution: Option<Distribution>)
      modifies this`bondMap
      ensures Maps() == old(Maps()).(bond := distribution)
    {
      bondMap := distribution;
    }

    /** Registers `specs`, classifies them, checks the descriptors and
        creates the states. On failure no state has been touched, but the
        spec list and the six lists are already reset and filled. */
    method AllocateData(specs: seq<FieldSpec>) returns (outcome: Outcome<AllocError>)
      modifies this
      ensures fieldSpecs == specs
      ensures statelessScalarFieldSpecs == Select(specs, Scalar, Stateless)
      ensures statelessVector3DFieldSpecs == Select(specs, Vector3D, Stateless)
      ensures statelessBondFieldSpecs == Select(specs, Bond, Stateless)
      ensures statefulScalarFieldSpecs == Select(specs, Scalar, Stateful)
      ensures statefulVector3DFieldSpecs == Select(specs, Vector3D, Stateful)
      ensures statefulBondFieldSpecs == Select(specs, Bond, Stateful)
      ensures Maps() == old(Maps())
      ensures Plan(specs, old(Maps())).Failure? ==>
        outcome == Fail(Plan(specs, old(Maps())).error) &&
        stateNone == old(stateNone) && stateN == old(stateN) && stateNP1 == old(stateNP1)
      ensures Plan(specs, old(Maps())).Success? ==>
        var layout := Plan(specs, old(Maps())).value;
        outcome == Pass &&
        (layout.stateless.None? ==> stateNone == old(stateNone)) &&
        (layout.stateless.Some? ==>
          stateNone != null && fresh(stateNone) && stateNone.Holdings() == layout.stateless.value) &&
        (layout.stateful.None? ==> stateN == old(stateN) && stateNP1 == old(stateNP1)) &&
        (layout.stateful.Some? ==>
          stateN != null && stateNP1 != null && fresh(stateN) && fresh(stateNP1) && stateN != stateNP1 &&
          stateN.Holdings() == layout.stateful.value && stateNP1.Holdings() == layout.stateful.value)
      ensures old(Valid()) ==> Valid()
    {
      fieldSpecs := specs;
      ClassifyFieldSpecs();
      ghost var plan := Decide(statelessScalarFieldSpecs, statelessVector3DFieldSpecs, statelessBondFieldSpecs,
                               statefulScalarFieldSpecs, statefulVector3DFieldSpecs, statefulBondFieldSpecs, Maps());
      assert plan == Plan(specs, old(Maps()));

      // The descriptors must exist before any state is created.
      if |statelessScalarFieldSpecs| + |statefulScalarFieldSpecs| > 0 && scalarMap.None? {
        return Fail(MissingMap(Scalar));
      }
      if |statelessVector3DFieldSpecs| + |statefulVector3DFieldSpecs| > 0 && vector3DMap.None? {
        return Fail(MissingMap(Vector3D));
      }
      if |statelessBondFieldSpecs| + |statefulBondFieldSpecs| > 0 && bondMap.None? {
        return Fail(MissingMap(Bond));
      }
      CreateStatelessState();
      CreateStatefulStates();
      outcome := Pass;
    }

    /** The classification loop: resets the six lists and appends each spec
        of `fieldSpecs` to the list of its category. */
    method ClassifyFieldSpecs()
      modifies this
      ensures statelessScalarFieldSpecs == Select(fieldSpecs, Scalar, Stateless)
      ensures statelessVector3DFieldSpecs == Select(fieldSpecs, Vector3D, Stateless)
      ensures statelessBondFieldSpecs == Select(fieldSpecs, Bond, Stateless)
      ensures statefulScalarFieldSpecs == Select(fieldSpecs, Scalar, Stateful)
      ensures statefulVector3DFieldSpecs == Select(fieldSpecs, Vector3D, Stateful)
      ensures statefulBondFieldSpecs == Select(fieldSpecs, Bond, Stateful)
      ensures fieldSpecs == old(fieldSpecs) && Maps() == old(Maps())
      ensures stateNone == old(stateNone) && stateN == old(stateN) && stateNP1 == old(stateNP1)
    {
      statelessScalarFieldSpecs, statelessVector3DFieldSpecs, statelessBondFieldSpecs := [], [], [];
      statefulScalarFieldSpecs, statefulVector3DFieldSpecs, statefulBondFieldSpecs := [], [], [];
      var specs := fieldSpecs;
      for i := 0 to |specs|
        invariant statelessScalarFieldSpecs == Select(specs[..i], Scalar, Stateless)
        invariant statelessVector3DFieldSpecs == Select(specs[..i], Vector3D, Stateless)
        invariant statelessBondFieldSpecs == Select(specs[..i], Bond, Stateless)
        invariant statefulScalarFieldSpecs == Select(specs[..i], Scalar, Stateful)
        invariant statefulVector3DFieldSpecs == Select(specs[..i], Vector3D, Stateful)
        invariant statefulBondFieldSpecs == Select(specs[..i], Bond, Stateful)
        invariant fieldSpecs == specs
        invariant scalarMap == old(scalarMap) && vector3DMap == old(vector3DMap) && bondMap == old(bondMap)
        invariant stateNone == old(stateNone) && stateN == old(stateN) && stateNP1 == old(stateNP1)
      {
        var spec := specs[i];
        assert specs[..i + 1][..i] == specs[..i];
        if spec.length == Scalar {
          if spec.architecture == Stateless {
            statelessScalarFieldSpecs := statelessScalarFieldSpecs + [spec];
          } else {
            statefulScalarFieldSpecs := statefulScalarFieldSpecs + [spec];
          }
        } else if spec.length == Vector3D {
          if spec.architecture == Stateless {
            statelessVector3DFieldSpecs := statelessVector3DFieldSpecs + [spec];
          } else {
            statefulVector3DFieldSpecs := statefulVector3DFieldSpecs + [spec];
          }
        } else if spec.length == Bond {
          if spec.architecture == Stateless {
            statelessBondFieldSpecs := statelessBondFieldSpecs + [spec];
          } else {
            statefulBondFieldSpecs := statefulBondFieldSpecs + [spec];
          }
        }
        // Any other length: the exception guard is given the constant
        // false, so nothing is raised and the spec is dropped.
      }
      assert specs[..|specs|] == specs;
    }

    /** Creates the stateless state from the three stateless lists, once the
        map checks have passed; nothing happens when there is no stateless
        scalar or vector3D spec. */
    method CreateStatelessState()
      requires |statelessScalarFieldSpecs| > 0 ==> scalarMap.Some?
      requires |statelessVector3DFieldSpecs| > 0 ==> vector3DMap.Some?
      requires |statelessBondFieldSpecs| > 0 ==> bondMap.Some?
      modifies this`stateNone
      ensures |statelessScalarFieldSpecs| + |statelessVector3DFieldSpecs| == 0 ==> stateNone == old(stateNone)
      ensures |statelessScalarFieldSpecs| + |statelessVector3DFieldSpecs| > 0 ==>
        stateNone != null && fresh(stateNone) &&
        stateNone.Holdings() == Filled(statelessScalarFieldSpecs, statelessVector3DFieldSpecs, statelessBondFieldSpecs, Maps())
    {
      if |statelessScalarFieldSpecs| + |statelessVector3DFieldSpecs| > 0 {
        var state := new State();
        if |statelessScalarFieldSpecs| > 0 {
          state.AllocateScalarData(statelessScalarFieldSpecs, scalarMap.value);
        }
        if |statelessVector3DFieldSpecs| > 0 {
          state.AllocateVector3DData(statelessVector3DFieldSpecs, vector3DMap.value);
        }
        if |statelessBondFieldSpecs| > 0 {
          state.AllocateBondData(statelessBondFieldSpecs, bondMap.value);
        }
        stateNone := state;
      }
    }

    /** Creates the two stateful states from the three stateful lists, once
        the map checks have passed, giving both the same lists in the same
        order with the same descriptors; nothing happens when there is no
        stateful scalar or vector3D spec. */
    method CreateStatefulStates()
      requires |statefulScalarFieldSpecs| > 0 ==> scalarMap.Some?
      requires |statefulVector3DFieldSpecs| > 0 ==> vector3DMap.Some?
      requires |statefulBondFieldSpecs| > 0 ==> bondMap.Some?
      modifies this`stateN, this`stateNP1
      ensures |statefulScalarFieldSpecs| + |statefulVector3DFieldSpecs| == 0 ==>
        stateN == old(stateN) && stateNP1 == old(stateNP1)
      ensures |statefulScalarFieldSpecs| + |statefulVector3DFieldSpecs| > 0 ==>
        stateN != null && stateNP1 != null && fresh(stateN) && fresh(stateNP1) && stateN != stateNP1 &&
        stateN.Holdings() == Filled(statefulScalarFieldSpecs, statefulVector3DFieldSpecs, statefulBondFieldSpecs, Maps()) &&
        stateNP1.Holdings() == stateN.Holdings()
    {
      if |statefulScalarFieldSpecs| + |statefulVector3DFieldSpecs| > 0 {
        var n := new State();
        var np1 := new State();
        if |statefulScalarFieldSpecs| > 0 {
          n.AllocateScalarData(statefulScalarFieldSpecs, scalarMap.value);
          np1.AllocateScalarData(statefulScalarFieldSpecs, scalarMap.value);
        }
        if |statefulVector3DFieldSpecs| > 0 {
          n.AllocateVector3DData(statefulVector3DFieldSpecs, vector3DMap.value);
          np1.AllocateVector3DData(statefulVector3DFieldSpecs, vector3DMap.value);
        }
        if |statefulBondFieldSpecs| > 0 {
          n.AllocateBondData(statefulBondFieldSpecs, bondMap.value);
          np1.AllocateBondData(statefulBondFieldSpecs, bondMap.value);
        }
        stateN, stateNP1 := n, np1;
      }
    }

    /** Routes a lookup to the state of the requested step. Any other step
        yields the null handle: the exception guard is given the constant
        false. The selected state must exist; the source dereferences it. */
    method GetData(spec: FieldSpec, step: Step) returns (data: VectorRef)
      requires step == StepNone ==> stateNone != null
      requires step == StepN ==> stateN != null
      requires step == StepNP1 ==> stateNP1 != null
      ensures step == StepNone ==> data == stateNone.GetData(spec)
      ensures step == StepN ==> data == stateN.GetData(spec)
      ensures step == StepNP1 ==> data == stateNP1.GetData(spec)
      ensures step.OtherStep? ==> data == Null
    {
      data := Null;
      if step == StepNone {
        data := stateNone.GetData(spec);
      } else if step == StepN {
        data := stateN.GetData(spec);
      } else if step == StepNP1 {
        data := stateNP1.GetData(spec);
      }
    }
  }
}
