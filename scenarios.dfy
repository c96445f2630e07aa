/** Clients of the Data Manager: what a caller can prove from the contracts
    of `AllocateData` and `GetData` alone. */
module Scenarios {
  import opened Wrappers
  import opened FieldSpecs
  import opened Allocation
  import opened Peridigm

  /** Stateful fields have matched, independent buffers: whenever the pair
      of stateful states exists, a spec has a buffer at step N exactly when
      it has one at step N+1, and the two have the same shape and descriptor
      but belong to different states. */
  lemma PairedBuffers(dm: DataManager, spec: FieldSpec)
    requires dm.Valid() && dm.stateN != null
    ensures dm.stateNP1 != null
    ensures dm.stateN.GetData(spec).Null? <==> dm.stateNP1.GetData(spec).Null?
    ensures dm.stateN.GetData(spec).Ref? ==>
      var n, np1 := dm.stateN.GetData(spec), dm.stateNP1.GetData(spec);
      n.owner != np1.owner && n.length == np1.length && n.distribution == np1.distribution
  {
  }

  /** One stateless scalar field "volume" and one stateful vector3D field
      "displacement", with both descriptors set: the stateless state holds
      only "volume", the stateful pair hold only "displacement", and the two
      "displacement" buffers are distinct with equal extents. */
  method VolumeAndDisplacement() returns (outcome: Outcome<AllocError>, volume: VectorRef, volumeAtN: VectorRef,
                                          displacementNone: VectorRef, displacementN: VectorRef, displacementNP1: VectorRef)
    ensures outcome == Pass
    ensures volume.Ref? && volume.length == Scalar && volume.distribution == Distribution(0)
    ensures volumeAtN.Null? && displacementNone.Null?
    ensures displacementN.Ref? && displacementNP1.Ref? && displacementN.owner != displacementNP1.owner
    ensures displacementN.length == displacementNP1.length == Vector3D
    ensures displacementN.distribution == displacementNP1.distribution == Distribution(1)
  {
    var volumeSpec := FieldSpec(Scalar, Stateless, "volume");
    var displacementSpec := FieldSpec(Vector3D, Stateful, "displacement");
    var specs := [volumeSpec, displacementSpec];
    var dm := new DataManager();
    dm.SetScalarMap(Some(Distribution(0)));
    dm.SetVector3DMap(Some(Distribution(1)));
    AllocationFailsIffUnmapped(specs, dm.Maps());
    outcome := dm.AllocateData(specs);
    StateHoldsExactlyItsSpecs(specs, dm.Maps(), Stateless, volumeSpec);
    StateHoldsExactlyItsSpecs(specs, dm.Maps(), Stateless, displacementSpec);
    StateHoldsExactlyItsSpecs(specs, dm.Maps(), Stateful, volumeSpec);
    StateHoldsExactlyItsSpecs(specs, dm.Maps(), Stateful, displacementSpec);
    volume := dm.GetData(volumeSpec, StepNone);
    volumeAtN := dm.GetData(volumeSpec, StepN);
    displacementNone := dm.GetData(displacementSpec, StepNone);
    displacementN := dm.GetData(displacementSpec, StepN);
    displacementNP1 := dm.GetData(displacementSpec, StepNP1);
  }

  /** Only a stateful bond field "damage", with no bond descriptor set:
      allocation fails naming the bond shape, and no state is created. */
  method DamageWithoutBondMap() returns (outcome: Outcome<AllocError>, anyState: bool)
    ensures outcome == Fail(MissingMap(Bond))
    ensures !anyState
  {
    var damageSpec := FieldSpec(Bond, Stateful, "damage");
    var dm := new DataManager();
    dm.SetScalarMap(Some(Distribution(0)));
    dm.SetVector3DMap(Some(Distribution(1)));
    AllocationFailsIffUnmapped([damageSpec], dm.Maps());
    outcome := dm.AllocateData([damageSpec]);
    anyState := dm.stateNone != null || dm.stateN != null || dm.stateNP1 != null;
  }

  /** Only a stateless bond field, with its descriptor set: allocation
      succeeds, yet no state is created, so the field gets no buffer. */
  method StatelessBondAlone() returns (outcome: Outcome<AllocError>, anyState: bool)
    ensures outcome == Pass
    ensures !anyState
  {
    var bondSpec := FieldSpec(Bond, Stateless, "bond_flags");
    var dm := new DataManager();
    dm.SetBondMap(Some(Distribution(2)));
    AllocationFailsIffUnmapped([bondSpec], dm.Maps());
    StatelessStateIff([bondSpec], dm.Maps());
    StatefulStatesIff([bondSpec], dm.Maps());
    outcome := dm.AllocateData([bondSpec]);
    anyState := dm.stateNone != null || dm.stateN != null || dm.stateNP1 != null;
  }

  /** A spec of unrecognised length, with no descriptor set at all: nothing
      is raised, the spec lands in no list, and no state is created. */
  method UnrecognisedLengthDropped() returns (outcome: Outcome<AllocError>, listed: nat, anyState: bool)
    ensures outcome == Pass
    ensures listed == 0
    ensures !anyState
  {
    var pointSpec := FieldSpec(OtherLength(2), Stateless, "vector2d");
    var dm := new DataManager();
    AllocationFailsIffUnmapped([pointSpec], dm.Maps());
    StatelessStateIff([pointSpec], dm.Maps());
    StatefulStatesIff([pointSpec], dm.Maps());
    outcome := dm.AllocateData([pointSpec]);
    listed := |dm.statelessScalarFieldSpecs| + |dm.statelessVector3DFieldSpecs| + |dm.statelessBondFieldSpecs|
            + |dm.statefulScalarFieldSpecs| + |dm.statefulVector3DFieldSpecs| + |dm.statefulBondFieldSpecs|;
    anyState := dm.stateNone != null || dm.stateN != null || dm.stateNP1 != null;
  }

  /** A lookup at an unrecognised step yields the null handle, even for a
      field that has buffers, and even before any state exists. */
  method UnrecognisedStepIsNull(step: Step) returns (before: VectorRef, after: VectorRef)
    requires step.OtherStep?
    ensures before.Null? && after.Null?
  {
    var velocitySpec := FieldSpec(Vector3D, Stateful, "velocity");
    var dm := new DataManager();
    before := dm.GetData(velocitySpec, step);
    dm.SetVector3DMap(Some(Distribution(1)));
    var outcome := dm.AllocateData([velocitySpec]);
    after := dm.GetData(velocitySpec, step);
  }
}
