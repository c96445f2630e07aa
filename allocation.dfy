/** What `allocateData` decides, as a function of the registered specs and
    the three distribution descriptors: whether it fails, and if not, which
    states it creates and what each state is given to allocate. */
module Allocation {
  import opened Wrappers
  import opened FieldSpecs

  /** An opaque distribution descriptor (a block map of the distributed
      array library); only its identity matters to the Data Manager. */
  datatype Distribution = Distribution(id: nat)

  /** The three descriptor handles of a Data Manager; `None` is a null handle. */
  datatype Descriptors = Descriptors(scalar: Option<Distribution>, vector3D: Option<Distribution>, bond: Option<Distribution>)

  /** The descriptor used for fields of the given length. */
  function MapFor(maps: Descriptors, length: Length): (distribution: Option<Distribution>) {
    match length
    case Scalar => maps.scalar
    case Vector3D => maps.vector3D
    case Bond => maps.bond
    case OtherLength(_) => None
  }

  /** The null-reference error `allocateData` raises, naming the shape whose
      descriptor is missing. */
  datatype AllocError = MissingMap(length: Length)

  /** One allocation call on a state: the specs of one shape and the
      descriptor they are laid out on. */
  datatype Block = Block(specs: seq<FieldSpec>, distribution: Distribution)

  /** What a state has been given to allocate, per shape; `None` when that
      shape's allocation was never called. */
  datatype Contents = Contents(scalar: Option<Block>, vector3D: Option<Block>, bond: Option<Block>)

  /** The states `allocateData` creates: the stateless state, and the
      contents given to each of the two stateful states. `None` when the
      state is not created. */
  datatype Layout = Layout(stateless: Option<Contents>, stateful: Option<Contents>)

  /** True when `count` specs need a descriptor and `distribution` is null. */
  predicate Unmet(count: nat, distribution: Option<Distribution>) {
    count > 0 && distribution.None?
  }

  /** The three map checks, in source order: scalar, then vector3D, then bond.
      Each count is the stateless plus the stateful list size of its shape. */
  function CheckMaps(scalarCount: nat, vector3DCount: nat, bondCount: nat, maps: Descriptors): (check: Outcome<AllocError>) {
    if Unmet(scalarCount, maps.scalar) then Fail(MissingMap(Scalar))
    else if Unmet(vector3DCount, maps.vector3D) then Fail(MissingMap(Vector3D))
    else if Unmet(bondCount, maps.bond) then Fail(MissingMap(Bond))
    else Pass
  }

  /** The contents of a freshly created state that is given the three lists:
      each shape is allocated only if its list is non-empty. */
  function Filled(scalars: seq<FieldSpec>, vectors: seq<FieldSpec>, bonds: seq<FieldSpec>, maps: Descriptors): (c: Contents)
    requires |scalars| > 0 ==> maps.scalar.Some?
    requires |vectors| > 0 ==> maps.vector3D.Some?
    requires |bonds| > 0 ==> maps.bond.Some?
  {
    Contents(
      if |scalars| > 0 then Some(Block(scalars, maps.scalar.value)) else None,
      if |vectors| > 0 then Some(Block(vectors, maps.vector3D.value)) else None,
      if |bonds| > 0 then Some(Block(bonds, maps.bond.value)) else None)
  }

  /** The outcome of `allocateData` once the six lists are built: the map
      checks, then the stateless state, then the stateful pair. */
  function Decide(ss: seq<FieldSpec>, sv: seq<FieldSpec>, sb: seq<FieldSpec>,
                  fs: seq<FieldSpec>, fv: seq<FieldSpec>, fb: seq<FieldSpec>, maps: Descriptors): (plan: Result<Layout, AllocError>) {
    match CheckMaps(|ss| + |fs|, |sv| + |fv|, |sb| + |fb|, maps)
    case Fail(e) => Failure(e)
    case Pass =>
      Success(Layout(
        if |ss| + |sv| > 0 then Some(Filled(ss, sv, sb, maps)) else None,
        if |fs| + |fv| > 0 then Some(Filled(fs, fv, fb, maps)) else None))
  }

  /** The outcome of `allocateData(specs)` on a Data Manager whose
      descriptors are `maps`. */
  function Plan(specs: seq<FieldSpec>, maps: Descriptors): (plan: Result<Layout, AllocError>) {
    Decide(Select(specs, Scalar, Stateless), Select(specs, Vector3D, Stateless), Select(specs, Bond, Stateless),
           Select(specs, Scalar, Stateful), Select(specs, Vector3D, Stateful), Select(specs, Bond, Stateful), maps)
  }

  /** Where a state with contents `c` keeps `spec`: the shape and the
      descriptor of its buffer, or `None` when it holds no buffer for it. */
  function Locate(c: Contents, spec: FieldSpec): (found: Option<(Length, Distribution)>) {
    if c.scalar.Some? && spec in c.scalar.value.specs then Some((Scalar, c.scalar.value.distribution))
    else if c.vector3D.Some? && spec in c.vector3D.value.specs then Some((Vector3D, c.vector3D.value.distribution))
    else if c.bond.Some? && spec in c.bond.value.specs then Some((Bond, c.bond.value.distribution))
    else None
  }

  /** The state that holds fields of the given architecture. */
  function Home(layout: Layout, architecture: Architecture): (home: Option<Contents>) {
    if architecture == Stateless then layout.stateless else layout.stateful
  }

  /** True when some spec of `specs` has a recognised length but its
      descriptor is null. */
  predicate SomeSpecUnmapped(specs: seq<FieldSpec>, maps: Descriptors) {
    exists x :: x in specs && IsRecognised(x.length) && MapFor(maps, x.length).None?
  }

  /** The map checks: allocation fails exactly when a spec of recognised
      length has no descriptor (a missing descriptor is harmless when no
      spec of its shape is registered). The error names such a shape, and
      every shape checked before it is either unused or mapped. */
  lemma AllocationFailsIffUnmapped(specs: seq<FieldSpec>, maps: Descriptors)
    ensures Plan(specs, maps).Failure? <==> SomeSpecUnmapped(specs, maps)
    ensures Plan(specs, maps).Failure? ==>
      var l := Plan(specs, maps).error.length;
      IsRecognised(l) && HasLength(specs, l) && MapFor(maps, l).None? &&
      (l != Scalar ==> !(HasLength(specs, Scalar) && maps.scalar.None?)) &&
      (l == Bond ==> !(HasLength(specs, Vector3D) && maps.vector3D.None?))
  {
    var ss, sv, sb := Select(specs, Scalar, Stateless), Select(specs, Vector3D, Stateless), Select(specs, Bond, Stateless);
    var fs, fv, fb := Select(specs, Scalar, Stateful), Select(specs, Vector3D, Stateful), Select(specs, Bond, Stateful);
    assert Plan(specs, maps) == Decide(ss, sv, sb, fs, fv, fb, maps);
    ShapeInUseIff(specs, Scalar);
    ShapeInUseIff(specs, Vector3D);
    ShapeInUseIff(specs, Bond);
    var check := CheckMaps(|ss| + |fs|, |sv| + |fv|, |sb| + |fb|, maps);
    assert Plan(specs, maps).Failure? <==> check.Fail?;
    assert check.Fail? ==> Plan(specs, maps).error == check.error;
    if SomeSpecUnmapped(specs, maps) {
      var x :| x in specs && IsRecognised(x.length) && MapFor(maps, x.length).None?;
      assert HasLength(specs, x.length);
    }
    if HasLength(specs, Scalar) && maps.scalar.None? {
      var x :| x in specs && x.length == Scalar;
      assert MapFor(maps, x.length).None?;
    }
    if HasLength(specs, Vector3D) && maps.vector3D.None? {
      var x :| x in specs && x.length == Vector3D;
      assert MapFor(maps, x.length).None?;
    }
    if HasLength(specs, Bond) && maps.bond.None? {
      var x :| x in specs && x.length == Bond;
      assert MapFor(maps, x.length).None?;
    }
  }

  /** The stateless state is created exactly when a stateless scalar or
      vector3D spec is registered; stateless bond specs alone create none. */
  lemma StatelessStateIff(specs: seq<FieldSpec>, maps: Descriptors)
    requires Plan(specs, maps).Success?
    ensures Plan(specs, maps).value.stateless.Some?
        <==> HasCategory(specs, Scalar, Stateless) || HasCategory(specs, Vector3D, Stateless)
  {
    NonEmptyIff(specs, Scalar, Stateless);
    NonEmptyIff(specs, Vector3D, Stateless);
  }

  /** The two stateful states are created, as a pair, exactly when a
      stateful scalar or vector3D spec is registered; stateful bond specs
      alone create neither. */
  lemma StatefulStatesIff(specs: seq<FieldSpec>, maps: Descriptors)
    requires Plan(specs, maps).Success?
    ensures Plan(specs, maps).value.stateful.Some?
        <==> HasCategory(specs, Scalar, Stateful) || HasCategory(specs, Vector3D, Stateful)
  {
    NonEmptyIff(specs, Scalar, Stateful);
    NonEmptyIff(specs, Vector3D, Stateful);
  }

  /** A created state holds a buffer for `x` exactly when `x` is a registered
      spec of recognised length and of the state's architecture; that buffer
      has `x`'s shape and that shape's descriptor. So every stateless scalar
      or vector3D field has its one buffer in the stateless state, and a
      stateless bond field has one there only if that state is created; the
      same holds for stateful fields and each state of the pair. No field has
      a buffer in a state of the other architecture, and a spec of
      unrecognised length has no buffer anywhere. */
  lemma StateHoldsExactlyItsSpecs(specs: seq<FieldSpec>, maps: Descriptors, architecture: Architecture, x: FieldSpec)
    requires Plan(specs, maps).Success?
    requires Home(Plan(specs, maps).value, architecture).Some?
    ensures var found := Locate(Home(Plan(specs, maps).value, architecture).value, x);
      (found.Some? <==> x in specs && x.architecture == architecture && IsRecognised(x.length)) &&
      (found.Some? ==> found.value.0 == x.length && MapFor(maps, x.length) == Some(found.value.1))
  {
    AllocationFailsIffUnmapped(specs, maps);
    SelectMembers(specs, Scalar, architecture, x);
    SelectMembers(specs, Vector3D, architecture, x);
    SelectMembers(specs, Bond, architecture, x);
  }

  /** A stateless or stateful scalar or vector3D spec always finds its
      state created; a bond spec finds one only if a scalar or vector3D spec
      of its architecture is registered too. */
  lemma NodeFieldsHaveAState(specs: seq<FieldSpec>, maps: Descriptors, x: FieldSpec)
    requires Plan(specs, maps).Success?
    requires x in specs && (x.length == Scalar || x.length == Vector3D)
    ensures Home(Plan(specs, maps).value, x.architecture).Some?
  {
    if x.architecture == Stateless {
      StatelessStateIff(specs, maps);
    } else {
      StatefulStatesIff(specs, maps);
    }
  }
}
