# Peridigm Data Manager: field classification and state allocation

This project models the Data Manager of the Peridigm peridynamics code
(`PeridigmNS::DataManager`), and proves properties of the model.
It covers two operations.

- `allocateData` takes an ordered list of field specs and does four things:
  - it stores the list;
  - it sorts every spec of recognised length into one of six lists, chosen by its length (scalar, vector3D or bond) and its state architecture (stateless or stateful); a spec of any other length goes into none;
  - it checks that a distribution map has been set for every shape in use;
  - it creates the stateless state `stateNONE` and the matched pair of states `stateN` / `stateNP1`, and has each state allocate its lists.
- `getData` routes a (spec, step) lookup to one of the three states.

Layout:

- `wrappers.dfy` (module `Wrappers`): `Option`, `Result` and `Outcome`. A null map handle becomes `None`; a thrown exception becomes a `Fail`/`Failure` value. State handles are nullable `State?` references, and the null buffer handle is `VectorRef.Null`.
- `field_spec.dfy` (module `FieldSpecs`): the field descriptor, its length, architecture and step enumerations, and `Select`. `Select` returns the specs of one category in input order, which is the list the classification loop builds for that category. The module also holds the lemmas about `Select`: order, multiplicity, membership, and partition.
- `allocation.dfy` (module `Allocation`): `Plan`, a pure description of what `allocateData` decides. It gives the failure and the shape it names, or else which states are created and what each state is given to allocate. `Locate` says where a state keeps a spec. The module also holds the lemmas about `Plan`.
- `data_manager.dfy` (module `Peridigm`): the imperative model.
  - Class `DataManager` has the source's fields: the spec list, the six lists, the three map handles and the three state references.
  - `AllocateData` appends to the six lists inside a `for` loop, runs the three map checks in source order, then creates the states. It is proved against `Plan`.
  - `GetData` is the step dispatch.
  - Class `State` records, per shape, which specs it was asked to allocate and on which map.
- `scenarios.dfy` (module `Scenarios`): client methods that use only the class contracts. They prove the observable consequences: matched independent buffers, failure without any state being created, dropped specs, and the null handle.

Two places in the source call the exception macro with the constant condition `false`, so they never throw. The model follows the code as written:

- The classification `else` branch does not throw. A spec whose length is none of SCALAR / VECTOR3D / BOND goes into no list, and the loop continues.
- The `getData` `else` branch does not throw either. An unrecognised step returns the default, null, handle.

The messages passed to the macro, "invalid FieldSpec!" (src/Peridigm_DataManager.cpp:73) and "invalid FieldStep!" (src/Peridigm_DataManager.cpp:139), show that errors were meant, but the constant-`false` condition never fires. This model follows the code.

Other points where the code is followed literally:

- A stateless bond spec on its own creates no `stateNONE`, so it gets no buffer. The same holds for a stateful bond spec and the `stateN` / `stateNP1` pair.
- A state that is not created keeps its previous value. Nothing resets it to null.
- A failed map check returns before any state is assigned. By then `fieldSpecs` and the six lists have already been reassigned.

## Model

| member | source | states |
|---|---|---|
| `FieldSpecs.SelectKeepsOrder` | src/Peridigm_DataManager.cpp:51-70 | Selecting from `a + b` gives the selection from `a` followed by the selection from `b`. Appending with `push_back` therefore keeps each list in input order. |
| `FieldSpecs.SelectCount` | src/Peridigm_DataManager.cpp:51-70 | Each occurrence of a spec of category (length, architecture) is kept exactly once in that category's list. A spec of any other category occurs 0 times in it. |
| `FieldSpecs.SelectMembers` | src/Peridigm_DataManager.cpp:51-70 | A spec is in a category's list if and only if it is in the input and has that length and that architecture. |
| `FieldSpecs.ClassificationPartitions` | src/Peridigm_DataManager.cpp:51-75 | Counted with multiplicity, the six lists together hold every spec of recognised length exactly as often as the input does. They hold a spec of unrecognised length 0 times, because the constant-`false` guard drops it silently. |
| `FieldSpecs.ShapeInUseIff` | src/Peridigm_DataManager.cpp:87-93 | The guard of each map check (stateless plus stateful size > 0) holds exactly when some registered spec has that length. |
| `Allocation.AllocationFailsIffUnmapped` | src/Peridigm_DataManager.cpp:86-95 | Allocation fails if and only if some spec of recognised length has a null map. A null map is harmless when no spec of its shape exists. The error names a shape that is in use and unmapped. Every shape checked earlier (scalar, then vector3D) is unused or mapped. |
| `Allocation.StatelessStateIff` | src/Peridigm_DataManager.cpp:98-106 | On success, `stateNONE` is created if and only if a stateless scalar or vector3D spec is registered. Stateless bond specs alone create no state. |
| `Allocation.StatefulStatesIff` | src/Peridigm_DataManager.cpp:107-122 | On success, the stateful pair is created if and only if a stateful scalar or vector3D spec is registered. Stateful bond specs alone create neither state. |
| `Allocation.StateHoldsExactlyItsSpecs` | src/Peridigm_DataManager.cpp:98-122 | A created state holds a buffer for `x` if and only if `x` is registered, has recognised length and has the state's architecture. The buffer has `x`'s shape and that shape's map. So every stateless scalar or vector3D field has its one buffer in `stateNONE`, and a stateless bond field has one there only if `stateNONE` is created. The same holds for stateful fields and the pair. No field has a buffer in a state of the other architecture. |
| `Allocation.NodeFieldsHaveAState` | src/Peridigm_DataManager.cpp:98-122 | On success, every registered scalar or vector3D spec finds the state of its architecture created. |
| `Peridigm.DataManager.ClassifyFieldSpecs` | src/Peridigm_DataManager.cpp:45-75 | The loop resets the six lists and leaves each one equal to `Select` of the registered specs for its category. Nothing else changes. |
| `Peridigm.DataManager.CreateStatelessState` | src/Peridigm_DataManager.cpp:98-106 | If there are stateless scalar or vector3D specs, `stateNONE` becomes a fresh state. It is given the non-empty stateless lists (scalar, vector3D, bond) with their maps. Otherwise `stateNONE` is left as it was. |
| `Peridigm.DataManager.CreateStatefulStates` | src/Peridigm_DataManager.cpp:107-122 | If there are stateful scalar or vector3D specs, `stateN` and `stateNP1` become two distinct fresh states. Both are given the same non-empty stateful lists with the same maps. Otherwise both are left as they were. |
| `Peridigm.DataManager.AllocateData` | src/Peridigm_DataManager.cpp:37-123 | `fieldSpecs` and the six lists are set from the input and the maps are unchanged. If `Plan` fails, the result names the missing map and all three state references are unchanged. If it succeeds, the result is `Pass` and each created state is fresh and holds exactly what `Plan` gives it. States that are not created are left unchanged. The matched-pair invariant `Valid` is preserved. |
| `Peridigm.DataManager.GetData` | src/Peridigm_DataManager.cpp:125-142 | STEP_NONE, STEP_N and STEP_NP1 return the lookup of `stateNONE`, `stateN` and `stateNP1` respectively. Any other step returns the null handle. The method has no `modifies` clause, so it changes nothing. |
| `Scenarios.PairedBuffers` | src/Peridigm_DataManager.cpp:107-122 | When the stateful pair exists, a spec has a buffer at step N if and only if it has one at step N+1. The two buffers have equal shape and map and belong to different states. |
| `Scenarios.VolumeAndDisplacement` | src/Peridigm_DataManager.cpp:37-142 | Take a stateless scalar "volume" and a stateful vector3D "displacement", with both maps set. Allocation succeeds. "volume" has a buffer only at STEP_NONE. "displacement" has distinct buffers of equal shape and map at STEP_N and STEP_NP1, and none at STEP_NONE. |
| `Scenarios.DamageWithoutBondMap` | src/Peridigm_DataManager.cpp:93-95 | A single stateful bond spec with no bond map fails with the bond missing-map error, and no state is created. |
| `Scenarios.StatelessBondAlone` | src/Peridigm_DataManager.cpp:98-106 | A single stateless bond spec with its map set allocates successfully, yet no state is created. |
| `Scenarios.UnrecognisedLengthDropped` | src/Peridigm_DataManager.cpp:71-74 | A spec of unrecognised length raises nothing, even with no map set. It lands in no list, and no state is created. |
| `Scenarios.UnrecognisedStepIsNull` | src/Peridigm_DataManager.cpp:137-140 | An unrecognised step returns the null handle before and after allocation. |

## Left out

- `State` internals: `State::allocate*Data` and `State::getData` are not part of this model. A state records only which specs it was given per shape and on which map. Buffer contents and extents are not modelled. Two buffers count as "equal extent" when they have the same shape and map, and as independent when they belong to different states.
- State lookup of a spec the state never allocated: in the model it returns the null handle. The real behaviour lives in the state class, which is not part of this model.
- `Peridigm.DataManager.GetData` requires that the state selected by a recognised step exists. The source dereferences that state unconditionally, so a caller that asks before allocation, or for a step whose state was never created, is outside the source's contract.
- The header (`Peridigm_DataManager.hpp`) is not part of this model. The constructor, `setScalarMap` / `setVector3DMap` / `setBondMap`, and value equality of field specs are assumed. The setters are modelled as one-line assignments of a possibly-null handle, and specs are compared as values of (length, architecture, name).
- Length and architecture enumerations: the field-spec header is not part of this model. Any length other than SCALAR / VECTOR3D / BOND is `OtherLength` (the loop's comment mentions vector2d fields). Architecture is two-valued, and the source's `else` branch treats every non-STATELESS spec as stateful.
- Distributed arrays and maps (Epetra): a map is an opaque identity, and a handle is null or non-null.
- Reference counting (Teuchos RCP) and the exception types: map handles are options, state handles are nullable references, and the null-reference error is the value `MissingMap(shape)`.
- `fieldSpecs` and the six list handles (src/Peridigm_DataManager.cpp:39, 45-50) are modelled as `seq` values. The model therefore does not capture that `fieldSpecs` shares the caller's vector (later changes the caller makes to that vector are visible through it), and it has no null `specs` argument, which the source would dereference at line 51.
- The commented-out debug output block (src/Peridigm_DataManager.cpp:77-84): it only prints.
- A second `allocateData` call: the model states only what the code does, which is to overwrite the fields and to leave a state that is not re-created as it was.
- `src/materials/Peridigm_IsotropicElasticPlasticMaterial.hpp`: it holds declarations only. Its accessors delegate to a registry that is not shown. Its `initialize` / `updateConstitutiveData` / `computeForce` have no bodies and would be floating-point mechanics. Its parameters are doubles.
