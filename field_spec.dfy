/** Field descriptors, and the classification `allocateData` performs on an
    ordered list of them: each spec goes to one of six lists chosen by its
    length and its state architecture. */
module FieldSpecs {

  /** How many values a field holds: one per node, three per node, or one
      per bond. `OtherLength` stands for any other value of the length
      enumeration; the classification loop has no branch for it. */
  datatype Length = Scalar | Vector3D | Bond | OtherLength(code: int)

  /** A stateless field has one buffer; a stateful one has a buffer for
      step N and another for step N+1. */
  datatype Architecture = Stateless | Stateful

  /** Which buffer of a field a lookup asks for. `OtherStep` stands for any
      value other than the three steps `getData` has a branch for. */
  datatype Step = StepNone | StepN | StepNP1 | OtherStep(code: int)

  /** An immutable field descriptor. Two specs are the same spec when all
      three components agree. */
  datatype FieldSpec = FieldSpec(length: Length, architecture: Architecture, name: string)

  /** The lengths the classification loop has a branch for. */
  predicate IsRecognised(length: Length) {
    length == Scalar || length == Vector3D || length == Bond
  }

  /** The specs of `specs` whose category is (`length`, `architecture`), in
      input order: the list the classification loop builds for that category
      by appending, one spec at a time. */
  function Select(specs: seq<FieldSpec>, length: Length, architecture: Architecture): (r: seq<FieldSpec>)
    ensures |r| <= |specs|
  {
    if specs == [] then []
    else
      var last := specs[|specs| - 1];
      var kept := Select(specs[..|specs| - 1], length, architecture);
      if last.length == length && last.architecture == architecture then kept + [last] else kept
  }

  /** Order: the specs selected from an earlier part of the input come before
      those selected from a later part, so each list keeps the input order. */
  lemma {:induction false} SelectKeepsOrder(a: seq<FieldSpec>, b: seq<FieldSpec>, length: Length, architecture: Architecture)
    ensures Select(a + b, length, architecture) == Select(a, length, architecture) + Select(b, length, architecture)
  {
    if b == [] {
      assert a + b == a;
    } else {
      assert (a + b)[..|a + b| - 1] == a + b[..|b| - 1];
      SelectKeepsOrder(a, b[..|b| - 1], length, architecture);
    }
  }

  /** Multiplicity: every occurrence of a spec of category
      (`length`, `architecture`) is kept, every other spec is dropped. */
  lemma {:induction false} SelectCount(specs: seq<FieldSpec>, length: Length, architecture: Architecture, x: FieldSpec)
    ensures multiset(Select(specs, length, architecture))[x]
         == if x.length == length && x.architecture == architecture then multiset(specs)[x] else 0
  {
    if specs != [] {
      var n := |specs| - 1;
      assert specs == specs[..n] + [specs[n]];
      SelectCount(specs[..n], length, architecture, x);
    }
  }

  /** Membership in a list, both directions. */
  lemma {:induction false} SelectMembers(specs: seq<FieldSpec>, length: Length, architecture: Architecture, x: FieldSpec)
    ensures x in Select(specs, length, architecture)
        <==> x in specs && x.length == length && x.architecture == architecture
  {
    SelectCount(specs, length, architecture, x);
  }

  /** The six lists partition the specs of recognised length: counted with
      multiplicity, a spec of recognised length occurs in the six lists
      together exactly as often as in the input, and a spec of any other
      length occurs in none of them. */
  lemma ClassificationPartitions(specs: seq<FieldSpec>, x: FieldSpec)
    ensures multiset(Select(specs, Scalar, Stateless))[x] + multiset(Select(specs, Scalar, Stateful))[x]
          + multiset(Select(specs, Vector3D, Stateless))[x] + multiset(Select(specs, Vector3D, Stateful))[x]
          + multiset(Select(specs, Bond, Stateless))[x] + multiset(Select(specs, Bond, Stateful))[x]
         == if IsRecognised(x.length) then multiset(specs)[x] else 0
  {
    SelectCount(specs, Scalar, Stateless, x);
    SelectCount(specs, Scalar, Stateful, x);
    SelectCount(specs, Vector3D, Stateless, x);
    SelectCount(specs, Vector3D, Stateful, x);
    SelectCount(specs, Bond, Stateless, x);
    SelectCount(specs, Bond, Stateful, x);
  }

  /** True when some spec of `specs` has the given length. */
  predicate HasLength(specs: seq<FieldSpec>, length: Length) {
    exists x :: x in specs && x.length == length
  }

  /** True when some spec of `specs` has the given category. */
  predicate HasCategory(specs: seq<FieldSpec>, length: Length, architecture: Architecture) {
    exists x :: x in specs && x.length == length && x.architecture == architecture
  }

  /** A list is non-empty exactly when the input has a spec of its category. */
  lemma NonEmptyIff(specs: seq<FieldSpec>, length: Length, architecture: Architecture)
    ensures |Select(specs, length, architecture)| > 0 <==> HasCategory(specs, length, architecture)
  {
    var r := Select(specs, length, architecture);
    if |r| > 0 {
      SelectMembers(specs, length, architecture, r[0]);
    }
    if HasCategory(specs, length, architecture) {
      var x :| x in specs && x.length == length && x.architecture == architecture;
      SelectMembers(specs, length, architecture, x);
    }
  }

  /** The stateless and the stateful list of one length together are
      non-empty exactly when the input has a spec of that length: the
      condition guarding each map check. */
  lemma ShapeInUseIff(specs: seq<FieldSpec>, length: Length)
    ensures |Select(specs, length, Stateless)| + |Select(specs, length, Stateful)| > 0 <==> HasLength(specs, length)
  {
    NonEmptyIff(specs, length, Stateless);
    NonEmptyIff(specs, length, Stateful);
    if HasLength(specs, length) {
      var x :| x in specs && x.length == length;
      assert HasCategory(specs, length, x.architecture);
    }
  }
}
