/** The vocabulary every mapper shares: Java's nullable strings and the exceptions the
    mapping code raises by itself, and the parts of the FHIR R4 resources that the
    bbmri.de and MII profile mappers read and write. */
module Fhir {

  datatype Option<+T> = None | Some(value: T)

  /** A Java `String` reference; `None` stands for `null`. */
  type JString = Option<string>

  /** The exceptions the modelled Java code raises by itself: dereferencing `null`, and
      an explicit cast of an extension value to a type it does not have. */
  datatype Fault = NullPointer | ClassCast

  /** A value, or the exception that was thrown instead of producing it. */
  datatype Result<+T> = Ok(value: T) | Thrown(fault: Fault)

  /** What a state-changing call leaves behind: its result (or exception) and the new
      state of the object. A call that throws half-way leaves the fields it already
      assigned. */
  datatype Step<+S, +T> = Step(result: Result<T>, after: S)

  /** A `for` loop over `xs` whose body `f` may throw: the body runs on each element in
      turn, and the first exception ends the loop, leaving the state it had reached. */
  function Scan<S(!new), X>(f: (S, X) -> Step<S, ()>, start: S, xs: seq<X>): Step<S, ()>
    decreases |xs|
  {
    if xs == [] then Step(Ok(()), start)
    else
      var s := Scan(f, start, xs[..|xs| - 1]);
      if s.result.Thrown? then s else f(s.after, xs[|xs| - 1])
  }

  /** One more pass of the loop. */
  lemma ScanSnoc<S(!new), X>(f: (S, X) -> Step<S, ()>, start: S, xs: seq<X>, x: X)
    ensures var s := Scan(f, start, xs);
            Scan(f, start, xs + [x]) == if s.result.Thrown? then s else f(s.after, x)
  {
    assert (xs + [x])[..|xs|] == xs;
  }

  /** The pass over `xs[i]`, stated on prefixes of `xs`. */
  lemma ScanNext<S(!new), X>(f: (S, X) -> Step<S, ()>, start: S, xs: seq<X>, i: nat)
    requires i < |xs|
    ensures var s := Scan(f, start, xs[..i]);
            Scan(f, start, xs[..i + 1]) == if s.result.Thrown? then s else f(s.after, xs[i])
  {
    assert xs[..i + 1] == xs[..i] + [xs[i]];
    ScanSnoc(f, start, xs[..i], xs[i]);
  }

  /** The pass over `xs[i]` after the passes before it completed in state `s`. */
  lemma ScanNextOk<S(!new), X>(f: (S, X) -> Step<S, ()>, start: S, xs: seq<X>, i: nat, s: S)
    requires i < |xs| && Scan(f, start, xs[..i]) == Step(Ok(()), s)
    ensures Scan(f, start, xs[..i + 1]) == f(s, xs[i])
  {
    ScanNext(f, start, xs, i);
  }

  lemma Whole<X>(xs: seq<X>)
    ensures xs[..|xs|] == xs
  {
  }

  /** A loop whose every pass throws exactly on a faulty element, whatever the state,
      completes exactly when no element is faulty. */
  lemma {:induction false} ScanOk<S(!new), X>(f: (S, X) -> Step<S, ()>, fault: X -> bool, start: S, xs: seq<X>)
    requires forall s, x :: f(s, x).result.Ok? <==> !fault(x)
    ensures Scan(f, start, xs).result.Ok? <==> forall i | 0 <= i < |xs| :: !fault(xs[i])
    decreases |xs|
  {
    if xs != [] {
      var init := xs[..|xs| - 1];
      ScanOk(f, fault, start, init);
      assert forall i | 0 <= i < |init| :: init[i] == xs[i];
    }
  }

  /** `f` applied to every element, in order: what a loop appending `f(x)` per `x` builds. */
  function Mapped<X, Y>(f: X -> Y, xs: seq<X>): (r: seq<Y>)
    ensures |r| == |xs|
    decreases |xs|
  {
    if xs == [] then [] else Mapped(f, xs[..|xs| - 1]) + [f(xs[|xs| - 1])]
  }

  lemma {:induction false} MappedAt<X, Y>(f: X -> Y, xs: seq<X>)
    ensures forall i | 0 <= i < |xs| :: Mapped(f, xs)[i] == f(xs[i])
    decreases |xs|
  {
    if xs != [] {
      var init := xs[..|xs| - 1];
      MappedAt(f, init);
      forall i | 0 <= i < |xs|
        ensures Mapped(f, xs)[i] == f(xs[i])
      {
        if i < |init| {
          assert init[i] == xs[i];
        }
      }
    }
  }

  /** A loop appending `f(x)` to `pre` for each `x`, one element further. */
  lemma MappedSnoc<X, Y>(f: X -> Y, pre: seq<Y>, xs: seq<X>)
    requires xs != []
    ensures pre + Mapped(f, xs) == (pre + Mapped(f, xs[..|xs| - 1])) + [f(xs[|xs| - 1])]
  {
  }

  /** Mapping `f` and then `g` is mapping `h` when `g(f(x)) == h(x)` on every element. */
  lemma MappedCompose<X, Y, Z>(f: X -> Y, g: Y -> Z, h: X -> Z, xs: seq<X>)
    requires forall i | 0 <= i < |xs| :: g(f(xs[i])) == h(xs[i])
    ensures Mapped(g, Mapped(f, xs)) == Mapped(h, xs)
  {
    var ys := Mapped(f, xs);
    MappedAt(f, xs);
    MappedAt(g, ys);
    MappedAt(h, xs);
    assert forall i | 0 <= i < |xs| :: Mapped(g, ys)[i] == Mapped(h, xs)[i];
  }

  /** Once the loop has thrown, later elements change nothing. */
  lemma {:induction false} ScanHalts<S(!new), X>(f: (S, X) -> Step<S, ()>, start: S, xs: seq<X>, ys: seq<X>)
    requires Scan(f, start, xs).result.Thrown?
    ensures Scan(f, start, xs + ys) == Scan(f, start, xs)
    decreases |ys|
  {
    if ys != [] {
      var init := ys[..|ys| - 1];
      ScanHalts(f, start, xs, init);
      assert xs + ys == (xs + init) + [ys[|ys| - 1]];
      ScanSnoc(f, start, xs + init, ys[|ys| - 1]);
    } else {
      assert xs + ys == xs;
    }
  }

  /** A loop stopped by an exception at index `i` has the outcome it had there. */
  lemma ScanStop<S(!new), X>(f: (S, X) -> Step<S, ()>, start: S, xs: seq<X>, i: nat)
    requires i < |xs| && Scan(f, start, xs[..i + 1]).result.Thrown?
    ensures Scan(f, start, xs) == Scan(f, start, xs[..i + 1])
  {
    ScanHalts(f, start, xs[..i + 1], xs[i + 1..]);
    assert xs[..i + 1] + xs[i + 1..] == xs;
  }

  /** The test the FHIR library applies to decide whether a resource's `meta.profile`
      list names a profile URL. */
  type ProfileTest = (seq<string>, string) -> bool

  /** `s.isEmpty()` */
  function IsEmpty(s: JString): Result<bool>
  {
    if s == None then Thrown(NullPointer) else Ok(s.value == "")
  }

  /** `Character.isWhitespace`: the ASCII controls TAB to CR, the separators FS to US,
      and the Unicode space, line and paragraph separators except the no-break ones. */
  predicate IsJavaWhitespace(c: char)
  {
    var n := c as int;
    (9 <= n <= 13) || (28 <= n <= 32) || n == 0x1680 || (0x2000 <= n <= 0x2006)
    || (0x2008 <= n <= 0x200A) || n == 0x2028 || n == 0x2029 || n == 0x205F || n == 0x3000
  }

  /** `s.isBlank()` on a non-null string. */
  predicate Blank(s: string)
  {
    forall i :: 0 <= i < |s| ==> IsJavaWhitespace(s[i])
  }

  /** `s.isBlank()` */
  function IsBlank(s: JString): Result<bool>
  {
    if s == None then Thrown(NullPointer) else Ok(Blank(s.value))
  }

  /** Java's `a && b`: `b` is evaluated, and may throw, only when `a` is true. */
  function And(a: Result<bool>, b: Result<bool>): (r: Result<bool>)
    ensures r == Ok(true) <==> a == Ok(true) && b == Ok(true)
    ensures r.Thrown? <==> a.Thrown? || (a == Ok(true) && b.Thrown?)
  {
    if a.Thrown? then a else if !a.value then Ok(false) else b
  }

  /** Java's `a || b`: `b` is evaluated, and may throw, only when `a` is false. */
  function Or(a: Result<bool>, b: Result<bool>): (r: Result<bool>)
    ensures r == Ok(true) <==> a == Ok(true) || (a == Ok(false) && b == Ok(true))
    ensures r.Thrown? <==> a.Thrown? || (a == Ok(false) && b.Thrown?)
  {
    if a.Thrown? then a else if a.value then Ok(true) else b
  }

  /** Java's `!a` */
  function Not(a: Result<bool>): (r: Result<bool>)
    ensures r.Thrown? <==> a.Thrown?
    ensures r.Ok? ==> r.value == !a.value
  {
    if a.Thrown? then a else Ok(!a.value)
  }

  /** What string concatenation prints for a possibly null string. */
  function Printed(s: JString): string
  {
    if s == None then "null" else s.value
  }

  /** A `java.util.Date`; the mappers only copy it. */
  datatype Date = Date(epochMillis: int)

  datatype Coding = Coding(system: JString, code: JString)

  datatype CodeableConcept = CodeableConcept(coding: seq<Coding>)

  const NoCoding := Coding(None, None)
  const NoConcept := CodeableConcept([])

  /** `getCodingFirstRep()`: the first coding, or a fresh empty one when there is none. */
  function FirstCoding(cc: CodeableConcept): Coding
  {
    if |cc.coding| == 0 then NoCoding else cc.coding[0]
  }

  /** A concept with the single coding (`system`, `code`). */
  function Coded(system: string, code: JString): CodeableConcept
  {
    CodeableConcept([Coding(Some(system), code)])
  }

  /** A FHIR `Range` whose quantity values the mappers read as Java `long`s; `None` is a
      quantity without a value. */
  datatype Range = Range(high: Option<int>, low: Option<int>)

  /** The value of an extension, with the types the mappers look for. */
  datatype Value =
    | NoValue
    | StringValue(s: string)
    | ConceptValue(concept: CodeableConcept)
    | RangeValue(range: Range)
    | ReferenceValue(reference: JString)

  /** `getValue().primitiveValue()`: the text of a string value, `null` for a complex
      value, and a `NullPointerException` when there is no value at all. */
  function PrimitiveValue(v: Value): Result<JString>
  {
    match v
    case NoValue => Thrown(NullPointer)
    case StringValue(s) => Ok(Some(s))
    case _ => Ok(None)
  }

  /** `getValueCodeableConcept()` of an Observation: the concept, or a fresh empty one. */
  function ConceptOf(v: Value): CodeableConcept
  {
    if v.ConceptValue? then v.concept else NoConcept
  }

  datatype Extension = Extension(url: JString, value: Value)

  datatype Meta = Meta(profile: seq<string>, tag: seq<Coding>)

  const NoMeta := Meta([], [])

  function Profiled(url: string): Meta
  {
    Meta([url], [])
  }

  datatype Gender = Male | Female | OtherGender | UnknownGender

  /** The choice `deceased[x]` of a Patient. */
  datatype Deceased = NotRecorded | DeceasedBoolean(flag: bool) | DeceasedDateTime(at: Option<Date>)

  datatype Patient = Patient(id: JString, meta: Meta, gender: Option<Gender>,
                             birthDate: Option<Date>, deceased: Deceased)

  datatype Condition = Condition(id: JString, meta: Meta, subject: JString, onset: Option<Date>,
                                 category: seq<CodeableConcept>, code: CodeableConcept)

  datatype Observation = Observation(id: JString, meta: Meta, subject: JString,
                                     code: CodeableConcept, value: Value)

  /** `new Condition()` and `new Observation()`: the "empty" resources. */
  const EmptyCondition := Condition(None, NoMeta, None, None, [], NoConcept)
  const EmptyObservation := Observation(None, NoMeta, None, NoConcept, NoValue)

  datatype SpecimenCollection = SpecimenCollection(collected: Option<Date>, bodySite: CodeableConcept,
                                                   fastingStatus: CodeableConcept, extension: seq<Extension>)

  datatype Processing = Processing(extension: seq<Extension>)

  datatype Specimen = Specimen(id: JString, meta: Meta, subject: JString, sampleType: CodeableConcept,
                               collection: SpecimenCollection, processing: seq<Processing>,
                               parent: seq<JString>, extension: seq<Extension>)

  /** `getProcessingFirstRep()`: the first processing step, or a fresh empty one. */
  function FirstProcessing(s: Specimen): Processing
  {
    if |s.processing| == 0 then Processing([]) else s.processing[0]
  }

  datatype Identifier = Identifier(system: JString, value: JString)

  /** `getIdentifierFirstRep()` */
  function FirstIdentifier(ids: seq<Identifier>): Identifier
  {
    if |ids| == 0 then Identifier(None, None) else ids[0]
  }

  datatype HumanName = HumanName(family: JString, given: seq<string>, prefix: seq<string>, text: JString)

  datatype Address = Address(city: JString, country: JString, postalCode: JString, line: seq<string>,
                             state: JString, text: JString)

  datatype ContactPoint = ContactPoint(system: JString, value: JString)

  datatype Contact = Contact(purpose: CodeableConcept, name: HumanName, telecom: seq<ContactPoint>,
                             address: Address, extension: seq<Extension>)

  datatype Organization = Organization(id: JString, meta: Meta, identifier: seq<Identifier>, name: JString,
                                       alias: seq<string>, extension: seq<Extension>, contact: seq<Contact>,
                                       partOf: JString)

  datatype OrganizationAffiliation = OrganizationAffiliation(id: JString, meta: Meta)

  /** Any resource a bundle can carry. */
  datatype Resource =
    | PatientResource(patient: Patient)
    | ConditionResource(condition: Condition)
    | ObservationResource(observation: Observation)
    | SpecimenResource(specimen: Specimen)
    | OrganizationResource(organization: Organization)
    | AffiliationResource(affiliation: OrganizationAffiliation)
  {
    /** `getResourceType()`, printed */
    function TypeName(): string
    {
      match this
      case PatientResource(_) => "Patient"
      case ConditionResource(_) => "Condition"
      case ObservationResource(_) => "Observation"
      case SpecimenResource(_) => "Specimen"
      case OrganizationResource(_) => "Organization"
      case AffiliationResource(_) => "OrganizationAffiliation"
    }

    /** `getIdElement().getValue()` */
    function Id(): JString
    {
      match this
      case PatientResource(r) => r.id
      case ConditionResource(r) => r.id
      case ObservationResource(r) => r.id
      case SpecimenResource(r) => r.id
      case OrganizationResource(r) => r.id
      case AffiliationResource(r) => r.id
    }

    function GetMeta(): Meta
    {
      match this
      case PatientResource(r) => r.meta
      case ConditionResource(r) => r.meta
      case ObservationResource(r) => r.meta
      case SpecimenResource(r) => r.meta
      case OrganizationResource(r) => r.meta
      case AffiliationResource(r) => r.meta
    }

    function WithMeta(m: Meta): Resource
    {
      match this
      case PatientResource(r) => PatientResource(r.(meta := m))
      case ConditionResource(r) => ConditionResource(r.(meta := m))
      case ObservationResource(r) => ObservationResource(r.(meta := m))
      case SpecimenResource(r) => SpecimenResource(r.(meta := m))
      case OrganizationResource(r) => OrganizationResource(r.(meta := m))
      case AffiliationResource(r) => AffiliationResource(r.(meta := m))
    }
  }
}
