/** Class `CollectionMapping`: a collection is an Organization that is part of a biobank.
    The mapping keeps the captured Organization and its parent reference, and translates
    it with the biobank mapping it owns, then overrides the profile and the parent. */
module CollectionMapping {
  import opened Fhir
  import opened BiobankMapping

  function CollectionProfile(side: Side): string
  {
    if side == Bbmri then "https://fhir.bbmri.de/StructureDefinition/Collection"
    else "https://www.medizininformatik-initiative.de/fhir/ext/modul-biobank/StructureDefinition/Organization"
  }

  /** The fields of a `CollectionMapping`, with the fields of the biobank mapping it owns. */
  datatype CollectionRecord = CollectionRecord(refToParent: JString, bbmriOrga: Option<Organization>,
                                               miiOrga: Option<Organization>, biobank: BiobankRecord)

  const FreshCollection := CollectionRecord(None, None, None, Fresh)

  /** `fromBbmri` (side `Bbmri`) and `fromMii` (side `Mii`): the parent reference and the
      Organization itself, under its side. */
  function CaptureCollection(side: Side, rec: CollectionRecord, o: Organization): (r: CollectionRecord)
  {
    if side == Bbmri then rec.(refToParent := o.partOf, bbmriOrga := Some(o))
    else rec.(refToParent := o.partOf, miiOrga := Some(o))
  }

  /** `toBbmri` (target `Bbmri`) and `toMii` (target `Mii`): the owned biobank mapping
      captures the Organization stored under the other side (reading a `null` one throws)
      and emits it; the result gets the collection profile of the target and the stored
      parent reference. An exception leaves the biobank mapping as far as it got. */
  function EmitCollection(target: Side, rec: CollectionRecord): Step<CollectionRecord, Organization>
  {
    var source := if target == Bbmri then rec.miiOrga else rec.bbmriOrga;
    if source == None then Step(Thrown(NullPointer), rec)
    else
      var cap := Capture(Other(target), rec.biobank, source.value);
      if cap.result.Thrown? then Step(Thrown(cap.result.fault), rec.(biobank := cap.after))
      else
        var out := Emit(target, cap.after);
        var after := rec.(biobank := out.after);
        if out.result.Thrown? then Step(Thrown(out.result.fault), after)
        else Step(Ok(out.result.value.(meta := Profiled(CollectionProfile(target)), partOf := rec.refToParent)), after)
  }

  /** What the collection output is: exactly the biobank translation of the stored
      Organization, except for the collection profile and the stored parent reference. */
  lemma EmitIsBiobankTranslation(target: Side, rec: CollectionRecord)
    requires (if target == Bbmri then rec.miiOrga else rec.bbmriOrga).Some?
    ensures var source := (if target == Bbmri then rec.miiOrga else rec.bbmriOrga).value;
            var cap := Capture(Other(target), rec.biobank, source);
            var s := EmitCollection(target, rec);
            (s.result.Ok? <==> cap.result.Ok? && Emit(target, cap.after).result.Ok?)
            && (s.result.Ok? ==>
                  s.result.value.meta == Profiled(CollectionProfile(target)) && s.result.value.partOf == rec.refToParent
                  && s.result.value.(meta := Profiled(BiobankProfile(target)), partOf := None)
                     == Emit(target, cap.after).result.value)
  {
  }

  /** bbmri.de to MII: a fresh mapping fed one bbmri.de collection without faulty
      extensions writes an MII Organization with the same id, name, contact count and
      parent, under the MII profile. */
  lemma BbmriCollectionToMii(o: Organization)
    requires forall i | 0 <= i < |o.extension| :: !DescriptionFault(Bbmri, o.extension[i])
    requires forall i | 0 <= i < |o.contact| :: !ContactFault(Mii, o.contact[i])
    ensures var s := EmitCollection(Mii, CaptureCollection(Bbmri, FreshCollection, o));
            s.result.Ok? && s.result.value.id == o.id && s.result.value.name == o.name
            && s.result.value.partOf == o.partOf && |s.result.value.contact| == |o.contact|
            && s.result.value.meta == Profiled(CollectionProfile(Mii))
  {
    BbmriToMiiCarriesOrganization(o);
  }

  /** A collection never captured from the other side cannot be written. */
  lemma NothingCapturedThrows(target: Side, o: Organization)
    ensures EmitCollection(target, CaptureCollection(target, FreshCollection, o)).result == Thrown(NullPointer)
  {
  }

  class CollectionMapping {
    var refToParent: JString
    var bbmriOrga: Option<Organization>
    var miiOrga: Option<Organization>
    const biobankMapping: BiobankMapping

    function Snapshot(): CollectionRecord
      reads this, biobankMapping
    {
      CollectionRecord(refToParent, bbmriOrga, miiOrga, biobankMapping.Snapshot())
    }

    constructor ()
      ensures Snapshot() == FreshCollection && fresh(biobankMapping)
    {
      refToParent, bbmriOrga, miiOrga := None, None, None;
      biobankMapping := new BiobankMapping();
    }

    method FromBbmri(resource: Organization)
      modifies this
      ensures Snapshot() == CaptureCollection(Bbmri, old(Snapshot()), resource)
    {
      refToParent := resource.partOf;
      bbmriOrga := Some(resource);
    }

    method FromMii(resource: Organization)
      modifies this
      ensures Snapshot() == CaptureCollection(Mii, old(Snapshot()), resource)
    {
      refToParent := resource.partOf;
      miiOrga := Some(resource);
    }

    method Write(target: Side) returns (r: Result<Organization>)
      modifies biobankMapping
      ensures Step(r, Snapshot()) == EmitCollection(target, old(Snapshot()))
    {
      var source := if target == Bbmri then miiOrga else bbmriOrga;
      if source == None {
        return Thrown(NullPointer);
      }
      var cap := biobankMapping.Read(Other(target), source.value);
      if cap.Thrown? {
        return Thrown(cap.fault);
      }
      var out := biobankMapping.Write(target);
      if out.Thrown? {
        return out;
      }
      r := Ok(out.value.(meta := Profiled(CollectionProfile(target)), partOf := refToParent));
    }

    method ToBbmri() returns (r: Result<Organization>)
      modifies biobankMapping
      ensures Step(r, Snapshot()) == EmitCollection(Bbmri, old(Snapshot()))
    {
      r := Write(Bbmri);
    }

    method ToMii() returns (r: Result<Organization>)
      modifies biobankMapping
      ensures Step(r, Snapshot()) == EmitCollection(Mii, old(Snapshot()))
    {
      r := Write(Mii);
    }
  }
}
