/** Class `CauseOfDeathMapping`: a bbmri.de cause-of-death Observation and an MII
    cause-of-death Condition, both carrying an ICD-10 code, translated into each other. */
module CauseOfDeathMapping {
  import opened Fhir
  import CheckResources

  const IcdSystem := "http://hl7.org/fhir/sid/icd-10"
  const BbmriCauseOfDeathProfile := "https://fhir.bbmri.de/StructureDefinition/CauseOfDeath"
  const MiiCauseOfDeathProfile :=
    "https://www.medizininformatik-initiative.de/fhir/core/modul-person/StructureDefinition/Todesursache"

  /** The fields of a `CauseOfDeathMapping`. */
  datatype CauseRecord = CauseRecord(causeOfDeath: JString, miiId: JString, miiPatientId: JString,
                                     bbmriId: JString, bbmriPatientId: JString)

  /** A new mapping: every field is the empty string. */
  const Fresh := CauseRecord(Some(""), Some(""), Some(""), Some(""), Some(""))

  predicate AllNonNull(rec: CauseRecord)
  {
    rec.causeOfDeath != None && rec.miiId != None && rec.miiPatientId != None
    && rec.bbmriId != None && rec.bbmriPatientId != None
  }

  /** The cause (and the fields captured before it) of a coding: the code when the system is
      ICD-10, otherwise unchanged; `getSystem().equals(...)` on a missing system throws. */
  function CaptureCause(rec: CauseRecord, coding: Coding): (s: Step<CauseRecord, ()>)
    ensures s.result.Thrown? <==> coding.system == None
    ensures s.after == if coding.system == Some(IcdSystem) then rec.(causeOfDeath := coding.code) else rec
  {
    if coding.system == None then Step(Thrown(NullPointer), rec)
    else if coding.system.value == IcdSystem then Step(Ok(()), rec.(causeOfDeath := coding.code))
    else Step(Ok(()), rec)
  }

  /** `fromBbmri`: only for an Observation of the bbmri.de cause-of-death profile, the id,
      the ICD-10 cause from the value, and the subject are captured. A value without a
      first coding system throws after the id is stored. */
  function CaptureBbmri(rec: CauseRecord, o: Observation, inProfile: ProfileTest): (s: Step<CauseRecord, ()>)
    ensures !inProfile(o.meta.profile, BbmriCauseOfDeathProfile) ==> s == Step(Ok(()), rec)
    ensures inProfile(o.meta.profile, BbmriCauseOfDeathProfile) ==>
              (s.result.Thrown? <==> FirstCoding(ConceptOf(o.value)).system == None)
    ensures s.after.miiId == rec.miiId && s.after.miiPatientId == rec.miiPatientId
    ensures s.result.Ok? && inProfile(o.meta.profile, BbmriCauseOfDeathProfile) ==>
              s.after.bbmriId == o.id && s.after.bbmriPatientId == o.subject
              && s.after.causeOfDeath == (if FirstCoding(ConceptOf(o.value)).system == Some(IcdSystem)
                                          then FirstCoding(ConceptOf(o.value)).code else rec.causeOfDeath)
  {
    if !inProfile(o.meta.profile, BbmriCauseOfDeathProfile) then Step(Ok(()), rec)
    else
      var s := CaptureCause(rec.(bbmriId := o.id), FirstCoding(ConceptOf(o.value)));
      if s.result.Thrown? then s else Step(Ok(()), s.after.(bbmriPatientId := o.subject))
  }

  /** `fromMii`: only for a Condition of the MII cause-of-death profile, the id, the ICD-10
      cause from the code, and the subject are captured. */
  function CaptureMii(rec: CauseRecord, c: Condition, inProfile: ProfileTest): (s: Step<CauseRecord, ()>)
    ensures !inProfile(c.meta.profile, MiiCauseOfDeathProfile) ==> s == Step(Ok(()), rec)
    ensures inProfile(c.meta.profile, MiiCauseOfDeathProfile) ==>
              (s.result.Thrown? <==> FirstCoding(c.code).system == None)
    ensures s.after.bbmriId == rec.bbmriId && s.after.bbmriPatientId == rec.bbmriPatientId
    ensures s.result.Ok? && inProfile(c.meta.profile, MiiCauseOfDeathProfile) ==>
              s.after.miiId == c.id && s.after.miiPatientId == c.subject
              && s.after.causeOfDeath == (if FirstCoding(c.code).system == Some(IcdSystem)
                                          then FirstCoding(c.code).code else rec.causeOfDeath)
  {
    if !inProfile(c.meta.profile, MiiCauseOfDeathProfile) then Step(Ok(()), rec)
    else
      var s := CaptureCause(rec.(miiId := c.id), FirstCoding(c.code));
      if s.result.Thrown? then s else Step(Ok(()), s.after.(miiPatientId := c.subject))
  }

  /** `bbmriId`, `bbmriPatientId` and `causeOfDeath` are all blank. */
  function BbmriSideBlank(rec: CauseRecord): Result<bool>
  {
    And(IsBlank(rec.bbmriId), And(IsBlank(rec.bbmriPatientId), IsBlank(rec.causeOfDeath)))
  }

  /** The Observation `toBbmri` builds for non-blank data. */
  function BbmriObservation(rec: CauseRecord): Observation
  {
    Observation(rec.bbmriId, Profiled(BbmriCauseOfDeathProfile), rec.bbmriPatientId,
                Coded(CheckResources.LoincSystem, Some(CheckResources.BbmriCauseOfDeathCode)),
                ConceptValue(Coded(IcdSystem, rec.causeOfDeath)))
  }

  /** `toBbmri`: the MII id and patient replace empty bbmri.de ones; if then id, patient and
      cause are all blank the result is an empty Observation, otherwise the LOINC
      cause-of-death Observation with the ICD-10 cause as value. */
  function EmitBbmri(rec: CauseRecord): (s: Step<CauseRecord, Observation>)
    ensures AllNonNull(rec) ==> s.result.Ok?
    ensures s.result.Thrown? ==> s.result.fault == NullPointer
    ensures var id := if rec.bbmriId == Some("") && rec.miiId != Some("") then rec.miiId else rec.bbmriId;
            var patient := if rec.bbmriPatientId == Some("") && rec.miiPatientId != Some("") then rec.miiPatientId
                           else rec.bbmriPatientId;
            s.result.Thrown? <==>
              rec.bbmriId == None || (rec.bbmriId == Some("") && rec.miiId == None)
              || rec.miiPatientId == None || (rec.miiPatientId != Some("") && rec.bbmriPatientId == None)
              || (id.Some? && Blank(id.value)
                  && (patient == None || (patient.Some? && Blank(patient.value) && rec.causeOfDeath == None)))
    ensures s.result.Ok? ==>
              s.after.bbmriId == (if rec.bbmriId == Some("") && rec.miiId != Some("") then rec.miiId else rec.bbmriId)
              && s.after.bbmriPatientId ==
                   (if rec.bbmriPatientId == Some("") && rec.miiPatientId != Some("") then rec.miiPatientId
                    else rec.bbmriPatientId)
              && s.after == rec.(bbmriId := s.after.bbmriId, bbmriPatientId := s.after.bbmriPatientId)
    ensures s.result.Ok? ==>
              (s.result.value == EmptyObservation <==> BbmriSideBlank(s.after) == Ok(true))
    ensures s.result.Ok? && s.result.value != EmptyObservation ==> s.result.value == BbmriObservation(s.after)
  {
    var copyId := And(IsEmpty(rec.bbmriId), Not(IsEmpty(rec.miiId)));
    if copyId.Thrown? then Step(Thrown(copyId.fault), rec)
    else
      var r1 := if copyId.value then rec.(bbmriId := rec.miiId) else rec;
      var copyPatient := And(Not(IsEmpty(r1.miiPatientId)), IsEmpty(r1.bbmriPatientId));
      if copyPatient.Thrown? then Step(Thrown(copyPatient.fault), r1)
      else
        var r2 := if copyPatient.value then r1.(bbmriPatientId := r1.miiPatientId) else r1;
        var blank := BbmriSideBlank(r2);
        if blank.Thrown? then Step(Thrown(blank.fault), r2)
        else if blank.value then Step(Ok(EmptyObservation), r2)
        else Step(Ok(BbmriObservation(r2)), r2)
  }

  /** The Condition `toMii` builds for non-blank data. */
  function MiiCondition(rec: CauseRecord): Condition
  {
    Condition(rec.miiId, Profiled(MiiCauseOfDeathProfile), rec.miiPatientId, None,
              [Coded(CheckResources.LoincSystem, Some("79378-6")), Coded(CheckResources.SnomedSystem, Some("16100001"))],
              Coded(IcdSystem, rec.causeOfDeath))
  }

  /** `toMii`: blankness is tested on the bbmri.de fields before anything is copied, and
      gives an empty Condition; otherwise the bbmri.de id and patient replace empty MII
      ones, and the MII cause-of-death Condition carries the ICD-10 cause as code. */
  function EmitMii(rec: CauseRecord): (s: Step<CauseRecord, Condition>)
    ensures AllNonNull(rec) ==> s.result.Ok?
    ensures s.result.Thrown? ==> s.result.fault == NullPointer
    ensures s.result.Thrown? <==>
              rec.bbmriId == None || (Blank(rec.bbmriId.value) && rec.bbmriPatientId == None)
              || (Blank(rec.bbmriId.value) && Blank(rec.bbmriPatientId.value) && rec.causeOfDeath == None)
              || (BbmriSideBlank(rec) == Ok(false)
                  && ((rec.bbmriId != Some("") && rec.miiId == None) || rec.miiPatientId == None
                      || (rec.miiPatientId == Some("") && rec.bbmriPatientId == None)))
    ensures s.result.Ok? ==> (s.result.value == EmptyCondition <==> BbmriSideBlank(rec) == Ok(true))
    ensures s.result.Ok? && s.result.value == EmptyCondition ==> s.after == rec
    ensures s.result.Ok? && s.result.value != EmptyCondition ==>
              s.after.miiId == (if rec.miiId == Some("") && rec.bbmriId != Some("") then rec.bbmriId else rec.miiId)
              && s.after.miiPatientId ==
                   (if rec.miiPatientId == Some("") && rec.bbmriPatientId != Some("") then rec.bbmriPatientId
                    else rec.miiPatientId)
              && s.after == rec.(miiId := s.after.miiId, miiPatientId := s.after.miiPatientId)
    ensures s.result.Ok? && s.result.value != EmptyCondition ==> s.result.value == MiiCondition(s.after)
  {
    var blank := BbmriSideBlank(rec);
    if blank.Thrown? then Step(Thrown(blank.fault), rec)
    else if blank.value then Step(Ok(EmptyCondition), rec)
    else
      var copyId := And(Not(IsEmpty(rec.bbmriId)), IsEmpty(rec.miiId));
      if copyId.Thrown? then Step(Thrown(copyId.fault), rec)
      else
        var r1 := if copyId.value then rec.(miiId := rec.bbmriId) else rec;
        var copyPatient := And(IsEmpty(r1.miiPatientId), Not(IsEmpty(r1.bbmriPatientId)));
        if copyPatient.Thrown? then Step(Thrown(copyPatient.fault), r1)
        else
          var r2 := if copyPatient.value then r1.(miiPatientId := r1.bbmriPatientId) else r1;
          Step(Ok(MiiCondition(r2)), r2)
  }

  /** A non-empty `toBbmri` result is again a bbmri.de cause of death, with the ICD-10
      cause as value; the empty one cannot even be tested, since it has no code. */
  lemma EmittedObservationIsCauseOfDeath(rec: CauseRecord)
    ensures var s := EmitBbmri(rec);
            s.result.Ok? && s.result.value != EmptyObservation ==>
              CheckResources.CheckBbmriCauseOfDeath(s.result.value) == Ok(true)
              && FirstCoding(ConceptOf(s.result.value.value)) == Coding(Some(IcdSystem), rec.causeOfDeath)
              && s.result.value.meta.profile == [BbmriCauseOfDeathProfile]
    ensures CheckResources.CheckBbmriCauseOfDeath(EmptyObservation) == Thrown(NullPointer)
  {
  }

  /** A non-empty `toMii` result is again an MII cause of death, with the ICD-10 cause as
      code; the empty one is not. */
  lemma EmittedConditionIsCauseOfDeath(rec: CauseRecord)
    ensures var s := EmitMii(rec);
            s.result.Ok? && s.result.value != EmptyCondition ==>
              CheckResources.CheckMiiCauseOfDeath(s.result.value)
              && FirstCoding(s.result.value.code) == Coding(Some(IcdSystem), rec.causeOfDeath)
              && s.result.value.meta.profile == [MiiCauseOfDeathProfile]
    ensures !CheckResources.CheckMiiCauseOfDeath(EmptyCondition)
  {
  }

  /** bbmri.de to MII: a fresh mapping fed a bbmri.de cause of death with an ICD-10 code,
      a non-blank id and a subject emits an MII cause of death with the same three. */
  lemma BbmriToMiiKeepsCause(o: Observation, inProfile: ProfileTest)
    requires inProfile(o.meta.profile, BbmriCauseOfDeathProfile)
    requires FirstCoding(ConceptOf(o.value)).system == Some(IcdSystem)
    requires o.id.Some? && !Blank(o.id.value)
    requires o.subject.Some? && FirstCoding(ConceptOf(o.value)).code.Some?
    ensures var cap := CaptureBbmri(Fresh, o, inProfile);
            var s := EmitMii(cap.after);
            cap.result.Ok? && s.result.Ok? && s.result.value != EmptyCondition
            && s.result.value.id == o.id && s.result.value.subject == o.subject
            && s.result.value.code == Coded(IcdSystem, FirstCoding(ConceptOf(o.value)).code)
  {
  }

  /** MII to bbmri.de: a fresh mapping fed an MII cause of death with an ICD-10 code, a
      non-blank id and a subject emits a bbmri.de cause of death with the same three. */
  lemma MiiToBbmriKeepsCause(c: Condition, inProfile: ProfileTest)
    requires inProfile(c.meta.profile, MiiCauseOfDeathProfile)
    requires FirstCoding(c.code).system == Some(IcdSystem)
    requires c.id.Some? && !Blank(c.id.value)
    requires c.subject.Some? && FirstCoding(c.code).code.Some?
    ensures var cap := CaptureMii(Fresh, c, inProfile);
            var s := EmitBbmri(cap.after);
            cap.result.Ok? && s.result.Ok? && s.result.value != EmptyObservation
            && s.result.value.id == c.id && s.result.value.subject == c.subject
            && s.result.value.value == ConceptValue(Coded(IcdSystem, FirstCoding(c.code).code))
  {
  }

  /** MII data alone does not make `toMii` emit anything unless it carried a cause: the
      blankness test looks only at the bbmri.de fields, which stay empty. */
  lemma MiiOnlyIsEmptyWithoutCause(c: Condition, inProfile: ProfileTest)
    requires FirstCoding(c.code).system != Some(IcdSystem)
    ensures var cap := CaptureMii(Fresh, c, inProfile);
            cap.result.Ok? ==> EmitMii(cap.after).result == Ok(EmptyCondition)
  {
  }

  class CauseOfDeathMapping {
    var causeOfDeath: JString
    var miiId: JString
    var miiPatientId: JString
    var bbmriId: JString
    var bbmriPatientId: JString

    function Snapshot(): CauseRecord
      reads this
    {
      CauseRecord(causeOfDeath, miiId, miiPatientId, bbmriId, bbmriPatientId)
    }

    constructor ()
      ensures Snapshot() == Fresh
    {
      causeOfDeath, miiId, miiPatientId := Some(""), Some(""), Some("");
      bbmriId, bbmriPatientId := Some(""), Some("");
    }

    method FromBbmri(resource: Observation, inProfile: ProfileTest) returns (r: Result<()>)
      modifies this
      ensures var s := CaptureBbmri(old(Snapshot()), resource, inProfile);
              r == s.result && Snapshot() == s.after
    {
      r := Ok(());
      if inProfile(resource.meta.profile, BbmriCauseOfDeathProfile) {
        bbmriId := resource.id;
        var coding := FirstCoding(ConceptOf(resource.value));
        if coding.system == None {
          return Thrown(NullPointer);
        }
        if coding.system.value == IcdSystem {
          causeOfDeath := coding.code;
        }
        bbmriPatientId := resource.subject;
      }
    }

    method FromMii(resource: Condition, inProfile: ProfileTest) returns (r: Result<()>)
      modifies this
      ensures var s := CaptureMii(old(Snapshot()), resource, inProfile);
              r == s.result && Snapshot() == s.after
    {
      r := Ok(());
      if inProfile(resource.meta.profile, MiiCauseOfDeathProfile) {
        miiId := resource.id;
        var coding := FirstCoding(resource.code);
        if coding.system == None {
          return Thrown(NullPointer);
        }
        if coding.system.value == IcdSystem {
          causeOfDeath := coding.code;
        }
        miiPatientId := resource.subject;
      }
    }

    method ToBbmri() returns (r: Result<Observation>)
      modifies this
      ensures var s := EmitBbmri(old(Snapshot()));
              r == s.result && Snapshot() == s.after
    {
      var copyId := And(IsEmpty(bbmriId), Not(IsEmpty(miiId)));
      if copyId.Thrown? {
        return Thrown(copyId.fault);
      }
      if copyId.value {
        bbmriId := miiId;
      }
      var copyPatient := And(Not(IsEmpty(miiPatientId)), IsEmpty(bbmriPatientId));
      if copyPatient.Thrown? {
        return Thrown(copyPatient.fault);
      }
      if copyPatient.value {
        bbmriPatientId := miiPatientId;
      }
      var blank := BbmriSideBlank(Snapshot());
      if blank.Thrown? {
        return Thrown(blank.fault);
      }
      if blank.value {
        return Ok(EmptyObservation);
      }
      r := Ok(BbmriObservation(Snapshot()));
    }

    method ToMii() returns (r: Result<Condition>)
      modifies this
      ensures var s := EmitMii(old(Snapshot()));
              r == s.result && Snapshot() == s.after
    {
      var blank := BbmriSideBlank(Snapshot());
      if blank.Thrown? {
        return Thrown(blank.fault);
      }
      if blank.value {
        return Ok(EmptyCondition);
      }
      var copyId := And(Not(IsEmpty(bbmriId)), IsEmpty(miiId));
      if copyId.Thrown? {
        return Thrown(copyId.fault);
      }
      if copyId.value {
        miiId := bbmriId;
      }
      var copyPatient := And(IsEmpty(miiPatientId), Not(IsEmpty(bbmriPatientId)));
      if copyPatient.Thrown? {
        return Thrown(copyPatient.fault);
      }
      if copyPatient.value {
        miiPatientId := bbmriPatientId;
      }
      r := Ok(MiiCondition(Snapshot()));
    }
  }
}
