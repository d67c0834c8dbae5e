/** Class `PatientMapping`: captures a bbmri.de or MII Patient into its fields and emits the
    Patient of the other profile, carrying the id over when only one side knows it. */
module PatientMapping {
  import opened Fhir

  const BbmriPatientProfile := "https://fhir.simplifier.net/bbmri.de/StructureDefinition/Patient"
  const MiiPatientProfile :=
    "https://www.medizininformatik-initiative.de/fhir/core/modul-person/StructureDefinition/Patient"

  /** The fields of a `PatientMapping`; `gender` holds the code `toCode` gives, which
      `fromCode` maps back to the same gender. */
  datatype PatientRecord = PatientRecord(miiId: JString, bbmriId: JString, birthDate: Option<Date>,
                                         deceased: bool, deceasedAt: Option<Date>, gender: Option<Gender>)

  /** A new mapping: both ids are the empty string, everything else unset. */
  const Fresh := PatientRecord(Some(""), Some(""), None, false, None, None)

  /** `hasDeceased()`: a boolean or a date-time with a value. */
  predicate HasDeceased(p: Patient)
  {
    p.deceased.DeceasedBoolean? || (p.deceased.DeceasedDateTime? && p.deceased.at.Some?)
  }

  /** `getDeceasedDateTimeType().getValue()` when the patient carries a date-time. */
  function DeceasedAt(p: Patient): Option<Date>
  {
    if p.deceased.DeceasedDateTime? then p.deceased.at else None
  }

  /** `fromBbmri`: the id becomes `bbmriId`; birth date and deceased state are replaced;
      the gender only when the patient has one. */
  function CaptureBbmri(rec: PatientRecord, p: Patient): (r: PatientRecord)
    ensures r.miiId == rec.miiId && r.bbmriId == p.id && r.birthDate == p.birthDate
    ensures r.gender == if p.gender.Some? then p.gender else rec.gender
    ensures r.deceased == HasDeceased(p)
    ensures r.deceasedAt == if HasDeceased(p) then DeceasedAt(p) else rec.deceasedAt
  {
    var r := rec.(bbmriId := p.id, birthDate := p.birthDate);
    var r := if p.gender.Some? then r.(gender := p.gender) else r;
    if HasDeceased(p) then r.(deceased := true, deceasedAt := DeceasedAt(p)) else r.(deceased := false)
  }

  /** `fromMii`: like `fromBbmri` for `miiId`, except that the patient counts as deceased only
      when `deceasedBoolean` is true. */
  function CaptureMii(rec: PatientRecord, p: Patient): (r: PatientRecord)
    ensures r.bbmriId == rec.bbmriId && r.miiId == p.id && r.birthDate == p.birthDate
    ensures r.gender == if p.gender.Some? then p.gender else rec.gender
    ensures r.deceased <==> p.deceased == DeceasedBoolean(true)
    ensures r.deceasedAt == if r.deceased then None else rec.deceasedAt
  {
    var r := rec.(miiId := p.id, birthDate := p.birthDate);
    var r := if p.gender.Some? then r.(gender := p.gender) else r;
    if p.deceased == DeceasedBoolean(true) then r.(deceased := true, deceasedAt := DeceasedAt(p))
    else r.(deceased := false)
  }

  /** The Patient both `toX` methods build around an id. */
  function Build(profile: string, rec: PatientRecord, id: JString): Patient
  {
    Patient(id, Profiled(profile), rec.gender, rec.birthDate,
            if rec.deceased then DeceasedDateTime(rec.deceasedAt) else NotRecorded)
  }

  /** `toBbmri`: when `bbmriId` is empty and `miiId` is not, `miiId` is copied into
      `bbmriId` first; then `bbmriId` is the id. A `null` id that gets tested throws. */
  function EmitBbmri(rec: PatientRecord): (s: Step<PatientRecord, Patient>)
    ensures s.result.Thrown? <==> rec.bbmriId == None || (rec.bbmriId == Some("") && rec.miiId == None)
    ensures s.result.Thrown? ==> s.result.fault == NullPointer && s.after == rec
    ensures s.result.Ok? ==> s.after.bbmriId == (if rec.bbmriId == Some("") then rec.miiId else rec.bbmriId)
    ensures s.result.Ok? ==> s.after == rec.(bbmriId := s.after.bbmriId) && s.result.value.id == s.after.bbmriId
    ensures s.result.Ok? ==> s.result.value.meta == Profiled(BbmriPatientProfile)
  {
    match IsEmpty(rec.bbmriId)
    case Thrown(f) => Step(Thrown(f), rec)
    case Ok(bbmriEmpty) =>
      if bbmriEmpty then
        match IsEmpty(rec.miiId)
        case Thrown(f) => Step(Thrown(f), rec)
        case Ok(miiEmpty) =>
          var after := if !miiEmpty then rec.(bbmriId := rec.miiId) else rec;
          Step(Ok(Build(BbmriPatientProfile, after, after.bbmriId)), after)
      else
        Step(Ok(Build(BbmriPatientProfile, rec, rec.bbmriId)), rec)
  }

  /** `toMii`: when `bbmriId` is not empty and `miiId` is, `bbmriId` is copied into `miiId`
      first; then `miiId` is the id. A `null` id that gets tested throws. */
  function EmitMii(rec: PatientRecord): (s: Step<PatientRecord, Patient>)
    ensures s.result.Thrown? <==> rec.bbmriId == None || (rec.bbmriId != Some("") && rec.miiId == None)
    ensures s.result.Thrown? ==> s.result.fault == NullPointer && s.after == rec
    ensures s.result.Ok? ==> s.after.miiId == (if rec.miiId == Some("") then rec.bbmriId else rec.miiId)
    ensures s.result.Ok? ==> s.after == rec.(miiId := s.after.miiId) && s.result.value.id == s.after.miiId
    ensures s.result.Ok? ==> s.result.value.meta == Profiled(MiiPatientProfile)
  {
    match IsEmpty(rec.bbmriId)
    case Thrown(f) => Step(Thrown(f), rec)
    case Ok(bbmriEmpty) =>
      if !bbmriEmpty then
        match IsEmpty(rec.miiId)
        case Thrown(f) => Step(Thrown(f), rec)
        case Ok(miiEmpty) =>
          var after := if miiEmpty then rec.(miiId := rec.bbmriId) else rec;
          Step(Ok(Build(MiiPatientProfile, after, after.miiId)), after)
      else
        Step(Ok(Build(MiiPatientProfile, rec, rec.miiId)), rec)
  }

  /** The demographic part of both outputs: gender and birth date exactly as captured
      (absent when never captured), and a deceased date-time exactly when the flag is set. */
  lemma EmittedDemographics(rec: PatientRecord)
    ensures var s := EmitBbmri(rec);
            s.result.Ok? ==> s.result.value.gender == rec.gender && s.result.value.birthDate == rec.birthDate
                             && (s.result.value.deceased.DeceasedDateTime? <==> rec.deceased)
                             && (rec.deceased ==> s.result.value.deceased.at == rec.deceasedAt)
    ensures var s := EmitMii(rec);
            s.result.Ok? ==> s.result.value.gender == rec.gender && s.result.value.birthDate == rec.birthDate
                             && (s.result.value.deceased.DeceasedDateTime? <==> rec.deceased)
                             && (rec.deceased ==> s.result.value.deceased.at == rec.deceasedAt)
  {
  }

  /** bbmri.de to MII: a fresh mapping fed one bbmri.de Patient with an id emits an MII
      Patient with the same id, gender and birth date. A Patient without an id makes the
      emission throw. */
  lemma BbmriToMiiKeepsPatient(p: Patient)
    ensures var s := EmitMii(CaptureBbmri(Fresh, p));
            (s.result.Thrown? <==> p.id == None)
            && (s.result.Ok? ==> s.result.value.id == p.id && s.result.value.gender == p.gender
                                 && s.result.value.birthDate == p.birthDate)
  {
  }

  /** MII to bbmri.de: a fresh mapping fed one MII Patient with an id emits a bbmri.de
      Patient with the same id, gender and birth date; without an id it throws. */
  lemma MiiToBbmriKeepsPatient(p: Patient)
    ensures var s := EmitBbmri(CaptureMii(Fresh, p));
            (s.result.Thrown? <==> p.id == None)
            && (s.result.Ok? ==> s.result.value.id == p.id && s.result.value.gender == p.gender
                                 && s.result.value.birthDate == p.birthDate)
  {
  }

  /** Emitting changes the fields at most once: a second `toMii` (or `toBbmri`) call emits
      the same Patient and leaves the same fields. */
  lemma EmitIdempotent(rec: PatientRecord)
    ensures EmitMii(rec).result.Ok? ==> EmitMii(EmitMii(rec).after) == EmitMii(rec)
    ensures EmitBbmri(rec).result.Ok? ==> EmitBbmri(EmitBbmri(rec).after) == EmitBbmri(rec)
  {
  }

  class PatientMapping {
    var miiId: JString
    var bbmriId: JString
    var birthDate: Option<Date>
    var patientDeceased: bool
    var patientDeceasedDateTime: Option<Date>
    var gender: Option<Gender>

    function Snapshot(): PatientRecord
      reads this
    {
      PatientRecord(miiId, bbmriId, birthDate, patientDeceased, patientDeceasedDateTime, gender)
    }

    constructor ()
      ensures Snapshot() == Fresh
    {
      miiId := Some("");
      bbmriId := Some("");
      birthDate := None;
      patientDeceased := false;
      patientDeceasedDateTime := None;
      gender := None;
    }

    method FromBbmri(resource: Patient)
      modifies this
      ensures Snapshot() == CaptureBbmri(old(Snapshot()), resource)
    {
      bbmriId := resource.id;
      birthDate := resource.birthDate;
      if resource.gender.Some? {
        gender := resource.gender;
      }
      if HasDeceased(resource) {
        patientDeceased := true;
        patientDeceasedDateTime := DeceasedAt(resource);
      } else {
        patientDeceased := false;
      }
    }

    method FromMii(resource: Patient)
      modifies this
      ensures Snapshot() == CaptureMii(old(Snapshot()), resource)
    {
      miiId := resource.id;
      birthDate := resource.birthDate;
      if resource.gender.Some? {
        gender := resource.gender;
      }
      if resource.deceased == DeceasedBoolean(true) {
        patientDeceased := true;
        patientDeceasedDateTime := DeceasedAt(resource);
      } else {
        patientDeceased := false;
      }
    }

    method ToBbmri() returns (r: Result<Patient>)
      modifies this
      ensures r == EmitBbmri(old(Snapshot())).result && Snapshot() == EmitBbmri(old(Snapshot())).after
    {
      if bbmriId == None {
        return Thrown(NullPointer);
      }
      if bbmriId.value == "" {
        if miiId == None {
          return Thrown(NullPointer);
        }
        if miiId.value != "" {
          bbmriId := miiId;
        }
      }
      r := Ok(Build(BbmriPatientProfile, Snapshot(), bbmriId));
    }

    method ToMii() returns (r: Result<Patient>)
      modifies this
      ensures r == EmitMii(old(Snapshot())).result && Snapshot() == EmitMii(old(Snapshot())).after
    {
      if bbmriId == None {
        return Thrown(NullPointer);
      }
      if bbmriId.value != "" {
        if miiId == None {
          return Thrown(NullPointer);
        }
        if miiId.value == "" {
          miiId := bbmriId;
        }
      }
      r := Ok(Build(MiiPatientProfile, Snapshot(), miiId));
    }
  }
}
