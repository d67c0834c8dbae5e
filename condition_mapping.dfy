/** Class `ConditionMapping`: captures a diagnosis Condition into per-code-system fields and
    emits the Condition of the other profile with the ICD-10-GM diagnosis preferred. */
module ConditionMapping {
  import opened Fhir

  const Icd10GmSystem := "http://fhir.de/CodeSystem/bfarm/icd-10-gm"
  const Icd10WhoSystem := "http://hl7.org/fhir/sid/icd-10"
  const Icd9System := "http://hl7.org/fhir/sid/icd-9"
  const BbmriConditionProfile := "https://fhir.bbmri.de/StructureDefinition/Condition"
  const MiiConditionProfile :=
    "https://www.medizininformatik-initiative.de/fhir/core/modul-diagnose/StructureDefinition/Diagnose"

  /** The fields of a `ConditionMapping`. Nothing assigns `diagnosisSnomed`. */
  datatype ConditionRecord = ConditionRecord(
    bbmriId: JString, bbmriSubject: JString, onset: Option<Date>,
    diagnosisIcd10Who: JString, diagnosisSnomed: JString, diagnosisIcd10Gm: JString, diagnosisIcd9: JString,
    miiId: JString, miiSubject: JString)

  /** A new mapping: both ids are the empty string, everything else `null`. */
  const Fresh := ConditionRecord(Some(""), None, None, None, None, None, None, Some(""), None)

  /** One pass of the `fromBbmri` loop: the coding's code goes to the field of its system;
      codings of other systems are only logged. */
  function SortCoding(rec: ConditionRecord, coding: Coding): ConditionRecord
  {
    if coding.system == Some(Icd10WhoSystem) then rec.(diagnosisIcd10Who := coding.code)
    else if coding.system == Some(Icd10GmSystem) then rec.(diagnosisIcd10Gm := coding.code)
    else if coding.system == Some(Icd9System) then rec.(diagnosisIcd9 := coding.code)
    else rec
  }

  /** The `fromBbmri` loop over the first `|cs|` codings. */
  function SortCodings(rec: ConditionRecord, cs: seq<Coding>): ConditionRecord
    decreases |cs|
  {
    if cs == [] then rec else SortCoding(SortCodings(rec, cs[..|cs| - 1]), cs[|cs| - 1])
  }

  /** `after` is what a field holds when the last coding of system `sys` in `cs` overwrites
      `before`: the code of that last coding, or `before` when there is none. */
  ghost predicate LastWins(cs: seq<Coding>, sys: string, before: JString, after: JString)
  {
    ((forall i | 0 <= i < |cs| :: cs[i].system != Some(sys)) ==> after == before)
    && (forall i | 0 <= i < |cs| && cs[i].system == Some(sys) ::
          (forall j | i < j < |cs| :: cs[j].system != Some(sys)) ==> after == cs[i].code)
  }

  /** Sorting the codings fills the WHO, GM and ICD-9 fields each from the last coding of
      its system, and changes nothing else. */
  lemma {:induction false} SortCodingsLastWins(rec: ConditionRecord, cs: seq<Coding>)
    ensures var r := SortCodings(rec, cs);
            LastWins(cs, Icd10WhoSystem, rec.diagnosisIcd10Who, r.diagnosisIcd10Who)
            && LastWins(cs, Icd10GmSystem, rec.diagnosisIcd10Gm, r.diagnosisIcd10Gm)
            && LastWins(cs, Icd9System, rec.diagnosisIcd9, r.diagnosisIcd9)
            && r == rec.(diagnosisIcd10Who := r.diagnosisIcd10Who, diagnosisIcd10Gm := r.diagnosisIcd10Gm,
                         diagnosisIcd9 := r.diagnosisIcd9)
    decreases |cs|
  {
    if cs != [] {
      var init := cs[..|cs| - 1];
      SortCodingsLastWins(rec, init);
      var m := SortCodings(rec, init);
      var r := SortCodings(rec, cs);
      LastWinsSnoc(cs, Icd10WhoSystem, rec.diagnosisIcd10Who, m.diagnosisIcd10Who, r.diagnosisIcd10Who);
      LastWinsSnoc(cs, Icd10GmSystem, rec.diagnosisIcd10Gm, m.diagnosisIcd10Gm, r.diagnosisIcd10Gm);
      LastWinsSnoc(cs, Icd9System, rec.diagnosisIcd9, m.diagnosisIcd9, r.diagnosisIcd9);
    }
  }

  /** One more coding: it wins when it is of the system, and leaves the field otherwise. */
  lemma LastWinsSnoc(cs: seq<Coding>, sys: string, before: JString, mid: JString, after: JString)
    requires cs != [] && LastWins(cs[..|cs| - 1], sys, before, mid)
    requires after == if cs[|cs| - 1].system == Some(sys) then cs[|cs| - 1].code else mid
    ensures LastWins(cs, sys, before, after)
  {
    var init := cs[..|cs| - 1];
    assert forall i | 0 <= i < |init| :: init[i] == cs[i];
  }

  /** `fromBbmri`: id, subject and onset are replaced; then the codings are sorted. */
  function CaptureBbmri(rec: ConditionRecord, c: Condition): ConditionRecord
  {
    SortCodings(rec.(bbmriId := c.id, bbmriSubject := c.subject, onset := c.onset), c.code.coding)
  }

  /** The code of the first ICD-10-GM coding, if there is one. */
  function FirstGmCode(cs: seq<Coding>): Option<JString>
  {
    if cs == [] then None
    else if cs[0].system == Some(Icd10GmSystem) then Some(cs[0].code)
    else FirstGmCode(cs[1..])
  }

  /** `FirstGmCode` finds exactly the first ICD-10-GM coding. */
  lemma {:induction false} FirstGmCodeIsFirst(cs: seq<Coding>, i: nat)
    requires i <= |cs|
    requires forall j | 0 <= j < i :: cs[j].system != Some(Icd10GmSystem)
    ensures i < |cs| && cs[i].system == Some(Icd10GmSystem) ==> FirstGmCode(cs) == Some(cs[i].code)
    ensures i == |cs| ==> FirstGmCode(cs) == None
    decreases i
  {
    if i > 0 {
      FirstGmCodeIsFirst(cs[1..], i - 1);
    }
  }

  /** `fromMii`: the id is replaced, the code of the first ICD-10-GM coding (if any) becomes
      `diagnosisIcd10Gm`, and subject and onset are replaced; other codings are skipped. */
  function CaptureMii(rec: ConditionRecord, c: Condition): (r: ConditionRecord)
  {
    var gm := FirstGmCode(c.code.coding);
    rec.(miiId := c.id, diagnosisIcd10Gm := if gm.Some? then gm.value else rec.diagnosisIcd10Gm,
         miiSubject := c.subject, onset := c.onset)
  }

  /** The diagnosis code both `toX` methods emit under the ICD-10-GM system: `code`, if it
      is not `null`. */
  function Diagnosis(code: JString): CodeableConcept
  {
    if code != None then Coded(Icd10GmSystem, code) else NoConcept
  }

  /** `toBbmri`: the MII id and subject overwrite the bbmri.de ones unconditionally; only
      the ICD-10-GM code is emitted. */
  function EmitBbmri(rec: ConditionRecord): (s: Step<ConditionRecord, Condition>)
    ensures s.result.Ok? && s.after == rec.(bbmriId := rec.miiId, bbmriSubject := rec.miiSubject)
  {
    var after := rec.(bbmriId := rec.miiId, bbmriSubject := rec.miiSubject);
    Step(Ok(Condition(after.bbmriId, Profiled(BbmriConditionProfile), after.bbmriSubject, rec.onset, [],
                      Diagnosis(rec.diagnosisIcd10Gm))), after)
  }

  /** `toMii`: the bbmri.de id and subject overwrite the MII ones unconditionally; the GM
      code is emitted if there is one, otherwise the WHO code, both under the GM system. */
  function EmitMii(rec: ConditionRecord): (s: Step<ConditionRecord, Condition>)
    ensures s.result.Ok? && s.after == rec.(miiId := rec.bbmriId, miiSubject := rec.bbmriSubject)
  {
    var after := rec.(miiId := rec.bbmriId, miiSubject := rec.bbmriSubject);
    var code := if rec.diagnosisIcd10Gm != None then rec.diagnosisIcd10Gm else rec.diagnosisIcd10Who;
    Step(Ok(Condition(after.miiId, Profiled(MiiConditionProfile), after.miiSubject, rec.onset, [],
                      Diagnosis(code))), after)
  }

  /** What `toMii` emits: the stored bbmri.de id, subject and onset, and at most one coding,
      which is under the GM system and carries the GM code when there is one and the WHO
      code otherwise. The ICD-9 and SNOMED CT fields never reach the output. */
  lemma EmitMiiPrefersGm(rec: ConditionRecord)
    ensures var c := EmitMii(rec).result.value;
            c.id == rec.bbmriId && c.subject == rec.bbmriSubject && c.onset == rec.onset
            && |c.code.coding| <= 1
            && (|c.code.coding| == 1 <==> rec.diagnosisIcd10Gm != None || rec.diagnosisIcd10Who != None)
            && (rec.diagnosisIcd10Gm != None ==> c.code.coding == [Coding(Some(Icd10GmSystem), rec.diagnosisIcd10Gm)])
            && (rec.diagnosisIcd10Gm == None && rec.diagnosisIcd10Who != None ==>
                  c.code.coding == [Coding(Some(Icd10GmSystem), rec.diagnosisIcd10Who)])
            && EmitMii(rec.(diagnosisIcd9 := None, diagnosisSnomed := None)).result == EmitMii(rec).result
  {
  }

  /** What `toBbmri` emits: the stored MII id, subject and onset, and the GM code alone;
      the WHO and ICD-9 codes are dropped. */
  lemma EmitBbmriKeepsOnlyGm(rec: ConditionRecord)
    ensures var c := EmitBbmri(rec).result.value;
            c.id == rec.miiId && c.subject == rec.miiSubject && c.onset == rec.onset
            && (rec.diagnosisIcd10Gm == None <==> c.code.coding == [])
            && (rec.diagnosisIcd10Gm != None ==> c.code.coding == [Coding(Some(Icd10GmSystem), rec.diagnosisIcd10Gm)])
            && EmitBbmri(rec.(diagnosisIcd10Who := None, diagnosisIcd9 := None)).result == EmitBbmri(rec).result
  {
  }

  /** A mapping fed only a bbmri.de Condition emits a bbmri.de Condition with id "" and no
      subject, since `toBbmri` copies the never-filled MII fields over. */
  lemma BbmriOnlyLosesId(c: Condition)
    ensures EmitBbmri(CaptureBbmri(Fresh, c)).result.value.id == Some("")
    ensures EmitBbmri(CaptureBbmri(Fresh, c)).result.value.subject == None
  {
    SortCodingsLastWins(Fresh.(bbmriId := c.id, bbmriSubject := c.subject, onset := c.onset), c.code.coding);
  }

  /** MII to bbmri.de: a fresh mapping fed one MII Condition emits its id, subject and onset,
      with the first ICD-10-GM coding as the only code. */
  lemma MiiToBbmriCarriesFirstGm(c: Condition, i: nat)
    requires i < |c.code.coding| && c.code.coding[i].system == Some(Icd10GmSystem)
    requires forall j | 0 <= j < i :: c.code.coding[j].system != Some(Icd10GmSystem)
    requires c.code.coding[i].code != None
    ensures var out := EmitBbmri(CaptureMii(Fresh, c)).result.value;
            out.id == c.id && out.subject == c.subject && out.onset == c.onset
            && out.code.coding == [Coding(Some(Icd10GmSystem), c.code.coding[i].code)]
  {
    FirstGmCodeIsFirst(c.code.coding, i);
  }

  /** bbmri.de to MII: a fresh mapping fed one bbmri.de Condition emits its id, subject and
      onset, and the code of its last ICD-10-GM coding when it has one. */
  lemma BbmriToMiiCarriesLastGm(c: Condition, i: nat)
    requires i < |c.code.coding| && c.code.coding[i].system == Some(Icd10GmSystem)
    requires forall j | i < j < |c.code.coding| :: c.code.coding[j].system != Some(Icd10GmSystem)
    requires c.code.coding[i].code != None
    ensures var out := EmitMii(CaptureBbmri(Fresh, c)).result.value;
            out.id == c.id && out.subject == c.subject && out.onset == c.onset
            && out.code.coding == [Coding(Some(Icd10GmSystem), c.code.coding[i].code)]
  {
    SortCodingsLastWins(Fresh.(bbmriId := c.id, bbmriSubject := c.subject, onset := c.onset), c.code.coding);
  }

  class ConditionMapping {
    var bbmriId: JString
    var bbmriSubject: JString
    var onset: Option<Date>
    var diagnosisIcd10Who: JString
    var diagnosisSnomed: JString
    var diagnosisIcd10Gm: JString
    var diagnosisIcd9: JString
    var miiId: JString
    var miiSubject: JString

    function Snapshot(): ConditionRecord
      reads this
    {
      ConditionRecord(bbmriId, bbmriSubject, onset, diagnosisIcd10Who, diagnosisSnomed, diagnosisIcd10Gm,
                      diagnosisIcd9, miiId, miiSubject)
    }

    constructor ()
      ensures Snapshot() == Fresh
    {
      bbmriId := Some("");
      bbmriSubject := None;
      onset := None;
      diagnosisIcd10Who := None;
      diagnosisSnomed := None;
      diagnosisIcd10Gm := None;
      diagnosisIcd9 := None;
      miiId := Some("");
      miiSubject := None;
    }

    method FromBbmri(resource: Condition)
      modifies this
      ensures Snapshot() == CaptureBbmri(old(Snapshot()), resource)
    {
      bbmriId := resource.id;
      bbmriSubject := resource.subject;
      onset := resource.onset;
      ghost var start := Snapshot();
      var codings := resource.code.coding;
      for i := 0 to |codings|
        invariant Snapshot() == SortCodings(start, codings[..i])
      {
        assert codings[..i + 1][..i] == codings[..i];
        var coding := codings[i];
        if coding.system == Some(Icd10WhoSystem) {
          diagnosisIcd10Who := coding.code;
        } else if coding.system == Some(Icd10GmSystem) {
          diagnosisIcd10Gm := coding.code;
        } else if coding.system == Some(Icd9System) {
          diagnosisIcd9 := coding.code;
        }
      }
      Whole(codings);
    }

    method FromMii(resource: Condition)
      modifies this
      ensures Snapshot() == CaptureMii(old(Snapshot()), resource)
    {
      miiId := resource.id;
      var codings := resource.code.coding;
      var i := 0;
      while i < |codings|
        invariant 0 <= i <= |codings|
        invariant forall j | 0 <= j < i :: codings[j].system != Some(Icd10GmSystem)
        invariant Snapshot() == old(Snapshot()).(miiId := resource.id)
      {
        if codings[i].system == Some(Icd10GmSystem) {
          diagnosisIcd10Gm := codings[i].code;
          break;
        }
        i := i + 1;
      }
      FirstGmCodeIsFirst(codings, i);
      miiSubject := resource.subject;
      onset := resource.onset;
    }

    method ToBbmri() returns (r: Result<Condition>)
      modifies this
      ensures r == EmitBbmri(old(Snapshot())).result && Snapshot() == EmitBbmri(old(Snapshot())).after
    {
      bbmriId := miiId;
      bbmriSubject := miiSubject;
      var code := if diagnosisIcd10Gm != None then Coded(Icd10GmSystem, diagnosisIcd10Gm) else NoConcept;
      r := Ok(Condition(bbmriId, Profiled(BbmriConditionProfile), bbmriSubject, onset, [], code));
    }

    method ToMii() returns (r: Result<Condition>)
      modifies this
      ensures r == EmitMii(old(Snapshot())).result && Snapshot() == EmitMii(old(Snapshot())).after
    {
      miiId := bbmriId;
      miiSubject := bbmriSubject;
      var code := NoConcept;
      if diagnosisIcd10Gm != None {
        code := Coded(Icd10GmSystem, diagnosisIcd10Gm);
      }
      if diagnosisIcd10Gm == None && diagnosisIcd10Who != None {
        code := Coded(Icd10GmSystem, diagnosisIcd10Who);
      }
      r := Ok(Condition(miiId, Profiled(MiiConditionProfile), miiSubject, onset, [], code));
    }
  }
}
