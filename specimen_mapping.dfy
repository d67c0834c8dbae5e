/** Class `SpecimenMapping`: captures a bbmri.de or MII Specimen, with its extensions, into
    fields, and emits the Specimen of the other profile with translated sample type and
    storage temperature. */
module SpecimenMapping {
  import opened Fhir
  import SampleTypes
  import Temperature

  const BbmriSpecimenProfile := "https://fhir.bbmri.de/StructureDefinition/Specimen"
  const MiiSpecimenProfile :=
    "https://www.medizininformatik-initiative.de/fhir/ext/modul-biobank/StructureDefinition/Specimen"
  const SampleDiagnosisUrl := "https://fhir.bbmri.de/StructureDefinition/SampleDiagnosis"
  const CustodianUrl := "https://fhir.bbmri.de/StructureDefinition/Custodian"
  const MiiDiagnosisUrl :=
    "https://simplifier.net/medizininformatikinitiative-modulbiobank/files/fsh-generated/resources/structuredefinition-diagnose.json"
  const IcdWhoSystem := "http://hl7.org/fhir/sid/icd-10"
  const DimdiGmSystem := "http://fhir.de/CodeSystem/dimdi/icd-10-gm"
  const SnomedSystem := "http://snomed.info/sct"
  const IcdO3System := "http://terminology.hl7.org/CodeSystem/icd-o-3"
  const SampleMaterialTypeSystem := "https://fhir.bbmri.de/CodeSystem/SampleMaterialType"
  const BodySiteSystem := "urn:oid:1.3.6.1.4.1.19376.1.3.11.36"

  /** The fields of a `SpecimenMapping`. `miiConditionRef` keeps the extension value whose
      `toString()` the source stores; it is never read. */
  datatype SpecimenRecord = SpecimenRecord(
    collectedDate: Option<Date>, fastingStatus: JString, fastingStatusSystem: JString,
    bbmriId: JString, bbmriSubject: JString, bbmriSampleType: JString, bbmriBodySite: JString,
    storageTemperature: JString, diagnosisIcd10Gm: JString, diagnosisIcd10Who: JString, collectionRef: JString,
    miiId: JString, miiSubject: JString, miiSampleType: JString, miiBodySiteIcd: JString,
    miiBodySiteSnomedCt: JString, miiConditionRef: Option<Value>,
    temperatureHigh: Option<int>, temperatureLow: Option<int>, hasParent: bool)

  /** A new mapping: ids and subjects are the empty string, everything else unset. */
  const Fresh := SpecimenRecord(None, None, None, Some(""), Some(""), None, None, None, None, None, None,
                                Some(""), Some(""), None, None, None, None, None, None, false)

  /** `(CodeableConcept) value` followed by a dereference. */
  function AsConcept(v: Value): Result<CodeableConcept>
  {
    match v
    case NoValue => Thrown(NullPointer)
    case ConceptValue(cc) => Ok(cc)
    case _ => Thrown(ClassCast)
  }

  /** `((Reference) value).getReference()` */
  function AsReference(v: Value): Result<JString>
  {
    match v
    case NoValue => Thrown(NullPointer)
    case ReferenceValue(r) => Ok(r)
    case _ => Thrown(ClassCast)
  }

  /** `(Range) value` followed by a dereference. */
  function AsRange(v: Value): Result<Range>
  {
    match v
    case NoValue => Thrown(NullPointer)
    case RangeValue(r) => Ok(r)
    case _ => Thrown(ClassCast)
  }

  /** One pass of the loop over the codings of a SampleDiagnosis concept `cc`: the `switch`
      on the coding's system throws on `null`, and an ICD-10 or ICD-10-GM coding stores the
      code of the concept's FIRST coding. */
  function DiagnosisCoding(cc: CodeableConcept, rec: SpecimenRecord, coding: Coding): Step<SpecimenRecord, ()>
  {
    if coding.system == None then Step(Thrown(NullPointer), rec)
    else if coding.system.value == IcdWhoSystem then Step(Ok(()), rec.(diagnosisIcd10Who := FirstCoding(cc).code))
    else if coding.system.value == DimdiGmSystem then Step(Ok(()), rec.(diagnosisIcd10Gm := FirstCoding(cc).code))
    else Step(Ok(()), rec)
  }

  function DiagnosisStep(cc: CodeableConcept): (SpecimenRecord, Coding) -> Step<SpecimenRecord, ()>
  {
    (rec: SpecimenRecord, coding: Coding) => DiagnosisCoding(cc, rec, coding)
  }

  /** One pass of the `fromBbmri` extension loop. */
  function BbmriExtension(rec: SpecimenRecord, e: Extension): Step<SpecimenRecord, ()>
  {
    if e.url == Some(Temperature.BbmriExtensionUrl) then
      match AsConcept(e.value)
      case Thrown(f) => Step(Thrown(f), rec)
      case Ok(cc) => Step(Ok(()), rec.(storageTemperature := FirstCoding(cc).code))
    else if e.url == Some(SampleDiagnosisUrl) then
      match AsConcept(e.value)
      case Thrown(f) => Step(Thrown(f), rec)
      case Ok(cc) => Scan(DiagnosisStep(cc), rec, cc.coding)
    else if e.url == Some(CustodianUrl) then
      match AsReference(e.value)
      case Thrown(f) => Step(Thrown(f), rec)
      case Ok(r) => Step(Ok(()), rec.(collectionRef := r))
    else Step(Ok(()), rec)
  }

  /** The fasting status both `fromX` methods read: the first coding's code and system. */
  function WithFasting(rec: SpecimenRecord, fasting: Coding): SpecimenRecord
  {
    rec.(fastingStatus := fasting.code, fastingStatusSystem := fasting.system)
  }

  /** The plain fields `fromBbmri` reads before its extension loop. */
  function BbmriHeader(rec: SpecimenRecord, sp: Specimen): SpecimenRecord
  {
    var r := rec.(bbmriId := sp.id, bbmriSubject := sp.subject, bbmriSampleType := FirstCoding(sp.sampleType).code);
    var r := r.(collectedDate := sp.collection.collected, bbmriBodySite := FirstCoding(sp.collection.bodySite).code);
    WithFasting(r, FirstCoding(sp.collection.fastingStatus))
  }

  /** `fromBbmri`: the plain fields are read, then the extensions in order; an exception in
      the extension loop is swallowed and leaves the fields the loop had filled so far. */
  function CaptureBbmri(rec: SpecimenRecord, sp: Specimen): (r: SpecimenRecord)
  {
    Scan(BbmriExtension, BbmriHeader(rec, sp), sp.extension).after
  }

  /** The extension loop touches only the storage-temperature, diagnosis and custodian
      fields. */
  lemma {:induction false} BbmriScanFrame(rec: SpecimenRecord, exts: seq<Extension>)
    ensures var r := Scan(BbmriExtension, rec, exts).after;
            r == rec.(storageTemperature := r.storageTemperature, diagnosisIcd10Gm := r.diagnosisIcd10Gm,
                      diagnosisIcd10Who := r.diagnosisIcd10Who, collectionRef := r.collectionRef)
    decreases |exts|
  {
    if exts != [] {
      BbmriScanFrame(rec, exts[..|exts| - 1]);
      var s := Scan(BbmriExtension, rec, exts[..|exts| - 1]);
      var e := exts[|exts| - 1];
      if !s.result.Thrown? && e.url == Some(SampleDiagnosisUrl) && AsConcept(e.value).Ok? {
        DiagnosisScanFrame(e.value.concept, s.after, e.value.concept.coding);
      }
    }
  }

  lemma {:induction false} DiagnosisScanFrame(cc: CodeableConcept, rec: SpecimenRecord, cs: seq<Coding>)
    ensures var r := Scan(DiagnosisStep(cc), rec, cs).after;
            r == rec.(diagnosisIcd10Gm := r.diagnosisIcd10Gm, diagnosisIcd10Who := r.diagnosisIcd10Who)
    decreases |cs|
  {
    if cs != [] {
      DiagnosisScanFrame(cc, rec, cs[..|cs| - 1]);
    }
  }

  /** `fromBbmri` reads the plain fields whatever its extensions hold, and touches no MII
      field; in particular only `fromMii` sets `hasParent`. */
  lemma CaptureBbmriFields(rec: SpecimenRecord, sp: Specimen)
    ensures var r := CaptureBbmri(rec, sp);
            r.bbmriId == sp.id && r.bbmriSubject == sp.subject
            && r.bbmriSampleType == FirstCoding(sp.sampleType).code
            && r.collectedDate == sp.collection.collected
            && r.hasParent == rec.hasParent && r.miiId == rec.miiId && r.miiSubject == rec.miiSubject
            && r.miiSampleType == rec.miiSampleType && r.temperatureHigh == rec.temperatureHigh
            && r.temperatureLow == rec.temperatureLow && r.miiBodySiteIcd == rec.miiBodySiteIcd
  {
    BbmriScanFrame(BbmriHeader(rec, sp), sp.extension);
  }

  /** The extensions on which the `fromBbmri` loop throws: a StorageTemperature or
      SampleDiagnosis value that is not a concept, a diagnosis coding without a system, and
      a Custodian value that is not a reference. */
  predicate BbmriFault(e: Extension)
  {
    if e.url == Some(Temperature.BbmriExtensionUrl) then !e.value.ConceptValue?
    else if e.url == Some(SampleDiagnosisUrl) then
      !e.value.ConceptValue? || exists j | 0 <= j < |e.value.concept.coding| :: e.value.concept.coding[j].system == None
    else if e.url == Some(CustodianUrl) then !e.value.ReferenceValue?
    else false
  }

  /** The first code of the last StorageTemperature concept among `exts`, or `default`. */
  function LastStorageTemperature(exts: seq<Extension>, default: JString): JString
    decreases |exts|
  {
    if exts == [] then default
    else
      var e := exts[|exts| - 1];
      if e.url == Some(Temperature.BbmriExtensionUrl) && e.value.ConceptValue? then FirstCoding(e.value.concept).code
      else LastStorageTemperature(exts[..|exts| - 1], default)
  }

  /** The reference of the last Custodian extension among `exts`, or `default`. */
  function LastCustodian(exts: seq<Extension>, default: JString): JString
    decreases |exts|
  {
    if exts == [] then default
    else
      var e := exts[|exts| - 1];
      if e.url == Some(CustodianUrl) && e.value.ReferenceValue? then e.value.reference
      else LastCustodian(exts[..|exts| - 1], default)
  }

  /** One pass of the extension loop throws exactly on a faulty extension; a passing one
      stores its temperature code or its custodian reference, a throwing one keeps both. */
  lemma BbmriExtensionStep(rec: SpecimenRecord, e: Extension)
    ensures var t := BbmriExtension(rec, e);
            (t.result.Ok? <==> !BbmriFault(e))
            && t.after.storageTemperature
               == (if t.result.Ok? && e.url == Some(Temperature.BbmriExtensionUrl) then FirstCoding(e.value.concept).code
                   else rec.storageTemperature)
            && t.after.collectionRef
               == (if t.result.Ok? && e.url == Some(CustodianUrl) then e.value.reference else rec.collectionRef)
  {
    if e.url == Some(SampleDiagnosisUrl) && e.value.ConceptValue? {
      var cc := e.value.concept;
      ScanOk(DiagnosisStep(cc), (c: Coding) => c.system == None, rec, cc.coding);
      DiagnosisScanFrame(cc, rec, cc.coding);
    }
  }

  /** Without a faulty extension the loop runs to the end: the last StorageTemperature
      extension decides the storage temperature and the last Custodian extension the
      collection reference. */
  lemma {:induction false} BbmriScanLastWins(rec: SpecimenRecord, exts: seq<Extension>)
    requires forall i | 0 <= i < |exts| :: !BbmriFault(exts[i])
    ensures var s := Scan(BbmriExtension, rec, exts);
            s.result.Ok?
            && s.after.storageTemperature == LastStorageTemperature(exts, rec.storageTemperature)
            && s.after.collectionRef == LastCustodian(exts, rec.collectionRef)
    decreases |exts|
  {
    if exts != [] {
      var init := exts[..|exts| - 1];
      assert forall i | 0 <= i < |init| :: init[i] == exts[i];
      BbmriScanLastWins(rec, init);
      BbmriExtensionStep(Scan(BbmriExtension, rec, init).after, exts[|exts| - 1]);
    }
  }

  /** The loop stops at its first faulty extension `n` (the end when there is none), throws
      exactly when it stops early, and keeps the storage temperature and collection
      reference read before `n`. */
  lemma BbmriScanStops(rec: SpecimenRecord, exts: seq<Extension>, n: nat)
    requires n <= |exts| && forall i | 0 <= i < n :: !BbmriFault(exts[i])
    requires n < |exts| ==> BbmriFault(exts[n])
    ensures var s := Scan(BbmriExtension, rec, exts);
            (s.result.Ok? <==> n == |exts|)
            && s.after.storageTemperature == LastStorageTemperature(exts[..n], rec.storageTemperature)
            && s.after.collectionRef == LastCustodian(exts[..n], rec.collectionRef)
  {
    var head := exts[..n];
    assert forall i | 0 <= i < |head| :: head[i] == exts[i];
    BbmriScanLastWins(rec, head);
    if n == |exts| {
      Whole(exts);
    } else {
      var s := Scan(BbmriExtension, rec, head);
      ScanNextOk(BbmriExtension, rec, exts, n, s.after);
      BbmriExtensionStep(s.after, exts[n]);
      ScanStop(BbmriExtension, rec, exts, n);
    }
  }

  /** `LastStorageTemperature` is the code of the last StorageTemperature extension. */
  lemma {:induction false} LastStorageTemperatureIsLast(exts: seq<Extension>, default: JString, i: nat)
    requires i < |exts| && exts[i].url == Some(Temperature.BbmriExtensionUrl) && exts[i].value.ConceptValue?
    requires forall j | i < j < |exts| :: exts[j].url != Some(Temperature.BbmriExtensionUrl)
    ensures LastStorageTemperature(exts, default) == FirstCoding(exts[i].value.concept).code
    decreases |exts|
  {
    if i < |exts| - 1 {
      var init := exts[..|exts| - 1];
      assert forall j | i < j < |init| :: init[j] == exts[j];
      LastStorageTemperatureIsLast(init, default, i);
    }
  }

  /** A bbmri.de Specimen with a subject, no faulty extension, and whose last
      StorageTemperature extension names bucket `k`, becomes an MII Specimen whose collection
      carries exactly the range of that bucket. */
  lemma BbmriTemperatureReachesMii(sp: Specimen, i: nat, k: nat)
    requires sp.subject.Some? && forall j | 0 <= j < |sp.extension| :: !BbmriFault(sp.extension[j])
    requires i < |sp.extension| && sp.extension[i].url == Some(Temperature.BbmriExtensionUrl)
    requires forall j | i < j < |sp.extension| :: sp.extension[j].url != Some(Temperature.BbmriExtensionUrl)
    requires sp.extension[i].value.ConceptValue? && k < |Temperature.Buckets| && FirstCoding(sp.extension[i].value.concept).code == Some(Temperature.Buckets[k])
    ensures var s := EmitMii(CaptureBbmri(Fresh, sp));
            s.result.Ok?
            && s.result.value.collection.extension
               == [Extension(Some(Temperature.MiiExtensionUrl),
                             RangeValue(Range(Some(Temperature.Highs[k]), Some(Temperature.Lows[k]))))]
  {
    var header := BbmriHeader(Fresh, sp);
    BbmriScanLastWins(header, sp.extension);
    LastStorageTemperatureIsLast(sp.extension, header.storageTemperature, i);
    BbmriScanFrame(header, sp.extension);
  }

  /** A SampleDiagnosis concept whose codings all name a system stores the concept's first
      code as the WHO diagnosis if any coding is ICD-10, and as the GM diagnosis if any is
      ICD-10-GM, whichever coding that is. */
  lemma {:induction false} DiagnosisTakesFirstCode(cc: CodeableConcept, rec: SpecimenRecord, cs: seq<Coding>)
    requires forall i | 0 <= i < |cs| :: cs[i].system != None
    ensures var s := Scan(DiagnosisStep(cc), rec, cs);
            s.result.Ok?
            && s.after.diagnosisIcd10Who ==
                 (if exists i | 0 <= i < |cs| :: cs[i].system == Some(IcdWhoSystem) then FirstCoding(cc).code
                  else rec.diagnosisIcd10Who)
            && s.after.diagnosisIcd10Gm ==
                 (if exists i | 0 <= i < |cs| :: cs[i].system == Some(DimdiGmSystem) then FirstCoding(cc).code
                  else rec.diagnosisIcd10Gm)
    decreases |cs|
  {
    if cs != [] {
      var init := cs[..|cs| - 1];
      DiagnosisTakesFirstCode(cc, rec, init);
      assert forall i | 0 <= i < |init| :: init[i] == cs[i];
      assert (exists i | 0 <= i < |cs| :: cs[i].system == Some(IcdWhoSystem))
             <==> (exists i | 0 <= i < |init| :: init[i].system == Some(IcdWhoSystem))
                  || cs[|cs| - 1].system == Some(IcdWhoSystem);
      assert (exists i | 0 <= i < |cs| :: cs[i].system == Some(DimdiGmSystem))
             <==> (exists i | 0 <= i < |init| :: init[i].system == Some(DimdiGmSystem))
                  || cs[|cs| - 1].system == Some(DimdiGmSystem);
    }
  }

  /** One pass of a `fromMii` loop over the extensions of the first processing step: a
      temperature range stores its upper and then its lower bound, and dereferencing a
      missing bound throws; the first loop (`withDiagnosis`) also keeps the diagnosis
      reference. */
  function ProcessingExtension(withDiagnosis: bool, rec: SpecimenRecord, e: Extension): Step<SpecimenRecord, ()>
  {
    if e.url == Some(Temperature.MiiExtensionUrl) then
      match AsRange(e.value)
      case Thrown(f) => Step(Thrown(f), rec)
      case Ok(range) =>
        if range.high == None then Step(Thrown(NullPointer), rec)
        else
          var r := rec.(temperatureHigh := range.high);
          if range.low == None then Step(Thrown(NullPointer), r)
          else Step(Ok(()), r.(temperatureLow := range.low))
    else if withDiagnosis && e.url == Some(MiiDiagnosisUrl) then
      if e.value == NoValue then Step(Thrown(NullPointer), rec)
      else Step(Ok(()), rec.(miiConditionRef := Some(e.value)))
    else Step(Ok(()), rec)
  }

  function ProcessingStep(withDiagnosis: bool): (SpecimenRecord, Extension) -> Step<SpecimenRecord, ()>
  {
    (rec: SpecimenRecord, e: Extension) => ProcessingExtension(withDiagnosis, rec, e)
  }

  /** An extension on which a processing loop stops: a temperature extension whose value
      is not a range with both bounds, or (first loop only) a diagnosis extension without a
      value. */
  predicate Faulty(withDiagnosis: bool, e: Extension)
  {
    if e.url == Some(Temperature.MiiExtensionUrl) then
      !(e.value.RangeValue? && e.value.range.high.Some? && e.value.range.low.Some?)
    else withDiagnosis && e.url == Some(MiiDiagnosisUrl) && e.value == NoValue
  }

  /** A processing loop throws exactly when one of the extensions is faulty. */
  lemma {:induction false} ProcessingFaults(withDiagnosis: bool, rec: SpecimenRecord, exts: seq<Extension>)
    ensures Scan(ProcessingStep(withDiagnosis), rec, exts).result.Ok?
            <==> forall i | 0 <= i < |exts| :: !Faulty(withDiagnosis, exts[i])
    decreases |exts|
  {
    if exts != [] {
      var init := exts[..|exts| - 1];
      ProcessingFaults(withDiagnosis, rec, init);
      assert forall i | 0 <= i < |init| :: init[i] == exts[i];
    }
  }

  /** A processing loop touches only the temperature bounds and the diagnosis reference,
      and the second loop not even that. */
  lemma {:induction false} ProcessingFrame(withDiagnosis: bool, rec: SpecimenRecord, exts: seq<Extension>)
    ensures var r := Scan(ProcessingStep(withDiagnosis), rec, exts).after;
            r == rec.(temperatureHigh := r.temperatureHigh, temperatureLow := r.temperatureLow,
                      miiConditionRef := r.miiConditionRef)
            && (!withDiagnosis ==> r.miiConditionRef == rec.miiConditionRef)
    decreases |exts|
  {
    if exts != [] {
      ProcessingFrame(withDiagnosis, rec, exts[..|exts| - 1]);
    }
  }

  /** The range of the last temperature extension holding one, or `default`. */
  function LastRange(exts: seq<Extension>, default: Range): Range
    decreases |exts|
  {
    if exts == [] then default
    else
      var e := exts[|exts| - 1];
      if e.url == Some(Temperature.MiiExtensionUrl) && e.value.RangeValue? then e.value.range
      else LastRange(exts[..|exts| - 1], default)
  }

  /** `LastRange` is the range of the last temperature extension. */
  lemma {:induction false} LastRangeIsLast(exts: seq<Extension>, default: Range, i: nat)
    requires i < |exts| && exts[i].url == Some(Temperature.MiiExtensionUrl) && exts[i].value.RangeValue?
    requires forall j | i < j < |exts| :: exts[j].url != Some(Temperature.MiiExtensionUrl)
    ensures LastRange(exts, default) == exts[i].value.range
    decreases |exts|
  {
    if i < |exts| - 1 {
      var init := exts[..|exts| - 1];
      assert forall j | i < j < |init| :: init[j] == exts[j];
      LastRangeIsLast(init, default, i);
    }
  }

  /** A second pass over the same extensions ends on the same range. */
  lemma {:induction false} LastRangeIdempotent(exts: seq<Extension>, default: Range)
    ensures LastRange(exts, LastRange(exts, default)) == LastRange(exts, default)
    decreases |exts|
  {
    if exts != [] {
      LastRangeIdempotent(exts[..|exts| - 1], default);
    }
  }

  /** A processing loop that does not throw leaves the bounds of the last temperature
      extension, or the old bounds when there is none. */
  lemma {:induction false} ProcessingTemperature(withDiagnosis: bool, rec: SpecimenRecord, exts: seq<Extension>)
    ensures var s := Scan(ProcessingStep(withDiagnosis), rec, exts);
            s.result.Ok? ==> Range(s.after.temperatureHigh, s.after.temperatureLow)
                             == LastRange(exts, Range(rec.temperatureHigh, rec.temperatureLow))
    decreases |exts|
  {
    if exts != [] {
      ProcessingTemperature(withDiagnosis, rec, exts[..|exts| - 1]);
    }
  }

  /** Running the temperature loop a second time over the same extensions, as `fromMii`
      does, changes nothing once the first loop has finished without an exception. */
  lemma SecondTemperatureLoopIsIdle(rec: SpecimenRecord, exts: seq<Extension>)
    requires Scan(ProcessingStep(true), rec, exts).result.Ok?
    ensures var first := Scan(ProcessingStep(true), rec, exts).after;
            Scan(ProcessingStep(false), first, exts) == Step(Ok(()), first)
  {
    var first := Scan(ProcessingStep(true), rec, exts).after;
    ProcessingFaults(true, rec, exts);
    ProcessingFaults(false, first, exts);
    forall i | 0 <= i < |exts| ensures !Faulty(false, exts[i]) {
      assert !Faulty(true, exts[i]);
    }
    ProcessingTemperature(true, rec, exts);
    ProcessingTemperature(false, first, exts);
    LastRangeIdempotent(exts, Range(rec.temperatureHigh, rec.temperatureLow));
    ProcessingFrame(false, first, exts);
  }

  /** The body site `fromMii` keeps: a SNOMED CT or an ICD-O-3 code, by its system. */
  function WithBodySite(rec: SpecimenRecord, site: Coding): SpecimenRecord
  {
    if site.system == Some(SnomedSystem) then rec.(miiBodySiteSnomedCt := site.code)
    else if site.system == Some(IcdO3System) then rec.(miiBodySiteIcd := site.code)
    else rec
  }

  /** The plain fields `fromMii` reads before its processing loops. */
  function MiiHeader(rec: SpecimenRecord, sp: Specimen): SpecimenRecord
  {
    var r := rec.(hasParent := |sp.parent| > 0, miiId := sp.id, miiSubject := sp.subject);
    var r := r.(miiSampleType := FirstCoding(sp.sampleType).code, collectedDate := sp.collection.collected);
    var r := WithBodySite(r, FirstCoding(sp.collection.bodySite));
    WithFasting(r, FirstCoding(sp.collection.fastingStatus))
  }

  /** `fromMii`: the plain fields, then two loops over the extensions of the FIRST
      processing step; exceptions escape. */
  function CaptureMii(rec: SpecimenRecord, sp: Specimen): (s: Step<SpecimenRecord, ()>)
  {
    var exts := FirstProcessing(sp).extension;
    var first := Scan(ProcessingStep(true), MiiHeader(rec, sp), exts);
    if first.result.Thrown? then first else Scan(ProcessingStep(false), first.after, exts)
  }

  /** What `fromMii` keeps of the temperature: the bounds of the last temperature extension
      of the first processing step; temperature extensions of later steps are never read. */
  lemma CaptureMiiTemperature(rec: SpecimenRecord, sp: Specimen, i: nat)
    requires |sp.processing| > 0 && i < |sp.processing[0].extension|
    requires var exts := sp.processing[0].extension;
             exts[i].url == Some(Temperature.MiiExtensionUrl)
             && (forall j | i < j < |exts| :: exts[j].url != Some(Temperature.MiiExtensionUrl))
    ensures var s := CaptureMii(rec, sp);
            var v := sp.processing[0].extension[i].value;
            s.result.Ok? ==> v.RangeValue? && s.after.temperatureHigh == v.range.high
                             && s.after.temperatureLow == v.range.low
  {
    var exts := sp.processing[0].extension;
    var header := MiiHeader(rec, sp);
    var first := Scan(ProcessingStep(true), header, exts);
    if first.result.Ok? {
      ProcessingFaults(true, header, exts);
      assert !Faulty(true, exts[i]);
      ProcessingTemperature(true, header, exts);
      LastRangeIsLast(exts, Range(header.temperatureHigh, header.temperatureLow), i);
      SecondTemperatureLoopIsIdle(header, exts);
    }
  }

  /** `fromMii` sets `hasParent` exactly when the specimen lists a parent, and the MII
      sample type to the specimen's first type code, whatever its extensions hold. */
  lemma CaptureMiiParent(rec: SpecimenRecord, sp: Specimen)
    ensures CaptureMii(rec, sp).after.hasParent == (|sp.parent| > 0)
    ensures CaptureMii(rec, sp).after.miiSampleType == FirstCoding(sp.sampleType).code
  {
    var exts := FirstProcessing(sp).extension;
    ProcessingFrame(true, MiiHeader(rec, sp), exts);
    var first := Scan(ProcessingStep(true), MiiHeader(rec, sp), exts);
    ProcessingFrame(false, first.after, exts);
  }

  /** `toBbmri`: nothing for a specimen with a parent; otherwise the MII id and subject, the
      sample type translated to bbmri.de (which throws on a `null` type), an ICD-O-3 body
      site (stored as `bbmriBodySite`), and the temperature bucket when both bounds are
      known. The storage-temperature and diagnosis extensions it builds are not attached. */
  function EmitBbmri(rec: SpecimenRecord): (s: Step<SpecimenRecord, Option<Specimen>>)
    ensures s.result == Ok(None) <==> rec.hasParent
    ensures s.result.Thrown? <==> !rec.hasParent && rec.miiSampleType == None
    ensures s.after == if s.result.Ok? && rec.miiBodySiteIcd != None && !rec.hasParent
                       then rec.(bbmriBodySite := rec.miiBodySiteIcd) else rec
    ensures s.result.Ok? && s.result.value.Some? ==>
              var sp := s.result.value.value;
              sp.id == rec.miiId && sp.meta == Profiled(BbmriSpecimenProfile) && sp.subject == rec.miiSubject
              && sp.collection.collected == rec.collectedDate
              && sp.sampleType == Coded(SampleMaterialTypeSystem, Some(SampleTypes.FromMiiToBbmri(rec.miiSampleType).value))
              && sp.collection.bodySite == (if rec.miiBodySiteIcd != None then Coded(BodySiteSystem, rec.miiBodySiteIcd)
                                            else NoConcept)
              && sp.extension == (if rec.temperatureHigh.Some? && rec.temperatureLow.Some?
                                  then [Temperature.FromMiiToBbmri(rec.temperatureHigh.value, rec.temperatureLow.value)]
                                  else [])
  {
    if rec.hasParent then Step(Ok(None), rec)
    else
      match SampleTypes.FromMiiToBbmri(rec.miiSampleType)
      case Thrown(f) => Step(Thrown(f), rec)
      case Ok(sampleType) =>
        var after := if rec.miiBodySiteIcd != None then rec.(bbmriBodySite := rec.miiBodySiteIcd) else rec;
        var bodySite := if rec.miiBodySiteIcd != None then Coded(BodySiteSystem, after.bbmriBodySite) else NoConcept;
        var temperature := if rec.temperatureHigh.Some? && rec.temperatureLow.Some?
                           then [Temperature.FromMiiToBbmri(rec.temperatureHigh.value, rec.temperatureLow.value)]
                           else [];
        Step(Ok(Some(Specimen(rec.miiId, Profiled(BbmriSpecimenProfile), rec.miiSubject,
                              Coded(SampleMaterialTypeSystem, Some(sampleType)),
                              SpecimenCollection(rec.collectedDate, bodySite, NoConcept, []),
                              [], [], temperature))), after)
  }

  /** Neither the bbmri.de storage temperature, nor either diagnosis, nor a SNOMED CT body
      site has any effect on what `toBbmri` emits. */
  lemma EmitBbmriIgnores(rec: SpecimenRecord, temp: JString, gm: JString, who: JString, site: JString)
    ensures EmitBbmri(rec.(storageTemperature := temp, diagnosisIcd10Gm := gm, diagnosisIcd10Who := who,
                           miiBodySiteSnomedCt := site)).result
            == EmitBbmri(rec).result
  {
  }

  /** `toMii`: the bbmri.de subject replaces an empty MII one (testing a `null` subject
      throws); a missing MII sample type is translated from the bbmri.de one and stored; the
      type is always under SNOMED CT; the id is `miiId`; a bbmri.de storage temperature
      becomes a range extension of the collection. */
  function EmitMii(rec: SpecimenRecord): (s: Step<SpecimenRecord, Specimen>)
    ensures s.result.Thrown? <==> rec.bbmriSubject == None || (rec.bbmriSubject != Some("") && rec.miiSubject == None)
    ensures s.result.Thrown? ==> s.after == rec
    ensures s.result.Ok? ==>
              var sp := s.result.value;
              var sampleType := if rec.miiSampleType == None then Some(SampleTypes.FromBbmriToMii(rec.bbmriSampleType))
                                else rec.miiSampleType;
              var subject := if rec.miiSubject == Some("") then rec.bbmriSubject else rec.miiSubject;
              s.after == rec.(miiSubject := subject, miiSampleType := sampleType)
              && sp.id == rec.miiId && sp.meta == Profiled(MiiSpecimenProfile) && sp.subject == subject
              && sp.sampleType == Coded(SnomedSystem, sampleType)
              && sp.collection.collected == rec.collectedDate
              && sp.collection.fastingStatus == CodeableConcept([Coding(rec.fastingStatusSystem, rec.fastingStatus)])
              && sp.collection.extension == (if rec.storageTemperature == None then []
                                             else [Temperature.FromBbmriToMii(rec.storageTemperature).value])
              && sp.processing == [] && sp.extension == []
  {
    var copy := And(Not(IsEmpty(rec.bbmriSubject)), IsEmpty(rec.miiSubject));
    if copy.Thrown? then Step(Thrown(copy.fault), rec)
    else
      var r1 := if copy.value then rec.(miiSubject := rec.bbmriSubject) else rec;
      var r2 := if r1.miiSampleType == None then r1.(miiSampleType := Some(SampleTypes.FromBbmriToMii(r1.bbmriSampleType)))
                else r1;
      var temperature := if r2.storageTemperature == None then []
                         else [Temperature.FromBbmriToMii(r2.storageTemperature).value];
      Step(Ok(Specimen(r2.miiId, Profiled(MiiSpecimenProfile), r2.miiSubject, Coded(SnomedSystem, r2.miiSampleType),
                       SpecimenCollection(r2.collectedDate, NoConcept,
                                          CodeableConcept([Coding(r2.fastingStatusSystem, r2.fastingStatus)]),
                                          temperature),
                       [], [], [])), r2)
  }

  /** A mapping fed only a bbmri.de Specimen emits an MII Specimen with id "", since the id
      comes from the never-filled `miiId`, and with the bbmri.de subject. */
  lemma BbmriOnlyLosesId(sp: Specimen)
    requires sp.subject != None
    ensures var s := EmitMii(CaptureBbmri(Fresh, sp));
            s.result.Ok? && s.result.value.id == Some("") && s.result.value.subject == sp.subject
  {
    CaptureBbmriFields(Fresh, sp);
  }

  /** The bbmri.de specimen a fresh mapping builds from an MII one that has no parent and a
      sample type: never nothing, and with that type translated to bbmri.de. */
  lemma MiiToBbmriSampleType(sp: Specimen)
    requires |sp.parent| == 0 && FirstCoding(sp.sampleType).code != None
    ensures var cap := CaptureMii(Fresh, sp);
            var s := EmitBbmri(cap.after);
            s.result.Ok? && s.result.value.Some?
            && s.result.value.value.sampleType
               == Coded(SampleMaterialTypeSystem, Some(SampleTypes.FromMiiToBbmri(FirstCoding(sp.sampleType).code).value))
  {
    CaptureMiiParent(Fresh, sp);
  }

  /** Sample types survive bbmri.de to MII and back to bbmri.de for every bbmri.de category
      (`fromMiiToBbmri` inverts `fromBbmriToMii` on them), but the storage temperature does
      not: `toMii` writes it to the collection, while `fromMii` reads the processing step. */
  lemma RoundTripKeepsTypeLosesTemperature(sp: Specimen)
    requires sp.subject.Some? && sp.subject != Some("")
    requires FirstCoding(sp.sampleType).code.Some?
    requires FirstCoding(sp.sampleType).code.value in SampleTypes.Categories
    ensures var mii := EmitMii(CaptureBbmri(Fresh, sp));
            mii.result.Ok?
            && var back := CaptureMii(Fresh, mii.result.value);
               back.result.Ok?
               && var out := EmitBbmri(back.after);
                  out.result.Ok? && out.result.value.Some?
                  && out.result.value.value.sampleType == Coded(SampleMaterialTypeSystem, FirstCoding(sp.sampleType).code)
                  && out.result.value.value.extension == []
  {
    var rec := CaptureBbmri(Fresh, sp);
    CaptureBbmriFields(Fresh, sp);
    var c := FirstCoding(sp.sampleType).code.value;
    SampleTypes.CategoryRoundTrip(c);
    var mii := EmitMii(rec).result.value;
    assert FirstCoding(mii.sampleType).code == Some(SampleTypes.FromBbmriToMii(Some(c)));
    CaptureMiiParent(Fresh, mii);
  }

  class SpecimenMapping {
    var collectedDate: Option<Date>
    var fastingStatus: JString
    var fastingStatusSystem: JString
    var bbmriId: JString
    var bbmriSubject: JString
    var bbmriSampleType: JString
    var bbmriBodySite: JString
    var storageTemperature: JString
    var diagnosisIcd10Gm: JString
    var diagnosisIcd10Who: JString
    var collectionRef: JString
    var miiId: JString
    var miiSubject: JString
    var miiSampleType: JString
    var miiBodySiteIcd: JString
    var miiBodySiteSnomedCt: JString
    var miiConditionRef: Option<Value>
    var temperatureHigh: Option<int>
    var temperatureLow: Option<int>
    var hasParent: bool

    function Snapshot(): SpecimenRecord
      reads this
    {
      SpecimenRecord(collectedDate, fastingStatus, fastingStatusSystem, bbmriId, bbmriSubject, bbmriSampleType,
                     bbmriBodySite, storageTemperature, diagnosisIcd10Gm, diagnosisIcd10Who, collectionRef,
                     miiId, miiSubject, miiSampleType, miiBodySiteIcd, miiBodySiteSnomedCt, miiConditionRef,
                     temperatureHigh, temperatureLow, hasParent)
    }

    constructor ()
      ensures Snapshot() == Fresh
    {
      collectedDate, fastingStatus, fastingStatusSystem := None, None, None;
      bbmriId, bbmriSubject, bbmriSampleType, bbmriBodySite := Some(""), Some(""), None, None;
      storageTemperature, diagnosisIcd10Gm, diagnosisIcd10Who, collectionRef := None, None, None, None;
      miiId, miiSubject, miiSampleType, miiBodySiteIcd, miiBodySiteSnomedCt := Some(""), Some(""), None, None, None;
      miiConditionRef, temperatureHigh, temperatureLow, hasParent := None, None, None, false;
    }

    /** The loop over the codings of a SampleDiagnosis concept. */
    method ReadDiagnosis(cc: CodeableConcept) returns (r: Result<()>)
      modifies this
      ensures Step(r, Snapshot()) == Scan(DiagnosisStep(cc), old(Snapshot()), cc.coding)
    {
      ghost var start := Snapshot();
      var codings := cc.coding;
      var i := 0;
      r := Ok(());
      while i < |codings|
        invariant 0 <= i <= |codings|
        invariant Step(Ok(()), Snapshot()) == Scan(DiagnosisStep(cc), start, codings[..i])
      {
        ScanNextOk(DiagnosisStep(cc), start, codings, i, Snapshot());
        var system := codings[i].system;
        if system == None {
          r := Thrown(NullPointer);
          ScanStop(DiagnosisStep(cc), start, codings, i);
          return;
        }
        if system.value == IcdWhoSystem {
          diagnosisIcd10Who := FirstCoding(cc).code;
        } else if system.value == DimdiGmSystem {
          diagnosisIcd10Gm := FirstCoding(cc).code;
        }
        i := i + 1;
      }
      Whole(codings);
    }

    /** One pass of the `fromBbmri` extension loop. */
    method ReadBbmriExtension(e: Extension) returns (r: Result<()>)
      modifies this
      ensures Step(r, Snapshot()) == BbmriExtension(old(Snapshot()), e)
    {
      r := Ok(());
      if e.url == Some(Temperature.BbmriExtensionUrl) {
        var cc := AsConcept(e.value);
        if cc.Thrown? {
          return Thrown(cc.fault);
        }
        storageTemperature := FirstCoding(cc.value).code;
      } else if e.url == Some(SampleDiagnosisUrl) {
        var cc := AsConcept(e.value);
        if cc.Thrown? {
          return Thrown(cc.fault);
        }
        r := ReadDiagnosis(cc.value);
      } else if e.url == Some(CustodianUrl) {
        var ref := AsReference(e.value);
        if ref.Thrown? {
          return Thrown(ref.fault);
        }
        collectionRef := ref.value;
      }
    }

    method ReadFasting(fasting: Coding)
      modifies this
      ensures Snapshot() == WithFasting(old(Snapshot()), fasting)
    {
      fastingStatus, fastingStatusSystem := fasting.code, fasting.system;
    }

    /** The plain fields `fromBbmri` reads. */
    method ReadBbmriHeader(resource: Specimen)
      modifies this
      ensures Snapshot() == BbmriHeader(old(Snapshot()), resource)
    {
      ReadBbmriIds(resource);
      collectedDate, bbmriBodySite := resource.collection.collected, FirstCoding(resource.collection.bodySite).code;
      ReadFasting(FirstCoding(resource.collection.fastingStatus));
    }

    method ReadBbmriIds(resource: Specimen)
      modifies this
      ensures Snapshot() == old(Snapshot()).(bbmriId := resource.id, bbmriSubject := resource.subject,
                                             bbmriSampleType := FirstCoding(resource.sampleType).code)
    {
      bbmriId, bbmriSubject, bbmriSampleType := resource.id, resource.subject, FirstCoding(resource.sampleType).code;
    }

    /** The `fromBbmri` extension loop; an exception ends it and is swallowed. */
    method ReadBbmriExtensions(exts: seq<Extension>)
      modifies this
      ensures Snapshot() == Scan(BbmriExtension, old(Snapshot()), exts).after
    {
      ghost var start := Snapshot();
      var i := 0;
      while i < |exts|
        invariant 0 <= i <= |exts|
        invariant Step(Ok(()), Snapshot()) == Scan(BbmriExtension, start, exts[..i])
      {
        ScanNextOk(BbmriExtension, start, exts, i, Snapshot());
        var r := ReadBbmriExtension(exts[i]);
        if r.Thrown? {
          // the exception is caught and logged, and the loop ends
          ScanStop(BbmriExtension, start, exts, i);
          return;
        }
        i := i + 1;
      }
      assert exts[..i] == exts;
    }

    method FromBbmri(resource: Specimen)
      modifies this
      ensures Snapshot() == CaptureBbmri(old(Snapshot()), resource)
    {
      ReadBbmriHeader(resource);
      ReadBbmriExtensions(resource.extension);
    }

    /** One pass of a `fromMii` loop over the processing extensions. */
    method ReadProcessingExtension(withDiagnosis: bool, e: Extension) returns (r: Result<()>)
      modifies this
      ensures Step(r, Snapshot()) == ProcessingExtension(withDiagnosis, old(Snapshot()), e)
    {
      r := Ok(());
      if e.url == Some(Temperature.MiiExtensionUrl) {
        var range := AsRange(e.value);
        if range.Thrown? {
          return Thrown(range.fault);
        }
        if range.value.high == None {
          return Thrown(NullPointer);
        }
        temperatureHigh := range.value.high;
        if range.value.low == None {
          return Thrown(NullPointer);
        }
        temperatureLow := range.value.low;
      } else if withDiagnosis && e.url == Some(MiiDiagnosisUrl) {
        if e.value == NoValue {
          return Thrown(NullPointer);
        }
        miiConditionRef := Some(e.value);
      }
    }

    /** A `fromMii` loop over the extensions of the first processing step. */
    method ReadProcessing(withDiagnosis: bool, exts: seq<Extension>) returns (r: Result<()>)
      modifies this
      ensures Step(r, Snapshot()) == Scan(ProcessingStep(withDiagnosis), old(Snapshot()), exts)
    {
      ghost var start := Snapshot();
      var i := 0;
      r := Ok(());
      while i < |exts|
        invariant 0 <= i <= |exts|
        invariant Step(Ok(()), Snapshot()) == Scan(ProcessingStep(withDiagnosis), start, exts[..i])
      {
        ScanNextOk(ProcessingStep(withDiagnosis), start, exts, i, Snapshot());
        var res := ReadProcessingExtension(withDiagnosis, exts[i]);
        if res.Thrown? {
          r := res;
          ScanStop(ProcessingStep(withDiagnosis), start, exts, i);
          return;
        }
        i := i + 1;
      }
      assert exts[..i] == exts;
    }

    method ReadBodySite(site: Coding)
      modifies this
      ensures Snapshot() == WithBodySite(old(Snapshot()), site)
    {
      if site.system == Some(SnomedSystem) {
        miiBodySiteSnomedCt := site.code;
      } else if site.system == Some(IcdO3System) {
        miiBodySiteIcd := site.code;
      }
    }

    /** The plain fields `fromMii` reads. */
    method ReadMiiHeader(resource: Specimen)
      modifies this
      ensures Snapshot() == MiiHeader(old(Snapshot()), resource)
    {
      ReadMiiIds(resource);
      miiSampleType, collectedDate := FirstCoding(resource.sampleType).code, resource.collection.collected;
      ReadBodySite(FirstCoding(resource.collection.bodySite));
      ReadFasting(FirstCoding(resource.collection.fastingStatus));
    }

    method ReadMiiIds(resource: Specimen)
      modifies this
      ensures Snapshot() == old(Snapshot()).(hasParent := |resource.parent| > 0, miiId := resource.id,
                                             miiSubject := resource.subject)
    {
      hasParent, miiId, miiSubject := |resource.parent| > 0, resource.id, resource.subject;
    }

    method FromMii(resource: Specimen) returns (r: Result<()>)
      modifies this
      ensures Step(r, Snapshot()) == CaptureMii(old(Snapshot()), resource)
    {
      ReadMiiHeader(resource);
      var exts := FirstProcessing(resource).extension;
      r := ReadProcessing(true, exts);
      if r.Thrown? {
        return;
      }
      r := ReadProcessing(false, exts);
    }

    method ToBbmri() returns (r: Result<Option<Specimen>>)
      modifies this
      ensures Step(r, Snapshot()) == EmitBbmri(old(Snapshot()))
    {
      if hasParent {
        return Ok(None);
      }
      var sampleType := SampleTypes.FromMiiToBbmri(miiSampleType);
      if sampleType.Thrown? {
        return Thrown(sampleType.fault);
      }
      var bodySite := NoConcept;
      if miiBodySiteIcd != None {
        bbmriBodySite := miiBodySiteIcd;
        bodySite := Coded(BodySiteSystem, bbmriBodySite);
      }
      var temperature := [];
      if temperatureHigh.Some? && temperatureLow.Some? {
        temperature := [Temperature.FromMiiToBbmri(temperatureHigh.value, temperatureLow.value)];
      }
      r := Ok(Some(Specimen(miiId, Profiled(BbmriSpecimenProfile), miiSubject,
                            Coded(SampleMaterialTypeSystem, Some(sampleType.value)),
                            SpecimenCollection(collectedDate, bodySite, NoConcept, []), [], [], temperature)));
    }

    method ToMii() returns (r: Result<Specimen>)
      modifies this
      ensures Step(r, Snapshot()) == EmitMii(old(Snapshot()))
    {
      var copy := And(Not(IsEmpty(bbmriSubject)), IsEmpty(miiSubject));
      if copy.Thrown? {
        return Thrown(copy.fault);
      }
      if copy.value {
        miiSubject := bbmriSubject;
      }
      if miiSampleType == None {
        miiSampleType := Some(SampleTypes.FromBbmriToMii(bbmriSampleType));
      }
      var temperature := [];
      if storageTemperature != None {
        temperature := [Temperature.FromBbmriToMii(storageTemperature).value];
      }
      r := Ok(Specimen(miiId, Profiled(MiiSpecimenProfile), miiSubject, Coded(SnomedSystem, miiSampleType),
                       SpecimenCollection(collectedDate, NoConcept,
                                          CodeableConcept([Coding(fastingStatusSystem, fastingStatus)]), temperature),
                       [], [], []));
    }
  }
}
