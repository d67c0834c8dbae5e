# TransFAIR profile translation, modelled in Dafny

TransFAIR (SampleXChange) moves biobank data between two FHIR profile families: the
bbmri.de profiles of the German Biobank Node and the profiles of the Medical Informatics
Initiative (MII). It is not a generic FHIR converter. A *mapper* object per entity reads a
resource of one profile into plain fields (`fromBbmri`, `fromMii`) and writes a resource of
the other profile from them (`toBbmri`, `toMii`). Two code translators sit under the
mappers: sample types (SNOMED CT codes and bbmri.de categories) and storage temperatures
(named buckets and numeric ranges). `CheckResources` decides what counts as a cause of
death. Three pipelines, `Bbmri2Mii`, `Mii2Bbmri` and `Bbmri2Bbmri`, each fetch the patient
ids, collect the resources of one patient, tag them with a provenance code, and export one
FHIR transaction bundle per patient.

The project is one Dafny module per source file:

- `Fhir` (`fhir.dfy`): the slice of the FHIR object model the mappers touch, as datatypes.
  It also holds Java's `null` (`JString = Option<string>`) and exceptions (`Result`, with
  `Thrown(NullPointer)` and `Thrown(ClassCast)`). `Step` pairs a result with the state
  left behind, and `Scan` is a `for` loop whose body may throw.
- `SampleTypes`, `Temperature`: the two converters, as total functions on strings and
  ranges.
- `CheckResources`: the classification predicates.
- `PatientMapping`, `ConditionMapping`, `CauseOfDeathMapping`, `SpecimenMapping`,
  `BiobankMapping`, `CollectionMapping`: one `class` per mapper, with the Java fields.
  Each method is proved against a pure function of the old fields (`Snapshot()`), and the
  lemmas are stated about those functions. Loops become `while` loops whose invariants tie
  them to `Scan`.
- `MetaMapping`: the provenance tag. Its fields are never reassigned, so it is a value.
- `BundleWriter`, `PatientIds`: building the transaction bundle and deriving the
  patient-id sets.
- `Pipeline`, `Bbmri2Mii`, `Mii2Bbmri`, `Bbmri2Bbmri`: `transfer()`. The `Sink` class
  records the exported bundles. Each pipeline has a `Transfer` method proved equal to a
  function `Transferred` of its inputs, and the lemmas are about that function.

Where the specification and the code disagree, the model follows the code:

- `fromMiiToBbmri(null)` throws (a `switch` on `null`), although the translators are
  described as never throwing.
- `Mii2Bbmri` still adds the empty cause-of-death Observation that `toBbmri` returns for a
  blank record.
- The mappers modify their inputs: `BiobankMapping` respells the stored contacts' role
  values.
- An exception that `transfer()` does not catch ends the run (`Aborted`). The bundles
  exported before it stay exported.
- A blank source server makes `Bbmri2Mii` return, but makes `Mii2Bbmri` call
  `System.exit(1)`.
- The sample-type table has 19 named bbmri.de categories besides `derivative-other`.
- `fromMii` reads the storage temperature from the first processing step only
  (`SpecimenMapping.CaptureMiiTemperature`), not from the most recent one.

## Model

| member | source | states |
|---|---|---|
| SampleTypes.FromMiiToBbmri | src/main/java/de/samply/samplexchange/converters/SnomedSamplyTypeConverter.java:16-40 | a `null` code throws (switch on null); otherwise the result is one of the 19 bbmri.de categories or "derivative-other", and it is "derivative-other" exactly when the SNOMED code is not in the table |
| SampleTypes.FromBbmriToMii | src/main/java/de/samply/samplexchange/converters/SnomedSamplyTypeConverter.java:45-83 | the result is the default 123038009 exactly when the type is `null` or not a listed bbmri.de type; every other result is a SNOMED code of the table |
| SampleTypes.DefaultIsUnlisted | src/main/java/de/samply/samplexchange/converters/SnomedSamplyTypeConverter.java:46 | the default SNOMED code is not one of the table's codes, so it maps back to "derivative-other" |
| SampleTypes.CategoryRoundTrip | src/main/java/de/samply/samplexchange/converters/SnomedSamplyTypeConverter.java:16-82 | for each of the 19 categories and "derivative-other", bbmri.de to SNOMED and back gives the category again |
| SampleTypes.RoundTripIsProjection | src/main/java/de/samply/samplexchange/converters/SnomedSamplyTypeConverter.java:16-83 | for every input, including `null`, the bbmri.de to MII to bbmri.de round trip succeeds and its result is a fixed point of the round trip |
| SampleTypes.WholeBloodCollapses | src/main/java/de/samply/samplexchange/converters/SnomedSamplyTypeConverter.java:18 | 119297000, 122558009 and 256912003 all give "whole-blood": SNOMED to bbmri.de is many-to-one |
| SampleTypes.UnknownSnomedCode | src/main/java/de/samply/samplexchange/converters/SnomedSamplyTypeConverter.java:38 | an unlisted SNOMED code such as 99999999 gives "derivative-other" |
| SampleTypes.UnknownBbmriType | src/main/java/de/samply/samplexchange/converters/SnomedSamplyTypeConverter.java:46-81 | `null` and an unknown bbmri.de type give the default 123038009 |
| SampleTypes.PlasmaEdtaIsLost | src/main/java/de/samply/samplexchange/converters/SnomedSamplyTypeConverter.java:57 | "plasma-edta" gives 708049000, which maps back to "blood-plasma": the round trip is not lossless |
| Temperature.FromBbmriToMii | src/main/java/de/samply/samplexchange/converters/TemperatureConverter.java:17-39 | `null` throws; otherwise an extension with the MII Temperaturbedingungen URL and a Range value; each named bucket gives its table bounds, any other text an empty Range |
| Temperature.BucketOf | src/main/java/de/samply/samplexchange/converters/TemperatureConverter.java:48-62 | the result is the first bucket in the order 2to10, -18to-35, -60to-85, LN, GN, Room whose bounds contain the range, and "temperatureOther" exactly when none does |
| Temperature.FromMiiToBbmri | src/main/java/de/samply/samplexchange/converters/TemperatureConverter.java:42-67 | always the bbmri.de StorageTemperature extension URL with exactly one coding, under the `URL` code system, whose code is the bucket of the range |
| Temperature.BucketRoundTrip | src/main/java/de/samply/samplexchange/converters/TemperatureConverter.java:22-62 | for each of the six named buckets, bucket to range to bucket gives the bucket again |
| Temperature.BucketsDistinct | src/main/java/de/samply/samplexchange/converters/TemperatureConverter.java:22-36 | the six bucket names are pairwise distinct and none is "temperatureOther" |
| Temperature.NitrogenBucketsDisjoint | src/main/java/de/samply/samplexchange/converters/TemperatureConverter.java:54-57 | a range inside both the LN and the GN bucket has its upper bound below its lower bound, so the LN-before-GN order matters only for inverted ranges |
| Temperature.InvertedRangeIsCold | src/main/java/de/samply/samplexchange/converters/TemperatureConverter.java:48-49 | an inverted range (high -100, low 25) is classified by containment alone and lands in 2to10 |
| Temperature.FreezerRange | src/main/java/de/samply/samplexchange/converters/TemperatureConverter.java:50-51 | high -18, low -35 gives "temperature-18to-35" |
| Temperature.TooWarmIsOther | src/main/java/de/samply/samplexchange/converters/TemperatureConverter.java:60-62 | an upper bound of 31 fits no bucket and gives "temperatureOther" |
| CheckResources.CheckBbmriCauseOfDeath | src/main/java/de/samply/samplexchange/resources/CheckResources.java:17-19 | throws exactly when the first coding of the code has no code; otherwise true exactly when that code is 68343-3 |
| CheckResources.CheckMiiCauseOfDeath | src/main/java/de/samply/samplexchange/resources/CheckResources.java:55-65 | true exactly when the first coding of the first category is (SNOMED, 16100001) or (LOINC, 79378-6) |
| CheckResources.CodeAndSystemMustMatch | src/main/java/de/samply/samplexchange/resources/CheckResources.java:56-64 | system and code count only as a pair: SNOMED with 79378-6 is not a cause of death, and neither is a LOINC coding in the second category |
| CheckResources.OrganizationChecksRejectAll | src/main/java/de/samply/samplexchange/resources/CheckResources.java:24-50 | the three organization checks compare a profile list with a string and are false for every organization, even one carrying exactly the checked profile |
| PatientMapping.CaptureBbmri | src/main/java/de/samply/samplexchange/resources/PatientMapping.java:50-64 | `bbmriId`, birth date and the deceased flag are replaced (deceased exactly when `hasDeceased()`); the gender only when present; `miiId` is kept |
| PatientMapping.CaptureMii | src/main/java/de/samply/samplexchange/resources/PatientMapping.java:67-81 | `miiId` and birth date are replaced, the gender only when present, `bbmriId` is kept; the patient counts as deceased only when deceasedBoolean is true, and then without a date |
| PatientMapping.EmitBbmri | src/main/java/de/samply/samplexchange/resources/PatientMapping.java:84-108 | throws exactly when `bbmriId` is `null`, or empty while `miiId` is `null`; otherwise `miiId` replaces an empty `bbmriId`, nothing else changes, and the Patient carries that id and the bbmri.de profile |
| PatientMapping.EmitMii | src/main/java/de/samply/samplexchange/resources/PatientMapping.java:111-137 | throws exactly when `bbmriId` is `null`, or non-empty while `miiId` is `null`; otherwise `bbmriId` replaces an empty `miiId`, nothing else changes, and the Patient carries that id and the MII profile |
| PatientMapping.EmittedDemographics | src/main/java/de/samply/samplexchange/resources/PatientMapping.java:89-134 | both outputs carry gender and birth date as captured, and a deceased date-time, the captured one, exactly when the deceased flag is set |
| PatientMapping.BbmriToMiiKeepsPatient | src/main/java/de/samply/samplexchange/resources/PatientMapping.java:111-122 | a new mapping fed one bbmri.de Patient emits an MII Patient with the same id, gender and birth date, and throws exactly when that id is `null` |
| PatientMapping.MiiToBbmriKeepsPatient | src/main/java/de/samply/samplexchange/resources/PatientMapping.java:97-101 | a new mapping fed one MII Patient emits a bbmri.de Patient with the same id, gender and birth date, and throws exactly when that id is `null` |
| PatientMapping.EmitIdempotent | src/main/java/de/samply/samplexchange/resources/PatientMapping.java:97-122 | a second `toMii` (or `toBbmri`) emits the same Patient and leaves the same fields |
| PatientMapping.PatientMapping.constructor | src/main/java/de/samply/samplexchange/resources/PatientMapping.java:18-31 | both ids start as the empty string, all else unset |
| PatientMapping.PatientMapping.FromBbmri | src/main/java/de/samply/samplexchange/resources/PatientMapping.java:50-64 | the new fields are `CaptureBbmri` of the old ones |
| PatientMapping.PatientMapping.FromMii | src/main/java/de/samply/samplexchange/resources/PatientMapping.java:67-81 | the new fields are `CaptureMii` of the old ones |
| PatientMapping.PatientMapping.ToBbmri | src/main/java/de/samply/samplexchange/resources/PatientMapping.java:84-108 | result and new fields are those of `EmitBbmri` |
| PatientMapping.PatientMapping.ToMii | src/main/java/de/samply/samplexchange/resources/PatientMapping.java:111-137 | result and new fields are those of `EmitMii` |
| ConditionMapping.SortCodingsLastWins | src/main/java/de/samply/samplexchange/resources/ConditionMapping.java:41-51 | after the `fromBbmri` loop each of WHO, GM and ICD-9 holds the code of the last coding of its system, or its old value when there is none; no other field changes |
| ConditionMapping.FirstGmCodeIsFirst | src/main/java/de/samply/samplexchange/resources/ConditionMapping.java:58-69 | the `fromMii` loop stops at the first ICD-10-GM coding and keeps its code; without one it keeps nothing |
| ConditionMapping.EmitBbmri | src/main/java/de/samply/samplexchange/resources/ConditionMapping.java:78-101 | never throws; `miiId` and `miiSubject` overwrite `bbmriId` and `bbmriSubject` unconditionally, nothing else changes |
| ConditionMapping.EmitMii | src/main/java/de/samply/samplexchange/resources/ConditionMapping.java:104-139 | never throws; `bbmriId` and `bbmriSubject` overwrite `miiId` and `miiSubject` unconditionally, nothing else changes |
| ConditionMapping.EmitMiiPrefersGm | src/main/java/de/samply/samplexchange/resources/ConditionMapping.java:111-136 | `toMii` emits at most one coding, under the ICD-10-GM system: the GM code when one was captured, else the WHO code, none without either; id and subject come from the bbmri.de side, onset as captured; ICD-9 and SNOMED codes do not affect the output |
| ConditionMapping.EmitBbmriKeepsOnlyGm | src/main/java/de/samply/samplexchange/resources/ConditionMapping.java:82-98 | `toBbmri` emits the ICD-10-GM code alone, or no coding exactly when none was captured; id and subject from the MII side; WHO and ICD-9 codes do not affect the output |
| ConditionMapping.BbmriOnlyLosesId | src/main/java/de/samply/samplexchange/resources/ConditionMapping.java:82-88 | after only `fromBbmri`, `toBbmri` emits id "" and no subject |
| ConditionMapping.MiiToBbmriCarriesFirstGm | src/main/java/de/samply/samplexchange/resources/ConditionMapping.java:55-101 | a new mapping fed one MII Condition emits a bbmri.de Condition with its id, subject and onset and exactly the code of its first ICD-10-GM coding |
| ConditionMapping.BbmriToMiiCarriesLastGm | src/main/java/de/samply/samplexchange/resources/ConditionMapping.java:36-126 | a new mapping fed one bbmri.de Condition emits an MII Condition with its id, subject and onset and exactly the code of its last ICD-10-GM coding |
| ConditionMapping.ConditionMapping.constructor | src/main/java/de/samply/samplexchange/resources/ConditionMapping.java:19-32 | both ids start as the empty string, all else unset |
| ConditionMapping.ConditionMapping.FromBbmri | src/main/java/de/samply/samplexchange/resources/ConditionMapping.java:36-52 | the new fields are `CaptureBbmri` of the old ones |
| ConditionMapping.ConditionMapping.FromMii | src/main/java/de/samply/samplexchange/resources/ConditionMapping.java:55-75 | the new fields are `CaptureMii` of the old ones |
| ConditionMapping.ConditionMapping.ToBbmri | src/main/java/de/samply/samplexchange/resources/ConditionMapping.java:78-101 | result and new fields are those of `EmitBbmri` |
| ConditionMapping.ConditionMapping.ToMii | src/main/java/de/samply/samplexchange/resources/ConditionMapping.java:104-139 | result and new fields are those of `EmitMii` |
| CauseOfDeathMapping.CaptureCause | src/main/java/de/samply/samplexchange/resources/CauseOfDeathMapping.java:37-39 | `.equals` on a `null` system throws; the cause is taken only under the ICD-10 system |
| CauseOfDeathMapping.CaptureBbmri | src/main/java/de/samply/samplexchange/resources/CauseOfDeathMapping.java:33-42 | outside the bbmri.de cause-of-death profile nothing changes; inside it, id and patient are taken, the cause only under ICD-10, and a `null` system throws; MII fields are kept |
| CauseOfDeathMapping.CaptureMii | src/main/java/de/samply/samplexchange/resources/CauseOfDeathMapping.java:48-57 | the same for the MII profile and the MII fields |
| CauseOfDeathMapping.EmitBbmri | src/main/java/de/samply/samplexchange/resources/CauseOfDeathMapping.java:62-92 | never throws when no field is `null`, throws only NullPointerException, and throws exactly when an emptiness test meets a `null` id or patient, or the blankness test meets a `null` field it reaches; a non-empty MII id or patient fills an empty bbmri.de one and nothing else changes; the result is the empty Observation exactly when the bbmri.de id, patient and cause are blank after that copying, and otherwise the LOINC cause-of-death Observation with the (copied) bbmri.de id as id, the bbmri.de patient as subject and (ICD-10, cause) as value |
| CauseOfDeathMapping.EmitMii | src/main/java/de/samply/samplexchange/resources/CauseOfDeathMapping.java:98-136 | never throws when no field is `null`, throws only NullPointerException, and throws exactly when the blankness test meets a `null` field it reaches, or, for non-blank data, an emptiness test meets a `null` id or patient; the result is the empty Condition exactly when the bbmri.de id, patient and cause are blank, and then nothing changes; otherwise a non-empty bbmri.de id or patient fills an empty MII one, nothing else changes, and the result is the MII cause-of-death Condition with the (copied) MII id and patient, the two death categories and (ICD-10, cause) as code |
| CauseOfDeathMapping.EmittedObservationIsCauseOfDeath | src/main/java/de/samply/samplexchange/resources/CauseOfDeathMapping.java:67-89 | a non-empty `toBbmri` output passes `checkBbmriCauseOfDeath`, has the bbmri.de profile and carries (ICD-10, cause); the empty Observation makes that check throw |
| CauseOfDeathMapping.EmittedConditionIsCauseOfDeath | src/main/java/de/samply/samplexchange/resources/CauseOfDeathMapping.java:108-133 | a non-empty `toMii` output passes `checkMiiCauseOfDeath`, has the MII profile and carries (ICD-10, cause); the empty Condition fails the check |
| CauseOfDeathMapping.BbmriToMiiKeepsCause | src/main/java/de/samply/samplexchange/resources/CauseOfDeathMapping.java:99-133 | a bbmri.de cause of death with ICD-10 cause, id and subject becomes a non-empty MII Condition with the same id, subject and cause |
| CauseOfDeathMapping.MiiToBbmriKeepsCause | src/main/java/de/samply/samplexchange/resources/CauseOfDeathMapping.java:48-89 | an MII cause of death with ICD-10 cause, non-blank id and subject, read by a new mapping, becomes a non-empty bbmri.de Observation with the same id, subject and cause |
| CauseOfDeathMapping.MiiOnlyIsEmptyWithoutCause | src/main/java/de/samply/samplexchange/resources/CauseOfDeathMapping.java:99-101 | a new mapping fed one MII Condition whose first coding is not ICD-10 emits the empty Condition: emptiness is tested on the bbmri.de fields, which stay blank |
| CauseOfDeathMapping.CauseOfDeathMapping.constructor | src/main/java/de/samply/samplexchange/resources/CauseOfDeathMapping.java:21-27 | all five strings start empty |
| CauseOfDeathMapping.CauseOfDeathMapping.FromBbmri | src/main/java/de/samply/samplexchange/resources/CauseOfDeathMapping.java:33-42 | result and new fields are those of `CaptureBbmri` |
| CauseOfDeathMapping.CauseOfDeathMapping.FromMii | src/main/java/de/samply/samplexchange/resources/CauseOfDeathMapping.java:48-57 | result and new fields are those of `CaptureMii` |
| CauseOfDeathMapping.CauseOfDeathMapping.ToBbmri | src/main/java/de/samply/samplexchange/resources/CauseOfDeathMapping.java:62-92 | result and new fields are those of `EmitBbmri` |
| CauseOfDeathMapping.CauseOfDeathMapping.ToMii | src/main/java/de/samply/samplexchange/resources/CauseOfDeathMapping.java:98-136 | result and new fields are those of `EmitMii` |
| SpecimenMapping.CaptureBbmriFields | src/main/java/de/samply/samplexchange/resources/SpecimenMapping.java:63-110 | `fromBbmri` takes id, subject, first type code and collection date, and leaves the MII id, subject, type, ICD-O-3 body site, temperature bounds and `hasParent` alone |
| SpecimenMapping.BbmriScanFrame | src/main/java/de/samply/samplexchange/resources/SpecimenMapping.java:75-109 | the bbmri.de extension loop changes only the storage temperature, the two diagnoses and the collection reference |
| SpecimenMapping.BbmriExtensionStep | src/main/java/de/samply/samplexchange/resources/SpecimenMapping.java:76-108 | one pass throws exactly on a StorageTemperature or SampleDiagnosis value that is not a concept, a diagnosis coding without a system, or a Custodian value that is not a reference; a passing StorageTemperature extension stores its first code and a passing Custodian its reference, and a throwing pass keeps both |
| SpecimenMapping.BbmriScanLastWins | src/main/java/de/samply/samplexchange/resources/SpecimenMapping.java:75-109 | without a faulty extension the loop completes, the storage temperature is the first code of the last StorageTemperature extension, and the collection reference that of the last Custodian extension |
| SpecimenMapping.BbmriScanStops | src/main/java/de/samply/samplexchange/resources/SpecimenMapping.java:75-109 | the loop throws exactly when some extension is faulty, and keeps the storage temperature and collection reference of the extensions before the first faulty one |
| SpecimenMapping.LastStorageTemperatureIsLast | src/main/java/de/samply/samplexchange/resources/SpecimenMapping.java:77-82 | the kept storage temperature is the first code of the last StorageTemperature extension |
| SpecimenMapping.BbmriTemperatureReachesMii | src/main/java/de/samply/samplexchange/resources/SpecimenMapping.java:77-82 | a bbmri.de Specimen with a subject, no faulty extension and a last StorageTemperature extension naming a bucket becomes, through `toMii`, an MII Specimen whose collection carries exactly that bucket's range |
| SpecimenMapping.DiagnosisScanFrame | src/main/java/de/samply/samplexchange/resources/SpecimenMapping.java:86-96 | the SampleDiagnosis coding loop changes only the two diagnoses |
| SpecimenMapping.DiagnosisTakesFirstCode | src/main/java/de/samply/samplexchange/resources/SpecimenMapping.java:86-96 | when any coding has the ICD-10 (or ICD-10-GM) system, the stored diagnosis is the code of the concept's first coding, whichever coding matched |
| SpecimenMapping.ProcessingFaults | src/main/java/de/samply/samplexchange/resources/SpecimenMapping.java:139-163 | a processing loop throws exactly when a temperature extension does not hold a Range with both bounds or, in the first loop only, a diagnosis extension has no value |
| SpecimenMapping.ProcessingFrame | src/main/java/de/samply/samplexchange/resources/SpecimenMapping.java:139-163 | the processing loops change only the temperature bounds and the condition reference, and the second loop leaves the condition reference alone |
| SpecimenMapping.LastRangeIsLast | src/main/java/de/samply/samplexchange/resources/SpecimenMapping.java:139-151 | the range kept by the loop is the value of the last temperature extension |
| SpecimenMapping.ProcessingTemperature | src/main/java/de/samply/samplexchange/resources/SpecimenMapping.java:139-151 | after a loop that does not throw, the bounds are those of the last temperature extension, or the old ones without one |
| SpecimenMapping.LastRangeIdempotent | src/main/java/de/samply/samplexchange/resources/SpecimenMapping.java:155-163 | taking the last range twice gives the same range |
| SpecimenMapping.SecondTemperatureLoopIsIdle | src/main/java/de/samply/samplexchange/resources/SpecimenMapping.java:155-163 | after a first loop that does not throw, the second temperature loop of `fromMii` does not throw and changes nothing |
| SpecimenMapping.CaptureMiiTemperature | src/main/java/de/samply/samplexchange/resources/SpecimenMapping.java:139-145 | `fromMii` reads temperatures only from the first processing step, and the last matching extension wins |
| SpecimenMapping.CaptureMiiParent | src/main/java/de/samply/samplexchange/resources/SpecimenMapping.java:115-120 | `fromMii` sets `hasParent` exactly when the specimen has a parent, and the MII type from the first type coding |
| SpecimenMapping.EmitBbmri | src/main/java/de/samply/samplexchange/resources/SpecimenMapping.java:168-230 | the result is `null` exactly when `hasParent`; it throws exactly when there is no parent and no MII type; only the bbmri.de body site changes; a Specimen gets id and subject from the MII side, the bbmri.de Specimen profile, the collection date read, type `fromMiiToBbmri` under SampleMaterialType, an ICD-O-3 body site when one was read, and the temperature extension exactly when both bounds are set |
| SpecimenMapping.EmitBbmriIgnores | src/main/java/de/samply/samplexchange/resources/SpecimenMapping.java:200-227 | storage temperature, diagnoses and SNOMED body site do not affect the output: the extensions built from them are never attached |
| SpecimenMapping.EmitMii | src/main/java/de/samply/samplexchange/resources/SpecimenMapping.java:233-268 | throws exactly when `bbmriSubject` is `null`, or non-empty while `miiSubject` is `null`; otherwise the id is `miiId`, the profile is the MII Specimen profile, the collection date is the one read, an empty `miiSubject` is filled from `bbmriSubject`, a `null` MII type from `fromBbmriToMii`, the type goes under SNOMED, with the fasting status and a temperature Range exactly when a storage temperature was read, and no processing or extension |
| SpecimenMapping.BbmriOnlyLosesId | src/main/java/de/samply/samplexchange/resources/SpecimenMapping.java:240-246 | after only `fromBbmri`, `toMii` emits id "" and the bbmri.de subject |
| SpecimenMapping.MiiToBbmriSampleType | src/main/java/de/samply/samplexchange/resources/SpecimenMapping.java:181-186 | an MII specimen without a parent becomes a bbmri.de specimen typed `fromMiiToBbmri` of its type |
| SpecimenMapping.RoundTripKeepsTypeLosesTemperature | src/main/java/de/samply/samplexchange/resources/SpecimenMapping.java:248-254 | bbmri.de to MII to bbmri.de keeps a listed sample type and loses the storage temperature |
| SpecimenMapping.SpecimenMapping.constructor | src/main/java/de/samply/samplexchange/resources/SpecimenMapping.java:25-60 | ids and subjects start as the empty string, all else unset |
| SpecimenMapping.SpecimenMapping.ReadDiagnosis | src/main/java/de/samply/samplexchange/resources/SpecimenMapping.java:86-96 | the fields after the SampleDiagnosis coding loop are its specification's |
| SpecimenMapping.SpecimenMapping.ReadBbmriExtension | src/main/java/de/samply/samplexchange/resources/SpecimenMapping.java:77-104 | one extension: result and new fields are those of `BbmriExtension` |
| SpecimenMapping.SpecimenMapping.ReadFasting | src/main/java/de/samply/samplexchange/resources/SpecimenMapping.java:70-73 | the fasting status code and system are taken from the coding |
| SpecimenMapping.SpecimenMapping.ReadBbmriHeader | src/main/java/de/samply/samplexchange/resources/SpecimenMapping.java:64-73 | the fields before the loop are those of `BbmriHeader` |
| SpecimenMapping.SpecimenMapping.ReadBbmriIds | src/main/java/de/samply/samplexchange/resources/SpecimenMapping.java:64-66 | id, subject and sample type are replaced, nothing else |
| SpecimenMapping.SpecimenMapping.ReadBbmriExtensions | src/main/java/de/samply/samplexchange/resources/SpecimenMapping.java:75-109 | the new fields are those of the extension loop, stopped at a throwing extension whose exception is swallowed |
| SpecimenMapping.SpecimenMapping.FromBbmri | src/main/java/de/samply/samplexchange/resources/SpecimenMapping.java:63-110 | the new fields are `CaptureBbmri` of the old ones |
| SpecimenMapping.SpecimenMapping.ReadProcessingExtension | src/main/java/de/samply/samplexchange/resources/SpecimenMapping.java:140-150 | one processing extension: result and new fields are those of `ProcessingExtension` |
| SpecimenMapping.SpecimenMapping.ReadProcessing | src/main/java/de/samply/samplexchange/resources/SpecimenMapping.java:139-163 | result and new fields are those of the processing loop |
| SpecimenMapping.SpecimenMapping.ReadBodySite | src/main/java/de/samply/samplexchange/resources/SpecimenMapping.java:123-132 | the SNOMED or ICD-O-3 body site is stored by its system |
| SpecimenMapping.SpecimenMapping.ReadMiiHeader | src/main/java/de/samply/samplexchange/resources/SpecimenMapping.java:115-137 | the fields before the loops are those of `MiiHeader` |
| SpecimenMapping.SpecimenMapping.ReadMiiIds | src/main/java/de/samply/samplexchange/resources/SpecimenMapping.java:115-118 | `hasParent`, id and subject are replaced, nothing else |
| SpecimenMapping.SpecimenMapping.FromMii | src/main/java/de/samply/samplexchange/resources/SpecimenMapping.java:113-165 | result and new fields are those of `CaptureMii` |
| SpecimenMapping.SpecimenMapping.ToBbmri | src/main/java/de/samply/samplexchange/resources/SpecimenMapping.java:168-230 | result and new fields are those of `EmitBbmri` |
| SpecimenMapping.SpecimenMapping.ToMii | src/main/java/de/samply/samplexchange/resources/SpecimenMapping.java:233-268 | result and new fields are those of `EmitMii` |
| BiobankMapping.BbmriIdOf | src/main/java/de/samply/samplexchange/resources/BiobankMapping.java:36-42 | the bbmri id is the first identifier's value when its system is the bbmri.de id system, else the old value |
| BiobankMapping.DescriptionLoop | src/main/java/de/samply/samplexchange/resources/BiobankMapping.java:52-56 | the description loop throws exactly on an extension without a URL or a description extension without a value; otherwise only the description changes, to that of the last description extension of the side |
| BiobankMapping.CaptureFields | src/main/java/de/samply/samplexchange/resources/BiobankMapping.java:45-76 | `fromBbmri`/`fromMii` throw exactly as their description loop does, and otherwise replace id, bbmri id, name, contacts, alias and description |
| BiobankMapping.RoleLoopFaults | src/main/java/de/samply/samplexchange/resources/BiobankMapping.java:130-144 | the role loop throws exactly on an extension without a URL or a role extension of the other side without primitive text |
| BiobankMapping.RoleExtensionOk | src/main/java/de/samply/samplexchange/resources/BiobankMapping.java:130-144 | one role extension without a fault: renamed in place, and its role, if any, added to the output contact |
| BiobankMapping.RoleLoop | src/main/java/de/samply/samplexchange/resources/BiobankMapping.java:130-144 | after the role loop, every extension is renamed in order and the output roles are the roles of the input extensions, in order |
| BiobankMapping.ItemsInOrder | src/main/java/de/samply/samplexchange/resources/BiobankMapping.java:107-145 | output contact i is the contact built from input contact i and the roles of its extensions |
| BiobankMapping.RenamedInOrder | src/main/java/de/samply/samplexchange/resources/BiobankMapping.java:130-136 | input contact i keeps everything but its role values, which are translated in place |
| BiobankMapping.ContactStepOk | src/main/java/de/samply/samplexchange/resources/BiobankMapping.java:108-145 | one contact yields exactly one output contact and throws exactly on a faulty role extension |
| BiobankMapping.ContactLoopFaults | src/main/java/de/samply/samplexchange/resources/BiobankMapping.java:108-145 | the contact loop throws exactly when some contact has a faulty role extension |
| BiobankMapping.ContactLoop | src/main/java/de/samply/samplexchange/resources/BiobankMapping.java:107-145 | after the contact loop, the stored contacts are renamed in order and the output contacts are one per input contact, in order |
| BiobankMapping.EmitOk | src/main/java/de/samply/samplexchange/resources/BiobankMapping.java:79-149 | without faults the output is the written organization with one item per contact, and the stored contacts are renamed |
| BiobankMapping.EmitContract | src/main/java/de/samply/samplexchange/resources/BiobankMapping.java:79-220 | `toBbmri`/`toMii` throw exactly when contacts are `null` (then nothing changes) or one is faulty; otherwise the stored contacts are renamed and the output has the stored id and name, the target profile, one identifier exactly when a bbmri id is stored, one description extension under the target URL exactly when a description is stored, and the contacts built from the stored ones |
| BiobankMapping.PurposeIsAdminForRoles | src/main/java/de/samply/samplexchange/resources/BiobankMapping.java:110-143 | an output contact's purpose is ADMIN exactly when translating to bbmri.de and the contact has a KontaktRolle extension; otherwise it stays RESEARCH |
| BiobankMapping.RolesNonEmpty | src/main/java/de/samply/samplexchange/resources/BiobankMapping.java:138-142 | an output contact gets roles exactly when some input extension has the source role URL |
| BiobankMapping.RenameIdempotent | src/main/java/de/samply/samplexchange/resources/BiobankMapping.java:134-136 | translating a role extension twice is the same as once |
| BiobankMapping.RenameAllNoFault | src/main/java/de/samply/samplexchange/resources/BiobankMapping.java:130-144 | renaming keeps every role extension free of faults |
| BiobankMapping.RenameAllIdempotent | src/main/java/de/samply/samplexchange/resources/BiobankMapping.java:130-144 | renaming the extension list twice is the same as once |
| BiobankMapping.RolesOfRenamed | src/main/java/de/samply/samplexchange/resources/BiobankMapping.java:130-144 | renamed extensions yield the same output roles |
| BiobankMapping.EmitTwice | src/main/java/de/samply/samplexchange/resources/BiobankMapping.java:79-220 | a second `toBbmri`/`toMii` on the same mapping emits the same organization and leaves the same fields, although the first one rewrote the stored contacts |
| BiobankMapping.ContactRenamedTwice | src/main/java/de/samply/samplexchange/resources/BiobankMapping.java:206-215 | a renamed contact stays fault-free, renames to itself and yields the same output contact |
| BiobankMapping.RenameContactsNoFault | src/main/java/de/samply/samplexchange/resources/BiobankMapping.java:183-216 | the renamed contacts are fault-free |
| BiobankMapping.RenameContactsTwice | src/main/java/de/samply/samplexchange/resources/BiobankMapping.java:183-216 | renaming the contacts twice is the same as once |
| BiobankMapping.RenameContactsItems | src/main/java/de/samply/samplexchange/resources/BiobankMapping.java:183-216 | renamed contacts yield the same output contacts |
| BiobankMapping.DirectorRoundTrip | src/main/java/de/samply/samplexchange/resources/BiobankMapping.java:134-136 | "Direktor" becomes "Director" toward bbmri.de, and every role but "Director" comes back unchanged toward MII (lines 208-210) |
| BiobankMapping.FreshCannotEmit | src/main/java/de/samply/samplexchange/resources/BiobankMapping.java:107 | a new mapping has `null` contacts: `toBbmri`/`toMii` throw and change nothing |
| BiobankMapping.BbmriToMiiCarriesOrganization | src/main/java/de/samply/samplexchange/resources/BiobankMapping.java:152-220 | a new mapping fed one bbmri.de Organization without faults emits an MII Organization with its id, name, alias and number of contacts, its last description and its BBMRI-ERIC identifier |
| BiobankMapping.BiobankMapping.constructor | src/main/java/de/samply/samplexchange/resources/BiobankMapping.java:25-34 | all fields unset |
| BiobankMapping.BiobankMapping.ReadBbmriId | src/main/java/de/samply/samplexchange/resources/BiobankMapping.java:36-42 | only the bbmri id changes, to `BbmriIdOf` |
| BiobankMapping.BiobankMapping.ReadDescription | src/main/java/de/samply/samplexchange/resources/BiobankMapping.java:52-56 | one extension of the description loop |
| BiobankMapping.BiobankMapping.ReadDescriptions | src/main/java/de/samply/samplexchange/resources/BiobankMapping.java:52-56 | result and fields are those of the description loop |
| BiobankMapping.BiobankMapping.Read | src/main/java/de/samply/samplexchange/resources/BiobankMapping.java:45-76 | result and fields are those of `Capture` |
| BiobankMapping.BiobankMapping.FromBbmri | src/main/java/de/samply/samplexchange/resources/BiobankMapping.java:45-59 | `Capture` from the bbmri.de profile |
| BiobankMapping.BiobankMapping.FromMii | src/main/java/de/samply/samplexchange/resources/BiobankMapping.java:62-76 | `Capture` from the MII profile |
| BiobankMapping.BiobankMapping.TranslateRole | src/main/java/de/samply/samplexchange/resources/BiobankMapping.java:130-144 | one pass of the role loop |
| BiobankMapping.BiobankMapping.TranslateRoles | src/main/java/de/samply/samplexchange/resources/BiobankMapping.java:130-144 | result and state are those of the role loop |
| BiobankMapping.BiobankMapping.TranslateContact | src/main/java/de/samply/samplexchange/resources/BiobankMapping.java:108-145 | one pass of the contact loop |
| BiobankMapping.BiobankMapping.TranslateContacts | src/main/java/de/samply/samplexchange/resources/BiobankMapping.java:107-145 | result and state are those of the contact loop |
| BiobankMapping.BiobankMapping.Write | src/main/java/de/samply/samplexchange/resources/BiobankMapping.java:79-220 | result and new fields are those of `Emit` |
| BiobankMapping.BiobankMapping.ToBbmri | src/main/java/de/samply/samplexchange/resources/BiobankMapping.java:79-149 | `Emit` toward bbmri.de |
| BiobankMapping.BiobankMapping.ToMii | src/main/java/de/samply/samplexchange/resources/BiobankMapping.java:152-220 | `Emit` toward MII |
| CollectionMapping.EmitIsBiobankTranslation | src/main/java/de/samply/samplexchange/resources/CollectionMapping.java:36-55 | the collection output succeeds exactly when the biobank translation of the stored source organization does, and equals it except that the profile is the collection profile and `partOf` is the stored parent |
| CollectionMapping.BbmriCollectionToMii | src/main/java/de/samply/samplexchange/resources/CollectionMapping.java:47-55 | a new mapping fed one bbmri.de collection without faults emits an MII Organization with its id, name, number of contacts and parent, under the MII collection profile |
| CollectionMapping.NothingCapturedThrows | src/main/java/de/samply/samplexchange/resources/CollectionMapping.java:36-55 | a new mapping that read only an organization of the target side has no source organization, and `toBbmri`/`toMii` throw |
| CollectionMapping.CollectionMapping.constructor | src/main/java/de/samply/samplexchange/resources/CollectionMapping.java:15-21 | nothing stored, a fresh biobank mapping |
| CollectionMapping.CollectionMapping.FromBbmri | src/main/java/de/samply/samplexchange/resources/CollectionMapping.java:24-27 | stores the organization and its `partOf` reference |
| CollectionMapping.CollectionMapping.FromMii | src/main/java/de/samply/samplexchange/resources/CollectionMapping.java:30-33 | the same for MII |
| CollectionMapping.CollectionMapping.Write | src/main/java/de/samply/samplexchange/resources/CollectionMapping.java:36-55 | result and new state are those of `EmitCollection` |
| CollectionMapping.CollectionMapping.ToBbmri | src/main/java/de/samply/samplexchange/resources/CollectionMapping.java:36-44 | `EmitCollection` toward bbmri.de |
| CollectionMapping.CollectionMapping.ToMii | src/main/java/de/samply/samplexchange/resources/CollectionMapping.java:47-55 | `EmitCollection` toward MII |
| MetaMapping.MetaMapping.TagCode | src/main/java/de/samply/samplexchange/resources/MetaMapping.java:23-24 | the code starts with "TransFAIR " and the printed version, ends with the printed mapping name, and is 16 characters longer than version, date and name together; `null` prints as "null" |
| MetaMapping.MetaMapping.TagResource | src/main/java/de/samply/samplexchange/resources/MetaMapping.java:22-26 | the same resource with exactly one tag appended: kind, id, profiles and earlier tags unchanged, and restoring the old meta gives the input back |
| BundleWriter.IndexOf | src/main/java/de/samply/samplexchange/writers/fhir/FhirBundleWriter.java:37 | `indexOf`: -1 when the pattern does not occur at or after the position, else the first occurrence there |
| BundleWriter.LastSlash | src/main/java/de/samply/samplexchange/writers/fhir/FhirBundleWriter.java:37 | `lastIndexOf('/')`: the last slash before the position, or -1 when there is none |
| BundleWriter.PlainIdPart | src/main/java/de/samply/samplexchange/writers/fhir/FhirBundleWriter.java:37 | the id part of a plain id (no slash, no history marker, not a URN) is the id itself |
| BundleWriter.QualifiedIdPart | src/main/java/de/samply/samplexchange/writers/fhir/FhirBundleWriter.java:37 | the id part of `prefix/x` is `x` for a plain `x` |
| BundleWriter.PlainIdRequest | src/main/java/de/samply/samplexchange/writers/fhir/FhirBundleWriter.java:31-38 | a resource with a plain id gets full URL = id and request (`Type/id`, PUT) |
| BundleWriter.Entries | src/main/java/de/samply/samplexchange/writers/fhir/FhirBundleWriter.java:30-39 | one entry per resource, in order |
| BundleWriter.BundleOf | src/main/java/de/samply/samplexchange/utils/fhir/FhirTransfer.java:238-260 | a transaction bundle with the given id and one entry per resource, in order, each holding its resource; an empty list gives no entries |
| BundleWriter.BuildResources | src/main/java/de/samply/samplexchange/writers/fhir/FhirBundleWriter.java:24-46 | the loop builds the transaction bundle `BundleOf` of the list, with the given UUID |
| PatientIds.SpecimenPatients | src/main/java/de/samply/samplexchange/utils/fhir/FhirTransfer.java:206-214 | exactly the set of specimen subjects; at most one per specimen |
| PatientIds.SpecimenIds | src/main/java/de/samply/samplexchange/utils/fhir/FhirTransfer.java:217-225 | exactly the set of specimen ids; at most one per specimen |
| PatientIds.PatientRefs | src/main/java/de/samply/samplexchange/readers/FhirPatientIdReader.java:50-58 | exactly the set of patient ids; at most one per patient |
| PatientIds.FetchPatientIds | src/main/java/de/samply/samplexchange/readers/FhirPatientIdReader.java:31-37 | the specimen subjects exactly when the start resource is "Specimen", else the patient ids |
| PatientIds.OrderLength | src/main/java/de/samply/samplexchange/mapper/fhir/bbmri/Bbmri2Bbmri.java:70-75 | an iteration order of a set visits as many ids as the set holds |
| Pipeline.Sink.Export | src/main/java/de/samply/samplexchange/utils/fhir/FhirExportInterface.java:16 | the sink records each exported bundle, in order |
| Pipeline.AppendingOrigin | src/main/java/de/samply/samplexchange/mapper/fhir/bbmri/Bbmri2Mii.java:94-114 | a resource loop keeps what the list held and adds only outputs of its own elements |
| Pipeline.AppendingTotal | src/main/java/de/samply/samplexchange/mapper/fhir/bbmri/Bbmri2Mii.java:94-102 | a loop whose every pass yields a resource does not throw and adds exactly the element outputs, one per element, in order |
| Pipeline.AppendingNothing | src/main/java/de/samply/samplexchange/mapper/fhir/bbmri/Bbmri2Mii.java:115-131 | a loop whose passes yield nothing leaves the list as it was |
| Pipeline.StageOrigin | src/main/java/de/samply/samplexchange/mapper/fhir/bbmri/Bbmri2Mii.java:94-114 | an enabled or disabled stage keeps the list's prefix and adds only outputs of its elements |
| Pipeline.EmittedCount | src/main/java/de/samply/samplexchange/mapper/fhir/bbmri/Bbmri2Mii.java:76-137 | one exported list per patient whose result is an export, each the list of some patient id |
| Pipeline.ExportingFinishes | src/main/java/de/samply/samplexchange/mapper/fhir/mii/Mii2Bbmri.java:66-116 | the patient loop completes exactly when no patient fails, and then has exported the lists of the patients not skipped, in order |
| Pipeline.ExportingOrigin | src/main/java/de/samply/samplexchange/mapper/fhir/mii/Mii2Bbmri.java:66-116 | every exported list belongs to some patient id |
| Pipeline.ExportingAborts | src/main/java/de/samply/samplexchange/mapper/fhir/bbmri/Bbmri2Mii.java:76-137 | the first failing patient ends the loop with its exception; the lists of the earlier patients stay exported |
| Pipeline.ExportBundle | src/main/java/de/samply/samplexchange/mapper/fhir/bbmri/Bbmri2Mii.java:133-135 | exporting appends to the sink the bundle of the list with the next UUID |
| Bbmri2Mii.BlankSourceExportsNothing | src/main/java/de/samply/samplexchange/mapper/fhir/bbmri/Bbmri2Mii.java:58-61 | a blank source server ends `transfer()` as not configured, without an export |
| Bbmri2Mii.ConvertConditions | src/main/java/de/samply/samplexchange/mapper/fhir/bbmri/Bbmri2Mii.java:95-102 | the loop computes the Condition stage, which never throws |
| Bbmri2Mii.ConvertSpecimens | src/main/java/de/samply/samplexchange/mapper/fhir/bbmri/Bbmri2Mii.java:105-113 | the loop computes the Specimen stage, which stops at the first exception |
| Bbmri2Mii.ConvertSpecimen | src/main/java/de/samply/samplexchange/mapper/fhir/bbmri/Bbmri2Mii.java:107-112 | one specimen: the result of `fromBbmri`, `toMii` and tagging |
| Bbmri2Mii.CheckObservations | src/main/java/de/samply/samplexchange/mapper/fhir/bbmri/Bbmri2Mii.java:116-130 | the loop computes the Observation stage |
| Bbmri2Mii.CollectPatient | src/main/java/de/samply/samplexchange/mapper/fhir/bbmri/Bbmri2Mii.java:77-131 | the collected list is the specification's `PatientResources` |
| Bbmri2Mii.Transfer | src/main/java/de/samply/samplexchange/mapper/fhir/bbmri/Bbmri2Mii.java:56-138 | the outcome and the exported bundles are those of `Transferred`, one bundle per patient list, in order |
| Bbmri2Mii.AsShipped | src/main/java/de/samply/samplexchange/mapper/fhir/bbmri/Bbmri2Mii.java:81 | with `resources` never assigned, a run with a non-blank source and at least one patient aborts with a NullPointerException before any export |
| Bbmri2Mii.SkippedPatients | src/main/java/de/samply/samplexchange/mapper/fhir/bbmri/Bbmri2Mii.java:81-92 | a patient is skipped exactly when "Patient" is among the resources and the patient has no id |
| Bbmri2Mii.ExportedList | src/main/java/de/samply/samplexchange/mapper/fhir/bbmri/Bbmri2Mii.java:81-114 | every resource of an exported list is tagged and is a Patient, a Condition or a Specimen, in that order |
| Bbmri2Mii.ConditionOut | src/main/java/de/samply/samplexchange/mapper/fhir/bbmri/Bbmri2Mii.java:98-101 | each condition gives, without throwing, one tagged Condition |
| Bbmri2Mii.SpecimenOut | src/main/java/de/samply/samplexchange/mapper/fhir/bbmri/Bbmri2Mii.java:107-112 | a specimen that does not throw gives one tagged Specimen |
| Bbmri2Mii.RanksOf | src/main/java/de/samply/samplexchange/mapper/fhir/bbmri/Bbmri2Mii.java:81-114 | the stages put the Patient, the conditions and the specimens in that order, all tagged |
| Bbmri2Mii.RunTagged | src/main/java/de/samply/samplexchange/mapper/fhir/bbmri/Bbmri2Mii.java:73-128 | every exported resource carries the run's tag, whose code ends in "BBMRI2MII", and none is an Observation |
| Mii2Bbmri.BlankSourceExits | src/main/java/de/samply/samplexchange/mapper/fhir/mii/Mii2Bbmri.java:119-125 | a blank source server ends the process with status 1 before any export |
| Mii2Bbmri.ConvertSpecimens | src/main/java/de/samply/samplexchange/mapper/fhir/mii/Mii2Bbmri.java:83-92 | the loop computes the Specimen stage |
| Mii2Bbmri.ConvertConditions | src/main/java/de/samply/samplexchange/mapper/fhir/mii/Mii2Bbmri.java:94-109 | the loop computes the Condition stage |
| Mii2Bbmri.CollectPatient | src/main/java/de/samply/samplexchange/mapper/fhir/mii/Mii2Bbmri.java:67-109 | the collected list is the specification's `PatientResources` |
| Mii2Bbmri.Transfer | src/main/java/de/samply/samplexchange/mapper/fhir/mii/Mii2Bbmri.java:51-117 | the outcome and the exported bundles are those of `Transferred` |
| Mii2Bbmri.SkippedPatients | src/main/java/de/samply/samplexchange/mapper/fhir/mii/Mii2Bbmri.java:71-81 | a patient is skipped exactly when the patient has no id |
| Mii2Bbmri.AliquotsDropped | src/main/java/de/samply/samplexchange/mapper/fhir/mii/Mii2Bbmri.java:88-91 | an aliquot (a specimen with a parent) adds nothing, or throws |
| Mii2Bbmri.SpecimenOut | src/main/java/de/samply/samplexchange/mapper/fhir/mii/Mii2Bbmri.java:85-91 | an added specimen is a tagged Specimen |
| Mii2Bbmri.ConditionOut | src/main/java/de/samply/samplexchange/mapper/fhir/mii/Mii2Bbmri.java:96-108 | an added condition is an Observation exactly when `checkMiiCauseOfDeath` holds, and untagged then; otherwise a tagged Condition |
| Mii2Bbmri.ExportedList | src/main/java/de/samply/samplexchange/mapper/fhir/mii/Mii2Bbmri.java:71-109 | an exported list starts with the Patient, then specimens, then conditions; Observations are untagged, everything else tagged |
| Mii2Bbmri.RanksOf | src/main/java/de/samply/samplexchange/mapper/fhir/mii/Mii2Bbmri.java:71-109 | the stages keep the Patient first and put specimens before conditions, with the same tagging |
| Mii2Bbmri.RunTagged | src/main/java/de/samply/samplexchange/mapper/fhir/mii/Mii2Bbmri.java:64-107 | every exported resource carries the run's tag, whose code ends in "MII2BBMRI", except the Observations, which carry no tag |
| Bbmri2Bbmri.Setup | src/main/java/de/samply/samplexchange/mapper/fhir/bbmri/Bbmri2Bbmri.java:100-107 | true exactly when the source is not blank and the export path, or else the target, is not blank; throws exactly when one of the strings it tests is `null` |
| Bbmri2Bbmri.UnconfiguredRun | src/main/java/de/samply/samplexchange/mapper/fhir/bbmri/Bbmri2Bbmri.java:46-49 | when `setup()` fails or throws, nothing is exported and the run does not finish |
| Bbmri2Bbmri.Transfer | src/main/java/de/samply/samplexchange/mapper/fhir/bbmri/Bbmri2Bbmri.java:43-98 | the outcome and the exported bundles are those of `Transferred` |
| Bbmri2Bbmri.ExportPatients | src/main/java/de/samply/samplexchange/mapper/fhir/bbmri/Bbmri2Bbmri.java:75-97 | the patient loop exports one list per patient id, in order, each a bundle with the next UUID |
| Bbmri2Bbmri.AllEmitted | src/main/java/de/samply/samplexchange/mapper/fhir/bbmri/Bbmri2Bbmri.java:75-97 | list i is the bundle of patient id i |
| Bbmri2Bbmri.ConfiguredRun | src/main/java/de/samply/samplexchange/mapper/fhir/bbmri/Bbmri2Bbmri.java:55-97 | a configured run finishes with 2 + (number of specimen subjects) exports: organizations, affiliations, then one list per patient id, in order |
| Bbmri2Bbmri.PatientList | src/main/java/de/samply/samplexchange/mapper/fhir/bbmri/Bbmri2Bbmri.java:79-91 | a patient list is the Patient, then its specimens, observations and conditions, unchanged and in that order |

## Left out

- Network and configuration: the HTTP fetchers, `FhirClient`, `FhirComponent` and the Spring wiring are not modelled. A pipeline sees the source server as a `Source` value of fetched lists and per-patient lookups.
- `FhirServerSaver` and `FhirFileSaver` are not modelled. Both become the `Sink` that records the bundles it is given. The file saver's habit of returning true on an IOException is left out.
- The iteration order of the `HashSet` of patient ids is not modelled. It is an input `order`, which must visit each id of the set exactly once (`PatientIds.IsOrderOf`).
- `UUID.randomUUID()` is the parameter `uuid`: bundle number k gets `uuid(k)`.
- `LocalDate.now()` is the parameter `today`.
- Logging and the patient counter are not modelled; they only log.
- `buildResources` catches JVM `Error`s. Errors are not modelled.
- `FhirTransfer` repeats the code of `FhirBundleWriter` and `FhirPatientIdReader`. One model (`BundleWriter`, `PatientIds`) covers both copies.
- `checkMmiCondition` is not part of this model. `Mii2Bbmri` takes it as the predicate `isMiiCondition`.
- `FhirProfileChecker` is not part of this model. Its methods have the names of those in `CheckResources`, so the model uses `CheckResources`.
- The test whether a profile list contains a profile compares `CanonicalType`s with strings. It is the parameter `inProfile`.
- `Bbmri2Mii.resources` is never assigned in the source. It is an input, `None` for the unassigned field (see `Bbmri2Mii.AsShipped`).
- HAPI's auto-creating accessors (`getCodingFirstRep`, `getProcessingFirstRep`, ...) are modelled as "the first element, or an empty one".
- HAPI's type-mismatch exceptions on choice-typed fields are not modelled. A field holding the other alternative reads as empty.
- PatientMapping.CaptureBbmri: a boolean `deceased[x]` makes HAPI's `getDeceasedDateTimeType` throw. The model reads no date instead.
- ConditionMapping.ConditionMapping.FromBbmri and ConditionMapping.ConditionMapping.FromMii: an `onset[x]` that is not a dateTime makes HAPI's `getOnsetDateTimeType` throw. The model reads the onset as an optional date and never throws there.
- SpecimenMapping.CaptureBbmriFields: a `collected[x]` that is not a dateTime makes HAPI's `getCollectedDateTimeType` throw in `fromBbmri` and `fromMii`. The model reads the collection date as an optional date.
- SpecimenMapping.ProcessingFrame: the diagnosis reference `miiConditionRef` keeps the extension's value. Its `toString()` rendering is not modelled, and no output uses it.
- SpecimenMapping.ProcessingTemperature: `fromMii` reads temperature bounds with `longValue()`. Truncation of decimal quantities is not modelled, because range bounds are integers.
- `java.util.Date` values are opaque (`Date`). Dates are compared for equality only.
- `String.isBlank()` is modelled as "every character satisfies `Character.isWhitespace`". Characters outside the Basic Multilingual Plane are not modelled.
- MetaMapping.MetaMapping.TagResource: `tagResource` changes the resource in place and returns the same object. The model returns the tagged value, so aliasing is not modelled.
- BiobankMapping.EmitContract: the role rewrite of `toBbmri`/`toMii` changes extension objects shared with the organization that `fromBbmri`/`fromMii` read. The model stores the rewritten contacts back into the mapping's record. The caller's copy of the input organization is not modelled.
- `SpecimenMapping.toBbmri` builds StorageTemperature and SampleDiagnosis extensions and never attaches them, so they are not modelled (`SpecimenMapping.EmitBbmriIgnores`).
- `Bbmri2Mii.transfer` (Bbmri2Mii.java:68) and `Mii2Bbmri.transfer` (Mii2Bbmri.java:58-59) call `fetchPatientIds(sourceClient)` with one argument, which matches neither definition (`FhirTransfer.java:57`, `FhirPatientIdReader.java:31` take a client and a start resource). The call as written names no method; the model reads it as the two-argument one, with the start resource an input `startResource` of both `Transfer` methods.
- SpecimenMapping.CaptureMiiParent: `hasParent` is modelled as a non-empty parent list. HAPI's `hasParent()` is false for a list holding only empty References, which the model does not distinguish.
- The `Bbmri2Mii` observation loop converts nothing, because `targetFormat` is MII. Its loop is modelled, and no conversion follows from it.
- `ConvertClass`, the common interface of the mappers, is not modelled as a type. Each mapper class has its four methods.
