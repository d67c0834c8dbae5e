/** The profile filters of class `CheckResources`: which Observations and Conditions are
    cause-of-death records, and the Organization profile tests. */
module CheckResources {
  import opened Fhir

  const SnomedSystem := "http://snomed.info/sct"
  const LoincSystem := "http://loinc.org"

  /** The LOINC code of a bbmri.de cause-of-death Observation. */
  const BbmriCauseOfDeathCode := "68343-3"

  /** The category codings that mark a Condition as an MII cause of death. */
  const MiiCauseOfDeathSnomed := Coding(Some(SnomedSystem), Some("16100001"))
  const MiiCauseOfDeathLoinc := Coding(Some(LoincSystem), Some("79378-6"))

  const BbmriCollectionProfile := "https://fhir.bbmri.de/StructureDefinition/Collection"
  const BbmriBiobankProfile := "https://fhir.bbmri.de/StructureDefinition/Biobank"
  const MiiOrganizationProfile :=
    "https://www.medizininformatik-initiative.de/fhir/ext/modul-biobank/StructureDefinition/Organization"

  /** `getCategoryFirstRep()` */
  function FirstCategory(c: Condition): CodeableConcept
  {
    if |c.category| == 0 then NoConcept else c.category[0]
  }

  /** `checkBbmriCauseOfDeath`: the first coding of the Observation's code is the LOINC
      cause-of-death code; a missing code is dereferenced and throws. */
  function CheckBbmriCauseOfDeath(o: Observation): (r: Result<bool>)
    ensures r.Thrown? <==> FirstCoding(o.code).code == None
    ensures r.Thrown? ==> r.fault == NullPointer
    ensures r.Ok? ==> (r.value <==> FirstCoding(o.code).code == Some(BbmriCauseOfDeathCode))
  {
    var code := FirstCoding(o.code).code;
    if code == None then Thrown(NullPointer) else Ok(code.value == BbmriCauseOfDeathCode)
  }

  /** `checkMiiCauseOfDeath`: the first coding of the first category is the SNOMED CT or the
      LOINC cause-of-death coding; the comparisons are null-safe, so it never throws. */
  function CheckMiiCauseOfDeath(c: Condition): (r: bool)
    ensures r <==> FirstCoding(FirstCategory(c)) in {MiiCauseOfDeathSnomed, MiiCauseOfDeathLoinc}
  {
    var coding := FirstCoding(FirstCategory(c));
    (coding.code == Some("16100001") && coding.system == Some(SnomedSystem))
    || (coding.system == Some(LoincSystem) && coding.code == Some("79378-6"))
  }

  /** System and code are tested as a pair: the LOINC code under the SNOMED CT system, and
      a cause-of-death coding in the second category, do not make a cause of death. */
  lemma CodeAndSystemMustMatch(c: Condition)
    ensures CheckMiiCauseOfDeath(c.(category := [Coded(SnomedSystem, Some("79378-6"))])) == false
    ensures CheckMiiCauseOfDeath(c.(category := [NoConcept, CodeableConcept([MiiCauseOfDeathLoinc])])) == false
  {
  }

  /** Java's `List.equals` with a `String` argument: a list never equals a string. */
  predicate ListEqualsString(list: seq<string>, s: string)
  {
    false
  }

  /** `checkBbmriCollection`, `checkBbmriBiobank` and `checkMmiBiobank` compare the whole
      profile list with one URL, so they hold for no Organization at all. */
  function CheckBbmriCollection(org: Organization): (r: bool)
  {
    ListEqualsString(org.meta.profile, BbmriCollectionProfile)
  }

  function CheckBbmriBiobank(org: Organization): (r: bool)
  {
    ListEqualsString(org.meta.profile, BbmriBiobankProfile)
  }

  function CheckMiiBiobank(org: Organization): (r: bool)
  {
    ListEqualsString(org.meta.profile, MiiOrganizationProfile)
  }

  /** Even an Organization whose only profile is exactly the URL tested is rejected. */
  lemma OrganizationChecksRejectAll(org: Organization)
    ensures !CheckBbmriCollection(org.(meta := Profiled(BbmriCollectionProfile)))
    ensures !CheckBbmriBiobank(org.(meta := Profiled(BbmriBiobankProfile)))
    ensures !CheckMiiBiobank(org.(meta := Profiled(MiiOrganizationProfile)))
    ensures !CheckBbmriCollection(org) && !CheckBbmriBiobank(org) && !CheckMiiBiobank(org)
  {
  }
}
