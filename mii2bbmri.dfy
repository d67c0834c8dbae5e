/** `Mii2Bbmri`: the pipeline that reads MII core data set resources patient by patient and
    exports them converted to bbmri.de, tagged with the provenance tag "MII2BBMRI" (all
    but the cause-of-death observations). `checkMmiCondition`, whose source is not part of
    this model, is the parameter `isMiiCondition`. */
module Mii2Bbmri {
  import opened Fhir
  import opened BundleWriter
  import opened Pipeline
  import PatientIds
  import MetaMapping
  import CheckResources
  import PatientMapping
  import ConditionMapping
  import SpecimenMapping
  import CauseOfDeathMapping

  const MappingName := "MII2BBMRI"

  /** The tag writer `transfer()` builds from the application version. */
  function Tagger(cfg: Configuration): MetaMapping.MetaMapping
  {
    MetaMapping.MetaMapping(cfg.appVersion, Some(MappingName))
  }

  /** The Patient: read as MII, emitted as bbmri.de, tagged. */
  function PatientToBbmri(meta: MetaMapping.MetaMapping, today: string, p: Patient): Result<Resource>
  {
    var out := PatientMapping.EmitBbmri(PatientMapping.CaptureMii(PatientMapping.Fresh, p)).result;
    if out.Thrown? then Thrown(out.fault) else Ok(meta.TagResource(PatientResource(out.value), today))
  }

  /** One pass of the Specimen loop: reading and emitting may throw, and a specimen that
      `toBbmri` returns as `null` is not added. */
  function SpecimenToBbmri(meta: MetaMapping.MetaMapping, today: string, sp: Specimen): Result<Option<Resource>>
  {
    var cap := SpecimenMapping.CaptureMii(SpecimenMapping.Fresh, sp);
    if cap.result.Thrown? then Thrown(cap.result.fault)
    else
      var out := SpecimenMapping.EmitBbmri(cap.after).result;
      if out.Thrown? then Thrown(out.fault)
      else if out.value == None then Ok(None)
      else Ok(Some(meta.TagResource(SpecimenResource(out.value.value), today)))
  }

  function Specimens(meta: MetaMapping.MetaMapping, today: string): Specimen -> Result<Option<Resource>>
  {
    sp => SpecimenToBbmri(meta, today, sp)
  }

  /** One pass of the Condition loop: a cause of death becomes a bbmri.de cause-of-death
      Observation, added without a tag; another condition that `isMiiCondition` accepts
      becomes a tagged bbmri.de Condition; any other condition is passed over. */
  function ConditionToBbmri(isMiiCondition: Condition -> bool, inProfile: ProfileTest,
                            meta: MetaMapping.MetaMapping, today: string, c: Condition): Result<Option<Resource>>
  {
    if CheckResources.CheckMiiCauseOfDeath(c) then
      var cap := CauseOfDeathMapping.CaptureMii(CauseOfDeathMapping.Fresh, c, inProfile);
      if cap.result.Thrown? then Thrown(cap.result.fault)
      else
        var out := CauseOfDeathMapping.EmitBbmri(cap.after).result;
        if out.Thrown? then Thrown(out.fault) else Ok(Some(ObservationResource(out.value)))
    else if isMiiCondition(c) then
      var out := ConditionMapping.EmitBbmri(ConditionMapping.CaptureMii(ConditionMapping.Fresh, c)).result;
      Ok(Some(meta.TagResource(ConditionResource(out.value), today)))
    else Ok(None)
  }

  function Conditions(isMiiCondition: Condition -> bool, inProfile: ProfileTest, meta: MetaMapping.MetaMapping,
                      today: string): Condition -> Result<Option<Resource>>
  {
    c => ConditionToBbmri(isMiiCondition, inProfile, meta, today, c)
  }

  /** The body of the patient loop: the tagged Patient (or `continue` when its conversion
      throws), then the specimens, then the conditions. */
  function PatientResources(isMiiCondition: Condition -> bool, src: Source, meta: MetaMapping.MetaMapping,
                            today: string, inProfile: ProfileTest, pid: JString): PatientResult
  {
    var patient := PatientToBbmri(meta, today, src.patient(pid));
    if patient.Thrown? then Skip
    else
      var s0 := Step(Ok(()), [patient.value]);
      var s1 := Stage(s0, true, Specimens(meta, today), src.patientSpecimens(pid));
      Finish(Stage(s1, true, Conditions(isMiiCondition, inProfile, meta, today), src.patientConditions(pid)))
  }

  function PerPatient(isMiiCondition: Condition -> bool, src: Source, meta: MetaMapping.MetaMapping,
                      today: string, inProfile: ProfileTest): JString -> PatientResult
  {
    pid => PatientResources(isMiiCondition, src, meta, today, inProfile, pid)
  }

  /** `transfer()`: `setup()` ends the process with status 1 when the source server is
      blank; otherwise every patient id, in the iteration order `order`, goes through the
      loop. */
  function Transferred(cfg: Configuration, isMiiCondition: Condition -> bool, src: Source, today: string,
                       inProfile: ProfileTest, order: seq<JString>): Run
  {
    var blank := IsBlank(cfg.sourceServer);
    if blank.Thrown? then Run(Aborted(blank.fault), [])
    else if blank.value then Run(Exit(1), [])
    else Looped(PerPatient(isMiiCondition, src, Tagger(cfg), today, inProfile), order)
  }

  /** A blank source server makes `setup()` end the process with status 1, before anything
      is fetched or exported. */
  lemma BlankSourceExits(cfg: Configuration, isMiiCondition: Condition -> bool, src: Source, today: string,
                         inProfile: ProfileTest, order: seq<JString>)
    requires IsBlank(cfg.sourceServer) == Ok(true)
    ensures Transferred(cfg, isMiiCondition, src, today, inProfile, order) == Run(Exit(1), [])
  {
  }

  /** The Specimen loop. */
  method ConvertSpecimens(meta: MetaMapping.MetaMapping, today: string, acc: seq<Resource>,
                          specimens: seq<Specimen>) returns (s: Step<seq<Resource>, ()>)
    ensures s == Scan(Appending(Specimens(meta, today)), acc, specimens)
  {
    s := Step(Ok(()), acc);
    for i := 0 to |specimens|
      invariant s == Scan(Appending(Specimens(meta, today)), acc, specimens[..i]) && s.result.Ok?
    {
      ScanNextOk(Appending(Specimens(meta, today)), acc, specimens, i, s.after);
      var mapping := new SpecimenMapping.SpecimenMapping();
      var read := mapping.FromMii(specimens[i]);
      if read.Thrown? {
        ScanStop(Appending(Specimens(meta, today)), acc, specimens, i);
        return Step(Thrown(read.fault), s.after);
      }
      var out := mapping.ToBbmri();
      if out.Thrown? {
        ScanStop(Appending(Specimens(meta, today)), acc, specimens, i);
        return Step(Thrown(out.fault), s.after);
      }
      if out.value != None {
        s := Step(Ok(()), s.after + [meta.TagResource(SpecimenResource(out.value.value), today)]);
      } else {
        assert s.after + [] == s.after;
      }
    }
    Whole(specimens);
  }

  /** The Condition loop. */
  method ConvertConditions(isMiiCondition: Condition -> bool, inProfile: ProfileTest,
                           meta: MetaMapping.MetaMapping, today: string, acc: seq<Resource>,
                           conditions: seq<Condition>) returns (s: Step<seq<Resource>, ()>)
    ensures s == Scan(Appending(Conditions(isMiiCondition, inProfile, meta, today)), acc, conditions)
  {
    ghost var g := Conditions(isMiiCondition, inProfile, meta, today);
    s := Step(Ok(()), acc);
    for i := 0 to |conditions|
      invariant s == Scan(Appending(g), acc, conditions[..i]) && s.result.Ok?
    {
      var c := conditions[i];
      ScanNextOk(Appending(g), acc, conditions, i, s.after);
      if CheckResources.CheckMiiCauseOfDeath(c) {
        var mapping := new CauseOfDeathMapping.CauseOfDeathMapping();
        var read := mapping.FromMii(c, inProfile);
        if read.Thrown? {
          ScanStop(Appending(g), acc, conditions, i);
          return Step(Thrown(read.fault), s.after);
        }
        var out := mapping.ToBbmri();
        if out.Thrown? {
          ScanStop(Appending(g), acc, conditions, i);
          return Step(Thrown(out.fault), s.after);
        }
        s := Step(Ok(()), s.after + [ObservationResource(out.value)]);
      } else if isMiiCondition(c) {
        var mapping := new ConditionMapping.ConditionMapping();
        mapping.FromMii(c);
        var out := mapping.ToBbmri();
        s := Step(Ok(()), s.after + [meta.TagResource(ConditionResource(out.value), today)]);
      } else {
        assert s.after + [] == s.after;
      }
    }
    Whole(conditions);
  }

  /** The loop body for one patient id. */
  method CollectPatient(isMiiCondition: Condition -> bool, src: Source, meta: MetaMapping.MetaMapping,
                        today: string, inProfile: ProfileTest, pid: JString) returns (r: PatientResult)
    ensures r == PatientResources(isMiiCondition, src, meta, today, inProfile, pid)
  {
    var ap := new PatientMapping.PatientMapping();
    ap.FromMii(src.patient(pid));
    var out := ap.ToBbmri();
    if out.Thrown? {
      return Skip;
    }
    var s := ConvertSpecimens(meta, today, [meta.TagResource(PatientResource(out.value), today)],
                              src.patientSpecimens(pid));
    if s.result.Ok? {
      s := ConvertConditions(isMiiCondition, inProfile, meta, today, s.after, src.patientConditions(pid));
    }
    r := Finish(s);
  }

  /** `transfer()`, exporting to `sink`; the k-th bundle of the run gets the id `uuid(k)`. */
  method Transfer(cfg: Configuration, isMiiCondition: Condition -> bool, src: Source, startResource: JString,
                  order: seq<JString>, today: string, inProfile: ProfileTest, uuid: nat -> string, sink: Sink)
    returns (outcome: RunOutcome)
    requires PatientIds.IsOrderOf(order, PatientIds.PatientIdSet(startResource, src.specimens, src.patients))
    modifies sink
    ensures var run := Transferred(cfg, isMiiCondition, src, today, inProfile, order);
            outcome == run.outcome && sink.exported == old(sink.exported) + Bundles(uuid, run.exports)
  {
    var blank := IsBlank(cfg.sourceServer);
    if blank.Thrown? {
      return Aborted(blank.fault);
    }
    if blank.value {
      return Exit(1);
    }
    var meta := Tagger(cfg);
    ghost var per := PerPatient(isMiiCondition, src, meta, today, inProfile);
    var log: seq<seq<Resource>> := [];
    for i := 0 to |order|
      invariant Scan(Exporting(per), [], order[..i]) == Step(Ok(()), log)
      invariant sink.exported == old(sink.exported) + Bundles(uuid, log)
    {
      var r := CollectPatient(isMiiCondition, src, meta, today, inProfile, order[i]);
      ScanNextOk(Exporting(per), [], order, i, log);
      match r {
        case Skip =>
        case Emit(rs) =>
          log := ExportBundle(sink, old(sink.exported), uuid, log, rs);
        case Fail(f) =>
          ScanStop(Exporting(per), [], order, i);
          return Aborted(f);
      }
    }
    Whole(order);
    outcome := Finished;
  }

  /** A patient is skipped iff its Patient has no id. */
  lemma SkippedPatients(isMiiCondition: Condition -> bool, src: Source, meta: MetaMapping.MetaMapping,
                        today: string, inProfile: ProfileTest, pid: JString)
    ensures PatientResources(isMiiCondition, src, meta, today, inProfile, pid) == Skip
            <==> src.patient(pid).id == None
  {
    var rec := PatientMapping.CaptureMii(PatientMapping.Fresh, src.patient(pid));
    assert rec.bbmriId == Some("");
  }

  /** A specimen that has a parent is never added: reading it throws, or `toBbmri`
      returns `null`. */
  lemma AliquotsDropped(meta: MetaMapping.MetaMapping, today: string, sp: Specimen)
    requires |sp.parent| > 0
    ensures SpecimenToBbmri(meta, today, sp).Thrown? || SpecimenToBbmri(meta, today, sp) == Ok(None)
  {
    SpecimenMapping.CaptureMiiParent(SpecimenMapping.Fresh, sp);
  }

  /** The position of a resource kind in a patient's list. */
  function Rank(r: Resource): nat
  {
    if r.TypeName() == "Patient" then 0
    else if r.TypeName() == "Specimen" then 1
    else 2
  }

  /** The bundle form a resource of the list has: cause-of-death observations carry no
      tag, everything else ends with the run's provenance tag. */
  predicate Marked(meta: MetaMapping.MetaMapping, today: string, r: Resource)
  {
    if r.TypeName() == "Observation" then r.GetMeta().tag == [] else Tagged(r, meta.Tag(today))
  }

  /** A converted specimen is a tagged Specimen. */
  lemma SpecimenOut(meta: MetaMapping.MetaMapping, today: string, sp: Specimen)
    ensures var y := SpecimenToBbmri(meta, today, sp);
            y.Ok? && y.value.Some? ==> Rank(y.value.value) == 1 && Marked(meta, today, y.value.value)
  {
  }

  /** A converted condition is an untagged Observation or a tagged Condition. */
  lemma ConditionOut(isMiiCondition: Condition -> bool, inProfile: ProfileTest, meta: MetaMapping.MetaMapping,
                     today: string, c: Condition)
    ensures var y := ConditionToBbmri(isMiiCondition, inProfile, meta, today, c);
            y.Ok? && y.value.Some? ==>
              Rank(y.value.value) == 2 && Marked(meta, today, y.value.value)
              && (y.value.value.TypeName() == "Observation" <==> CheckResources.CheckMiiCauseOfDeath(c))
  {
  }

  /** An exported list starts with the patient's tagged Patient, followed by specimens and
      then conditions and cause-of-death observations; only the observations are untagged. */
  lemma ExportedList(isMiiCondition: Condition -> bool, src: Source, meta: MetaMapping.MetaMapping,
                     today: string, inProfile: ProfileTest, pid: JString)
    ensures var r := PatientResources(isMiiCondition, src, meta, today, inProfile, pid);
            r.Emit? ==>
              |r.resources| > 0 && r.resources[0].TypeName() == "Patient"
              && (forall k | 0 <= k < |r.resources| :: Marked(meta, today, r.resources[k]))
              && (forall i, j | 0 <= i < j < |r.resources| :: Rank(r.resources[i]) <= Rank(r.resources[j]))
  {
    var r := PatientResources(isMiiCondition, src, meta, today, inProfile, pid);
    if r.Emit? {
      var patient := PatientToBbmri(meta, today, src.patient(pid));
      var s0 := Step(Ok(()), [patient.value]);
      var g := Conditions(isMiiCondition, inProfile, meta, today);
      var s1 := Stage(s0, true, Specimens(meta, today), src.patientSpecimens(pid));
      var s2 := Stage(s1, true, g, src.patientConditions(pid));
      RanksOf(isMiiCondition, inProfile, meta, today, s0, s1, s2, src.patientSpecimens(pid), src.patientConditions(pid));
      assert r.resources == s2.after;
    }
  }

  /** The list after both loops, region by region. */
  lemma RanksOf(isMiiCondition: Condition -> bool, inProfile: ProfileTest, meta: MetaMapping.MetaMapping,
                today: string, s0: Step<seq<Resource>, ()>, s1: Step<seq<Resource>, ()>,
                s2: Step<seq<Resource>, ()>, specimens: seq<Specimen>, conditions: seq<Condition>)
    requires |s0.after| == 1 && s0.after[0].TypeName() == "Patient" && Tagged(s0.after[0], meta.Tag(today))
    requires s1 == Stage(s0, true, Specimens(meta, today), specimens)
    requires s2 == Stage(s1, true, Conditions(isMiiCondition, inProfile, meta, today), conditions)
    ensures |s2.after| > 0 && s2.after[0] == s0.after[0]
    ensures forall k | 0 <= k < |s2.after| ::
              Rank(s2.after[k]) == (if k == 0 then 0 else if k < |s1.after| then 1 else 2)
              && Marked(meta, today, s2.after[k])
  {
    var g := Conditions(isMiiCondition, inProfile, meta, today);
    StageOrigin(s0, true, Specimens(meta, today), specimens);
    StageOrigin(s1, true, g, conditions);
    assert s1.after[0] == s1.after[..1][0] == s0.after[0];
    assert s2.after[0] == s2.after[..|s1.after|][0];
    forall k | 0 <= k < |s2.after|
      ensures Rank(s2.after[k]) == (if k == 0 then 0 else if k < |s1.after| then 1 else 2)
              && Marked(meta, today, s2.after[k])
    {
      if k < |s1.after| {
        assert s2.after[k] == s2.after[..|s1.after|][k] == s1.after[k];
        if k > 0 {
          var i :| 0 <= i < |specimens| && Specimens(meta, today)(specimens[i]) == Ok(Some(s1.after[k]));
          SpecimenOut(meta, today, specimens[i]);
        }
      } else {
        var i :| 0 <= i < |conditions| && g(conditions[i]) == Ok(Some(s2.after[k]));
        ConditionOut(isMiiCondition, inProfile, meta, today, conditions[i]);
      }
    }
  }

  /** Every resource a run exports is an untagged cause-of-death Observation or carries the
      run's provenance tag, whose code ends in "MII2BBMRI". */
  lemma RunTagged(cfg: Configuration, isMiiCondition: Condition -> bool, src: Source, today: string,
                  inProfile: ProfileTest, order: seq<JString>)
    ensures var code := Tagger(cfg).TagCode(today); code[|code| - |MappingName|..] == MappingName
    ensures var run := Transferred(cfg, isMiiCondition, src, today, inProfile, order);
            forall k, j | 0 <= k < |run.exports| && 0 <= j < |run.exports[k]| ::
              Marked(Tagger(cfg), today, run.exports[k][j])
  {
    var run := Transferred(cfg, isMiiCondition, src, today, inProfile, order);
    if IsBlank(cfg.sourceServer) == Ok(false) {
      var per := PerPatient(isMiiCondition, src, Tagger(cfg), today, inProfile);
      ExportingOrigin(per, order);
      forall k, j | 0 <= k < |run.exports| && 0 <= j < |run.exports[k]|
        ensures Marked(Tagger(cfg), today, run.exports[k][j])
      {
        var i :| 0 <= i < |order| && per(order[i]) == Emit(run.exports[k]);
        ExportedList(isMiiCondition, src, Tagger(cfg), today, inProfile, order[i]);
      }
    }
  }
}
