/** `Bbmri2Mii`: the pipeline that reads bbmri.de resources patient by patient and exports
    them converted to the MII core data set, each tagged with the provenance tag
    "BBMRI2MII". The kinds of resource to convert come from the field `resources`, which
    nothing in the class assigns; `None` is that unassigned field. */
module Bbmri2Mii {
  import opened Fhir
  import opened BundleWriter
  import opened Pipeline
  import PatientIds
  import MetaMapping
  import CheckResources
  import PatientMapping
  import ConditionMapping
  import SpecimenMapping
  import CauseOfDeathMapping

  const MappingName := "BBMRI2MII"

  /** The tag writer `transfer()` builds from the application version. */
  function Tagger(cfg: Configuration): MetaMapping.MetaMapping
  {
    MetaMapping.MetaMapping(cfg.appVersion, Some(MappingName))
  }

  /** The Patient block: read as bbmri.de, emitted as MII, tagged. */
  function PatientToMii(meta: MetaMapping.MetaMapping, today: string, p: Patient): Result<Resource>
  {
    var out := PatientMapping.EmitMii(PatientMapping.CaptureBbmri(PatientMapping.Fresh, p)).result;
    if out.Thrown? then Thrown(out.fault) else Ok(meta.TagResource(PatientResource(out.value), today))
  }

  /** One pass of the Condition loop; `toMii` of a condition does not throw. */
  function ConditionToMii(meta: MetaMapping.MetaMapping, today: string, c: Condition): Result<Option<Resource>>
  {
    var out := ConditionMapping.EmitMii(ConditionMapping.CaptureBbmri(ConditionMapping.Fresh, c)).result;
    Ok(Some(meta.TagResource(ConditionResource(out.value), today)))
  }

  function Conditions(meta: MetaMapping.MetaMapping, today: string): Condition -> Result<Option<Resource>>
  {
    c => ConditionToMii(meta, today, c)
  }

  /** One pass of the Specimen loop; `toMii` throws when the subject cannot be resolved. */
  function SpecimenToMii(meta: MetaMapping.MetaMapping, today: string, sp: Specimen): Result<Option<Resource>>
  {
    var out := SpecimenMapping.EmitMii(SpecimenMapping.CaptureBbmri(SpecimenMapping.Fresh, sp)).result;
    if out.Thrown? then Thrown(out.fault) else Ok(Some(meta.TagResource(SpecimenResource(out.value), today)))
  }

  function Specimens(meta: MetaMapping.MetaMapping, today: string): Specimen -> Result<Option<Resource>>
  {
    sp => SpecimenToMii(meta, today, sp)
  }

  /** One pass of the Observation loop: a cause of death is read into a mapping, which may
      throw, but it is converted only for the bbmri.de target format, and this pipeline's
      target format is MII; so the loop adds nothing, and only its exceptions matter. */
  function ObservationToMii(inProfile: ProfileTest, o: Observation): Result<Option<Resource>>
  {
    var isCause := CheckResources.CheckBbmriCauseOfDeath(o);
    if isCause.Thrown? then Thrown(isCause.fault)
    else if !isCause.value then Ok(None)
    else
      var cap := CauseOfDeathMapping.CaptureBbmri(CauseOfDeathMapping.Fresh, o, inProfile);
      if cap.result.Thrown? then Thrown(cap.result.fault) else Ok(None)
  }

  function Observations(inProfile: ProfileTest): Observation -> Result<Option<Resource>>
  {
    o => ObservationToMii(inProfile, o)
  }

  /** The body of the patient loop: with the kinds `resources` holds, the tagged Patient
      (or `continue` when its conversion throws), then the conditions, the specimens and
      the observations; `resources.contains` on the unassigned field throws. */
  function PatientResources(resources: Option<seq<string>>, src: Source, meta: MetaMapping.MetaMapping,
                            today: string, inProfile: ProfileTest, pid: JString): PatientResult
  {
    if resources == None then Fail(NullPointer)
    else
      var rs := resources.value;
      var patient := PatientToMii(meta, today, src.patient(pid));
      if "Patient" in rs && patient.Thrown? then Skip
      else
        var s0 := Step(Ok(()), if "Patient" in rs then [patient.value] else []);
        var s1 := Stage(s0, "Condition" in rs, Conditions(meta, today), src.patientConditions(pid));
        var s2 := Stage(s1, "Specimen" in rs, Specimens(meta, today), src.patientSpecimens(pid));
        Finish(Stage(s2, "Observation" in rs, Observations(inProfile), src.patientObservations(pid)))
  }

  function PerPatient(resources: Option<seq<string>>, src: Source, meta: MetaMapping.MetaMapping,
                      today: string, inProfile: ProfileTest): JString -> PatientResult
  {
    pid => PatientResources(resources, src, meta, today, inProfile, pid)
  }

  /** `transfer()`: nothing happens when the source server is blank (`setup()` fails);
      otherwise every patient id, in the iteration order `order`, goes through the loop. */
  function Transferred(cfg: Configuration, resources: Option<seq<string>>, src: Source, today: string,
                       inProfile: ProfileTest, order: seq<JString>): Run
  {
    var setup := Not(IsBlank(cfg.sourceServer));
    if setup.Thrown? then Run(Aborted(setup.fault), [])
    else if !setup.value then Run(NotConfigured, [])
    else Looped(PerPatient(resources, src, Tagger(cfg), today, inProfile), order)
  }

  /** A blank source server ends `transfer()` before anything is fetched or exported. */
  lemma BlankSourceExportsNothing(cfg: Configuration, resources: Option<seq<string>>, src: Source, today: string,
                                  inProfile: ProfileTest, order: seq<JString>)
    requires IsBlank(cfg.sourceServer) == Ok(true)
    ensures Transferred(cfg, resources, src, today, inProfile, order) == Run(NotConfigured, [])
  {
  }

  /** The Condition loop. */
  method ConvertConditions(meta: MetaMapping.MetaMapping, today: string, acc: seq<Resource>,
                           conditions: seq<Condition>) returns (res: seq<Resource>)
    ensures Scan(Appending(Conditions(meta, today)), acc, conditions) == Step(Ok(()), res)
  {
    res := acc;
    for i := 0 to |conditions|
      invariant Scan(Appending(Conditions(meta, today)), acc, conditions[..i]) == Step(Ok(()), res)
    {
      var mapping := new ConditionMapping.ConditionMapping();
      mapping.FromBbmri(conditions[i]);
      var out := mapping.ToMii();
      ScanNextOk(Appending(Conditions(meta, today)), acc, conditions, i, res);
      res := res + [meta.TagResource(ConditionResource(out.value), today)];
    }
    Whole(conditions);
  }

  /** The Specimen loop; an exception leaves it, and the list, where it is. */
  method ConvertSpecimens(meta: MetaMapping.MetaMapping, today: string, acc: seq<Resource>,
                          specimens: seq<Specimen>) returns (s: Step<seq<Resource>, ()>)
    ensures s == Scan(Appending(Specimens(meta, today)), acc, specimens)
  {
    s := Step(Ok(()), acc);
    for i := 0 to |specimens|
      invariant s == Scan(Appending(Specimens(meta, today)), acc, specimens[..i]) && s.result.Ok?
    {
      var y := ConvertSpecimen(meta, today, specimens[i]);
      AppendingNext(Specimens(meta, today), acc, specimens, i, s.after, y);
      if y.Thrown? {
        return Step(Thrown(y.fault), s.after);
      }
      s := Step(Ok(()), s.after + Opt(y.value));
    }
    Whole(specimens);
  }

  /** The body of the Specimen loop for one specimen. */
  method ConvertSpecimen(meta: MetaMapping.MetaMapping, today: string, sp: Specimen) returns (y: Result<Option<Resource>>)
    ensures y == SpecimenToMii(meta, today, sp)
  {
    var mapping := new SpecimenMapping.SpecimenMapping();
    mapping.FromBbmri(sp);
    var out := mapping.ToMii();
    if out.Thrown? {
      return Thrown(out.fault);
    }
    y := Ok(Some(meta.TagResource(SpecimenResource(out.value), today)));
  }

  /** The Observation loop. */
  method CheckObservations(inProfile: ProfileTest, acc: seq<Resource>, observations: seq<Observation>)
    returns (s: Step<seq<Resource>, ()>)
    ensures s == Scan(Appending(Observations(inProfile)), acc, observations)
  {
    s := Step(Ok(()), acc);
    for i := 0 to |observations|
      invariant s == Scan(Appending(Observations(inProfile)), acc, observations[..i]) && s.result.Ok?
    {
      var o := observations[i];
      ScanNextOk(Appending(Observations(inProfile)), acc, observations, i, s.after);
      var isCause := CheckResources.CheckBbmriCauseOfDeath(o);
      if isCause.Thrown? {
        ScanStop(Appending(Observations(inProfile)), acc, observations, i);
        return Step(Thrown(isCause.fault), s.after);
      }
      if isCause.value {
        var mapping := new CauseOfDeathMapping.CauseOfDeathMapping();
        var r := mapping.FromBbmri(o, inProfile);
        if r.Thrown? {
          ScanStop(Appending(Observations(inProfile)), acc, observations, i);
          return Step(Thrown(r.fault), s.after);
        }
      }
      assert s.after + [] == s.after;
    }
    Whole(observations);
  }

  /** The loop body for one patient id. */
  method CollectPatient(resources: Option<seq<string>>, src: Source, meta: MetaMapping.MetaMapping,
                        today: string, inProfile: ProfileTest, pid: JString) returns (r: PatientResult)
    ensures r == PatientResources(resources, src, meta, today, inProfile, pid)
  {
    if resources == None {
      return Fail(NullPointer);
    }
    var rs := resources.value;
    var list: seq<Resource> := [];
    if "Patient" in rs {
      var ap := new PatientMapping.PatientMapping();
      ap.FromBbmri(src.patient(pid));
      var out := ap.ToMii();
      if out.Thrown? {
        return Skip;
      }
      list := [meta.TagResource(PatientResource(out.value), today)];
    }
    var s := Step(Ok(()), list);
    if "Condition" in rs {
      var res := ConvertConditions(meta, today, list, src.patientConditions(pid));
      s := Step(Ok(()), res);
    }
    if s.result.Ok? && "Specimen" in rs {
      s := ConvertSpecimens(meta, today, s.after, src.patientSpecimens(pid));
    }
    if s.result.Ok? && "Observation" in rs {
      s := CheckObservations(inProfile, s.after, src.patientObservations(pid));
    }
    r := Finish(s);
  }

  /** `transfer()`, exporting to `sink`; the k-th bundle of the run gets the id `uuid(k)`. */
  method Transfer(cfg: Configuration, resources: Option<seq<string>>, src: Source, startResource: JString,
                  order: seq<JString>, today: string, inProfile: ProfileTest, uuid: nat -> string, sink: Sink)
    returns (outcome: RunOutcome)
    requires PatientIds.IsOrderOf(order, PatientIds.PatientIdSet(startResource, src.specimens, src.patients))
    modifies sink
    ensures var run := Transferred(cfg, resources, src, today, inProfile, order);
            outcome == run.outcome && sink.exported == old(sink.exported) + Bundles(uuid, run.exports)
  {
    var setup := Not(IsBlank(cfg.sourceServer));
    if setup.Thrown? {
      return Aborted(setup.fault);
    }
    if !setup.value {
      return NotConfigured;
    }
    var meta := Tagger(cfg);
    ghost var per := PerPatient(resources, src, meta, today, inProfile);
    var log: seq<seq<Resource>> := [];
    for i := 0 to |order|
      invariant Scan(Exporting(per), [], order[..i]) == Step(Ok(()), log)
      invariant sink.exported == old(sink.exported) + Bundles(uuid, log)
    {
      var r := CollectPatient(resources, src, meta, today, inProfile, order[i]);
      ScanNextOk(Exporting(per), [], order, i, log);
      match r {
        case Skip =>
        case Emit(rs) =>
          log := ExportBundle(sink, old(sink.exported), uuid, log, rs);
        case Fail(f) =>
          ScanStop(Exporting(per), [], order, i);
          return Aborted(f);
      }
    }
    Whole(order);
    outcome := Finished;
  }

  /** As the class ships, with `resources` never assigned: a configured run with at least
      one patient throws at the first patient and exports nothing. */
  lemma AsShipped(cfg: Configuration, src: Source, today: string, inProfile: ProfileTest, order: seq<JString>)
    requires IsBlank(cfg.sourceServer) == Ok(false) && |order| > 0
    ensures Transferred(cfg, None, src, today, inProfile, order) == Run(Aborted(NullPointer), [])
  {
    ExportingAborts(PerPatient(None, src, Tagger(cfg), today, inProfile), order, 0);
  }

  /** A patient is skipped iff Patients are converted and its Patient has no id. */
  lemma SkippedPatients(rs: seq<string>, src: Source, meta: MetaMapping.MetaMapping, today: string,
                        inProfile: ProfileTest, pid: JString)
    ensures PatientResources(Some(rs), src, meta, today, inProfile, pid) == Skip
            <==> "Patient" in rs && src.patient(pid).id == None
  {
    var rec := PatientMapping.CaptureBbmri(PatientMapping.Fresh, src.patient(pid));
    assert rec.miiId == Some("");
  }

  /** The position of a resource kind in a patient's list. */
  function Rank(r: Resource): nat
  {
    if r.TypeName() == "Patient" then 0
    else if r.TypeName() == "Condition" then 1
    else if r.TypeName() == "Specimen" then 2
    else 3
  }

  /** An exported list holds the Patient first, then conditions, then specimens, each
      tagged with the run's provenance tag, and no observations. */
  lemma ExportedList(resources: Option<seq<string>>, src: Source, meta: MetaMapping.MetaMapping, today: string,
                     inProfile: ProfileTest, pid: JString)
    ensures var r := PatientResources(resources, src, meta, today, inProfile, pid);
            r.Emit? ==>
              (forall k | 0 <= k < |r.resources| :: Rank(r.resources[k]) < 3 && Tagged(r.resources[k], meta.Tag(today)))
              && (forall i, j | 0 <= i < j < |r.resources| :: Rank(r.resources[i]) <= Rank(r.resources[j]))
  {
    var r := PatientResources(resources, src, meta, today, inProfile, pid);
    if r.Emit? {
      var rs := resources.value;
      var patient := PatientToMii(meta, today, src.patient(pid));
      var s0 := Step(Ok(()), if "Patient" in rs then [patient.value] else []);
      var s1 := Stage(s0, "Condition" in rs, Conditions(meta, today), src.patientConditions(pid));
      var s2 := Stage(s1, "Specimen" in rs, Specimens(meta, today), src.patientSpecimens(pid));
      RanksOf(meta, today, s0, s1, s2, "Condition" in rs, "Specimen" in rs, src.patientConditions(pid),
              src.patientSpecimens(pid));
      var obs := src.patientObservations(pid);
      if s2.result.Ok? && "Observation" in rs {
        forall i | 0 <= i < |obs|
          ensures Observations(inProfile)(obs[i]).Thrown? || Observations(inProfile)(obs[i]) == Ok(None)
        {
        }
        AppendingNothing(Observations(inProfile), s2.after, obs);
      }
      assert r.resources == s2.after;
    }
  }

  /** A converted condition is a tagged Condition. */
  lemma ConditionOut(meta: MetaMapping.MetaMapping, today: string, c: Condition)
    ensures var y := ConditionToMii(meta, today, c);
            y.Ok? && y.value.Some? && Rank(y.value.value) == 1 && Tagged(y.value.value, meta.Tag(today))
  {
  }

  /** A converted specimen is a tagged Specimen. */
  lemma SpecimenOut(meta: MetaMapping.MetaMapping, today: string, sp: Specimen)
    ensures var y := SpecimenToMii(meta, today, sp);
            y.Ok? ==> y.value.Some? && Rank(y.value.value) == 2 && Tagged(y.value.value, meta.Tag(today))
  {
  }

  /** The list before the Observation loop, region by region. */
  lemma RanksOf(meta: MetaMapping.MetaMapping, today: string, s0: Step<seq<Resource>, ()>,
                s1: Step<seq<Resource>, ()>, s2: Step<seq<Resource>, ()>, withConditions: bool,
                withSpecimens: bool, conditions: seq<Condition>, specimens: seq<Specimen>)
    requires |s0.after| <= 1 && forall k | 0 <= k < |s0.after| :: Rank(s0.after[k]) == 0 && Tagged(s0.after[k], meta.Tag(today))
    requires s1 == Stage(s0, withConditions, Conditions(meta, today), conditions)
    requires s2 == Stage(s1, withSpecimens, Specimens(meta, today), specimens)
    ensures forall k | 0 <= k < |s2.after| ::
              Rank(s2.after[k]) == (if k < |s0.after| then 0 else if k < |s1.after| then 1 else 2)
              && Tagged(s2.after[k], meta.Tag(today))
  {
    StageOrigin(s0, withConditions, Conditions(meta, today), conditions);
    StageOrigin(s1, withSpecimens, Specimens(meta, today), specimens);
    forall k | 0 <= k < |s2.after|
      ensures Rank(s2.after[k]) == (if k < |s0.after| then 0 else if k < |s1.after| then 1 else 2)
              && Tagged(s2.after[k], meta.Tag(today))
    {
      if k < |s1.after| {
        assert s2.after[k] == s2.after[..|s1.after|][k] == s1.after[k];
        if k < |s0.after| {
          assert s1.after[k] == s1.after[..|s0.after|][k] == s0.after[k];
        } else {
          var i :| 0 <= i < |conditions| && Conditions(meta, today)(conditions[i]) == Ok(Some(s1.after[k]));
          ConditionOut(meta, today, conditions[i]);
        }
      } else {
        var i :| 0 <= i < |specimens| && Specimens(meta, today)(specimens[i]) == Ok(Some(s2.after[k]));
        SpecimenOut(meta, today, specimens[i]);
      }
    }
  }

  /** Every resource a run exports carries the run's provenance tag, whose code ends in
      "BBMRI2MII", and none is an Observation. */
  lemma RunTagged(cfg: Configuration, resources: Option<seq<string>>, src: Source, today: string,
                  inProfile: ProfileTest, order: seq<JString>)
    ensures var code := Tagger(cfg).TagCode(today); code[|code| - |MappingName|..] == MappingName
    ensures var run := Transferred(cfg, resources, src, today, inProfile, order);
            forall k, j | 0 <= k < |run.exports| && 0 <= j < |run.exports[k]| ::
              Tagged(run.exports[k][j], Tagger(cfg).Tag(today)) && run.exports[k][j].TypeName() != "Observation"
  {
    var run := Transferred(cfg, resources, src, today, inProfile, order);
    var setup := Not(IsBlank(cfg.sourceServer));
    if setup == Ok(true) {
      var per := PerPatient(resources, src, Tagger(cfg), today, inProfile);
      ExportingOrigin(per, order);
      forall k, j | 0 <= k < |run.exports| && 0 <= j < |run.exports[k]|
        ensures Tagged(run.exports[k][j], Tagger(cfg).Tag(today)) && run.exports[k][j].TypeName() != "Observation"
      {
        var i :| 0 <= i < |order| && per(order[i]) == Emit(run.exports[k]);
        ExportedList(resources, src, Tagger(cfg), today, inProfile, order[i]);
      }
    }
  }
}
