/** `Bbmri2Bbmri`: the pipeline that copies a bbmri.de store into another one. It exports
    the organizations and the organization affiliations, then, for each patient referenced
    by a specimen, the Patient with its specimens, observations and conditions, all as
    fetched: nothing is converted or tagged. */
module Bbmri2Bbmri {
  import opened Fhir
  import opened BundleWriter
  import opened Pipeline
  import PatientIds

  /** `setup()`: the source server must not be blank, and the export path or the target
      server must not be blank; each `isBlank` of a `null` entry throws, in the order the
      short-circuit operators reach it. */
  function Setup(cfg: Configuration): (r: Result<bool>)
    ensures r == Ok(true) <==>
              IsBlank(cfg.sourceServer) == Ok(false)
              && (IsBlank(cfg.fileExportPath) == Ok(false)
                  || (IsBlank(cfg.fileExportPath) == Ok(true) && IsBlank(cfg.targetServer) == Ok(false)))
    ensures r.Thrown? <==>
              cfg.sourceServer == None
              || (IsBlank(cfg.sourceServer) == Ok(false)
                  && (cfg.fileExportPath == None || (IsBlank(cfg.fileExportPath) == Ok(true) && cfg.targetServer == None)))
  {
    var blank := IsBlank(cfg.sourceServer);
    if blank.Thrown? then blank
    else if blank.value then Ok(false)
    else Or(Not(IsBlank(cfg.fileExportPath)), Not(IsBlank(cfg.targetServer)))
  }

  function Organizations(src: Source): seq<Resource>
  {
    seq(|src.organizations|, i requires 0 <= i < |src.organizations| => OrganizationResource(src.organizations[i]))
  }

  function Affiliations(src: Source): seq<Resource>
  {
    seq(|src.affiliations|, i requires 0 <= i < |src.affiliations| => AffiliationResource(src.affiliations[i]))
  }

  /** The list of one patient: its Patient, then `addAll` of its specimens, its
      observations and its conditions. */
  function PatientBundle(src: Source, pid: JString): seq<Resource>
  {
    var sp := src.patientSpecimens(pid);
    var obs := src.patientObservations(pid);
    var cs := src.patientConditions(pid);
    [PatientResource(src.patient(pid))]
    + seq(|sp|, i requires 0 <= i < |sp| => SpecimenResource(sp[i]))
    + seq(|obs|, i requires 0 <= i < |obs| => ObservationResource(obs[i]))
    + seq(|cs|, i requires 0 <= i < |cs| => ConditionResource(cs[i]))
  }

  function PerPatient(src: Source): JString -> PatientResult
  {
    pid => Emit(PatientBundle(src, pid))
  }

  /** `transfer()`: nothing when `setup()` fails; otherwise the organization list, the
      affiliation list and then one list per patient id, in the iteration order `order`. */
  function Transferred(cfg: Configuration, src: Source, order: seq<JString>): Run
  {
    var setup := Setup(cfg);
    if setup.Thrown? then Run(Aborted(setup.fault), [])
    else if !setup.value then Run(NotConfigured, [])
    else
      var loop := Looped(PerPatient(src), order);
      Run(loop.outcome, [Organizations(src), Affiliations(src)] + loop.exports)
  }

  /** `transfer()`, exporting to `sink`; the k-th bundle of the run gets the id `uuid(k)`. */
  method Transfer(cfg: Configuration, src: Source, order: seq<JString>, uuid: nat -> string, sink: Sink)
    returns (outcome: RunOutcome)
    requires PatientIds.IsOrderOf(order, PatientIds.Subjects(src.specimens))
    modifies sink
    ensures var run := Transferred(cfg, src, order);
            outcome == run.outcome && sink.exported == old(sink.exported) + Bundles(uuid, run.exports)
  {
    var setup := Setup(cfg);
    if setup.Thrown? {
      return Aborted(setup.fault);
    }
    if !setup.value {
      return NotConfigured;
    }
    var log: seq<seq<Resource>> := [];
    log := ExportBundle(sink, old(sink.exported), uuid, log, Organizations(src));
    log := ExportBundle(sink, old(sink.exported), uuid, log, Affiliations(src));
    assert log == [Organizations(src), Affiliations(src)];
    log := ExportPatients(src, order, uuid, sink, old(sink.exported), log);
    ExportingFinishes(PerPatient(src), order);
    assert Looped(PerPatient(src), order) == Run(Finished, Emitted(PerPatient(src), order));
    outcome := Finished;
  }

  /** The patient loop, after `log` was exported. */
  method ExportPatients(src: Source, order: seq<JString>, uuid: nat -> string, sink: Sink,
                        ghost before: seq<Bundle>, log0: seq<seq<Resource>>) returns (log: seq<seq<Resource>>)
    requires sink.exported == before + Bundles(uuid, log0)
    modifies sink
    ensures log == log0 + Emitted(PerPatient(src), order) && sink.exported == before + Bundles(uuid, log)
  {
    log := log0;
    for i := 0 to |order|
      invariant log == log0 + Emitted(PerPatient(src), order[..i])
      invariant sink.exported == before + Bundles(uuid, log)
    {
      var patientResources := PatientBundle(src, order[i]);
      assert Emitted(PerPatient(src), order[..i + 1]) == Emitted(PerPatient(src), order[..i]) + [patientResources] by {
        assert order[..i + 1][..i] == order[..i];
      }
      SnocAssoc(log0, Emitted(PerPatient(src), order[..i]), patientResources);
      log := ExportBundle(sink, before, uuid, log, patientResources);
    }
    Whole(order);
  }

  /** A run whose `setup()` fails or throws exports nothing and does not finish. */
  lemma UnconfiguredRun(cfg: Configuration, src: Source, order: seq<JString>)
    requires Setup(cfg) != Ok(true)
    ensures var run := Transferred(cfg, src, order); run.exports == [] && run.outcome != Finished
  {
  }

  /** Without exceptions the loop exports one list per patient id, in order. */
  lemma {:induction false} AllEmitted(src: Source, pids: seq<JString>)
    ensures |Emitted(PerPatient(src), pids)| == |pids|
    ensures forall i | 0 <= i < |pids| :: Emitted(PerPatient(src), pids)[i] == PatientBundle(src, pids[i])
    decreases |pids|
  {
    if pids != [] {
      var init := pids[..|pids| - 1];
      AllEmitted(src, init);
      assert forall i | 0 <= i < |init| :: init[i] == pids[i];
    }
  }

  /** A configured run finishes and exports 2 + (number of patient ids) lists: first the
      organizations, then the affiliations, then each patient's list. */
  lemma ConfiguredRun(cfg: Configuration, src: Source, order: seq<JString>)
    requires Setup(cfg) == Ok(true)
    requires PatientIds.IsOrderOf(order, PatientIds.Subjects(src.specimens))
    ensures var run := Transferred(cfg, src, order);
            run.outcome == Finished
            && |order| == |PatientIds.Subjects(src.specimens)| && |run.exports| == 2 + |order|
            && run.exports[0] == Organizations(src) && run.exports[1] == Affiliations(src)
            && forall i | 0 <= i < |order| :: run.exports[2 + i] == PatientBundle(src, order[i])
  {
    var per := PerPatient(src);
    ExportingFinishes(per, order);
    AllEmitted(src, order);
    PatientIds.OrderLength(order, PatientIds.Subjects(src.specimens));
  }

  /** The position of a resource kind in a patient's list. */
  function Rank(r: Resource): nat
  {
    match r
    case PatientResource(_) => 0
    case SpecimenResource(_) => 1
    case ObservationResource(_) => 2
    case ConditionResource(_) => 3
    case _ => 4
  }

  /** A patient's list is the Patient, its specimens, observations and conditions in that
      order, each exactly as fetched and without a tag added. */
  lemma PatientList(src: Source, pid: JString)
    ensures var rs := PatientBundle(src, pid);
            |rs| == 1 + |src.patientSpecimens(pid)| + |src.patientObservations(pid)| + |src.patientConditions(pid)|
            && rs[0] == PatientResource(src.patient(pid))
            && (forall i, j | 0 <= i < j < |rs| :: Rank(rs[i]) <= Rank(rs[j]))
            && (forall i | 0 <= i < |src.patientSpecimens(pid)| :: rs[1 + i] == SpecimenResource(src.patientSpecimens(pid)[i]))
  {
    var sp := src.patientSpecimens(pid);
    var obs := src.patientObservations(pid);
    var rs := PatientBundle(src, pid);
    var a := 1 + |sp|;
    var b := a + |obs|;
    assert forall k | 0 <= k < |rs| :: Rank(rs[k]) == (if k == 0 then 0 else if k < a then 1 else if k < b then 2 else 3);
  }
}
