/** What the three transfer pipelines share: the configuration they read, the resources
    the source server returns (the HTTP fetchers are left out; their results are inputs),
    the export sink, and the shape of the per-patient loop. Each pipeline collects a
    patient's resources, exports them as one transaction bundle, and goes on with the
    next patient; a patient may be skipped, and an exception nobody catches ends the run. */
module Pipeline {
  import opened Fhir
  import opened BundleWriter

  /** The `Configuration` values the pipelines read; `null` is `None`. */
  datatype Configuration = Configuration(appVersion: JString, sourceServer: JString, targetServer: JString,
                                         fileExportPath: JString)

  /** The source server as the fetchers see it: all specimens and patients (for the id
      sets), the organizations and affiliations, and per patient id the Patient, its
      specimens, conditions and observations. */
  datatype Source = Source(specimens: seq<Specimen>, patients: seq<Patient>, organizations: seq<Organization>,
                           affiliations: seq<OrganizationAffiliation>, patient: JString -> Patient,
                           patientSpecimens: JString -> seq<Specimen>,
                           patientConditions: JString -> seq<Condition>,
                           patientObservations: JString -> seq<Observation>)

  /** `FhirExportInterface`: the file or server the bundles go to; it records them in order. */
  class Sink {
    var exported: seq<Bundle>

    constructor ()
      ensures exported == []
    {
      exported := [];
    }

    /** `export(bundle)` */
    method Export(b: Bundle)
      modifies this
      ensures exported == old(exported) + [b]
    {
      exported := exported + [b];
    }
  }

  /** What the loop body does for one patient: `continue` without exporting, export these
      resources, or throw. */
  datatype PatientResult = Skip | Emit(resources: seq<Resource>) | Fail(fault: Fault)

  /** How `transfer()` ends: normally, by returning early because `setup()` failed, by
      `System.exit`, or by an exception it does not catch. */
  datatype RunOutcome = Finished | NotConfigured | Exit(code: int) | Aborted(fault: Fault)

  /** A run: how it ended, and the resource lists it exported, in order. */
  datatype Run = Run(outcome: RunOutcome, exports: seq<seq<Resource>>)

  function Opt(o: Option<Resource>): seq<Resource>
  {
    if o.Some? then [o.value] else []
  }

  /** The body of a loop over fetched resources of one kind: convert the resource (which
      may throw) and add the result to the patient's list unless it is `null`. */
  function Appending<X>(g: X -> Result<Option<Resource>>): (seq<Resource>, X) -> Step<seq<Resource>, ()>
  {
    (acc: seq<Resource>, x: X) =>
      var y := g(x);
      if y.Thrown? then Step(Thrown(y.fault), acc) else Step(Ok(()), acc + Opt(y.value))
  }

  /** The pass over `xs[i]`, whose conversion gives `y`, after the passes before it built
      `cur`; when `y` is an exception the loop ends there. */
  lemma AppendingNext<X>(g: X -> Result<Option<Resource>>, acc: seq<Resource>, xs: seq<X>, i: nat,
                         cur: seq<Resource>, y: Result<Option<Resource>>)
    requires i < |xs| && Scan(Appending(g), acc, xs[..i]) == Step(Ok(()), cur) && g(xs[i]) == y
    ensures y.Ok? ==> Scan(Appending(g), acc, xs[..i + 1]) == Step(Ok(()), cur + Opt(y.value))
    ensures y.Thrown? ==> Scan(Appending(g), acc, xs) == Step(Thrown(y.fault), cur)
  {
    ScanNextOk(Appending(g), acc, xs, i, cur);
    if y.Thrown? {
      ScanStop(Appending(g), acc, xs, i);
    }
  }

  /** Such a loop keeps what the list held and adds only converted resources. */
  lemma {:induction false} AppendingOrigin<X>(g: X -> Result<Option<Resource>>, acc: seq<Resource>, xs: seq<X>)
    ensures var s := Scan(Appending(g), acc, xs);
            |acc| <= |s.after| && s.after[..|acc|] == acc
            && forall k | |acc| <= k < |s.after| :: exists i | 0 <= i < |xs| :: g(xs[i]) == Ok(Some(s.after[k]))
    decreases |xs|
  {
    if xs != [] {
      var init := xs[..|xs| - 1];
      var x := xs[|xs| - 1];
      AppendingOrigin(g, acc, init);
      var s := Scan(Appending(g), acc, init);
      if s.result.Ok? {
        var t := Scan(Appending(g), acc, xs);
        assert t == Appending(g)(s.after, x);
        forall k | |acc| <= k < |t.after|
          ensures exists i | 0 <= i < |xs| :: g(xs[i]) == Ok(Some(t.after[k]))
        {
          if k < |s.after| {
            var i :| 0 <= i < |init| && g(init[i]) == Ok(Some(s.after[k]));
            assert xs[i] == init[i];
          } else {
            assert g(xs[|xs| - 1]) == Ok(Some(t.after[k]));
          }
        }
      }
    }
  }

  /** A loop that converts every resource to one non-`null` resource neither throws nor
      drops any: the list grows by exactly the converted resources, in order. */
  lemma {:induction false} AppendingTotal<X>(g: X -> Result<Option<Resource>>, acc: seq<Resource>, xs: seq<X>)
    requires forall i | 0 <= i < |xs| :: g(xs[i]).Ok? && g(xs[i]).value.Some?
    ensures var s := Scan(Appending(g), acc, xs);
            s.result.Ok? && |s.after| == |acc| + |xs| && s.after[..|acc|] == acc
            && forall i | 0 <= i < |xs| :: g(xs[i]) == Ok(Some(s.after[|acc| + i]))
    decreases |xs|
  {
    if xs != [] {
      var init := xs[..|xs| - 1];
      AppendingTotal(g, acc, init);
      var s := Scan(Appending(g), acc, init);
      assert Scan(Appending(g), acc, xs) == Appending(g)(s.after, xs[|xs| - 1]);
      assert forall i | 0 <= i < |init| :: init[i] == xs[i];
    }
  }

  /** A loop whose conversions all throw or give `null` adds nothing. */
  lemma {:induction false} AppendingNothing<X>(g: X -> Result<Option<Resource>>, acc: seq<Resource>, xs: seq<X>)
    requires forall i | 0 <= i < |xs| :: g(xs[i]).Thrown? || g(xs[i]) == Ok(None)
    ensures Scan(Appending(g), acc, xs).after == acc
    decreases |xs|
  {
    if xs != [] {
      var init := xs[..|xs| - 1];
      assert forall i | 0 <= i < |init| :: init[i] == xs[i];
      AppendingNothing(g, acc, init);
      var s := Scan(Appending(g), acc, init);
      assert Scan(Appending(g), acc, xs) == if s.result.Thrown? then s else Appending(g)(s.after, xs[|xs| - 1]);
      assert acc + [] == acc;
    }
  }

  /** One `if (enabled) for (...)` block of the loop body: skipped when disabled or when an
      earlier block has thrown. */
  function Stage<X>(s: Step<seq<Resource>, ()>, enabled: bool, g: X -> Result<Option<Resource>>, xs: seq<X>)
    : Step<seq<Resource>, ()>
  {
    if s.result.Thrown? || !enabled then s else Scan(Appending(g), s.after, xs)
  }

  /** A block keeps the list it starts from and adds only converted resources. */
  lemma StageOrigin<X>(s: Step<seq<Resource>, ()>, enabled: bool, g: X -> Result<Option<Resource>>, xs: seq<X>)
    ensures var t := Stage(s, enabled, g, xs);
            (t.result.Ok? ==> s.result.Ok?) && |s.after| <= |t.after| && t.after[..|s.after|] == s.after
            && forall k | |s.after| <= k < |t.after| :: exists i | 0 <= i < |xs| :: g(xs[i]) == Ok(Some(t.after[k]))
  {
    if !(s.result.Thrown? || !enabled) {
      AppendingOrigin(g, s.after, xs);
    }
  }

  /** The last tag of the resource's meta is `tag`. */
  predicate Tagged(r: Resource, tag: Coding)
  {
    |r.GetMeta().tag| > 0 && r.GetMeta().tag[|r.GetMeta().tag| - 1] == tag
  }

  /** The end of the loop body: export the list, unless a block threw. */
  function Finish(s: Step<seq<Resource>, ()>): PatientResult
  {
    if s.result.Thrown? then Fail(s.result.fault) else Emit(s.after)
  }

  /** The per-patient loop's body, for the patient results `per`: the list of exported
      resource lists grows by the patient's list unless the patient is skipped. */
  function Exporting(per: JString -> PatientResult): (seq<seq<Resource>>, JString) -> Step<seq<seq<Resource>>, ()>
  {
    (log: seq<seq<Resource>>, pid: JString) =>
      match per(pid)
      case Skip => Step(Ok(()), log)
      case Emit(rs) => Step(Ok(()), log + [rs])
      case Fail(f) => Step(Thrown(f), log)
  }

  /** The lists of the patients that are not skipped, in order. */
  function Emitted(per: JString -> PatientResult, pids: seq<JString>): seq<seq<Resource>>
    decreases |pids|
  {
    if pids == [] then []
    else
      var last := per(pids[|pids| - 1]);
      Emitted(per, pids[..|pids| - 1]) + (if last.Emit? then [last.resources] else [])
  }

  /** The indices of the patients that are not skipped. */
  ghost function Emitting(per: JString -> PatientResult, pids: seq<JString>): set<nat>
  {
    set i: nat | i < |pids| && per(pids[i]).Emit?
  }

  /** Exactly one export per patient that is not skipped, each being that patient's list. */
  lemma {:induction false} EmittedCount(per: JString -> PatientResult, pids: seq<JString>)
    ensures |Emitted(per, pids)| == |Emitting(per, pids)|
    ensures forall k | 0 <= k < |Emitted(per, pids)| ::
              exists i | 0 <= i < |pids| :: per(pids[i]) == Emit(Emitted(per, pids)[k])
    decreases |pids|
  {
    if pids != [] {
      var n := |pids| - 1;
      var init := pids[..n];
      EmittedCount(per, init);
      assert forall i | 0 <= i < n :: init[i] == pids[i];
      if per(pids[n]).Emit? {
        assert Emitting(per, pids) == Emitting(per, init) + {n};
      } else {
        assert Emitting(per, pids) == Emitting(per, init);
      }
    } else {
      assert Emitting(per, pids) == {};
    }
  }

  /** The per-patient loop finishes iff no patient throws, and then exports exactly the
      lists of the patients that are not skipped. */
  lemma {:induction false} ExportingFinishes(per: JString -> PatientResult, pids: seq<JString>)
    ensures var s := Scan(Exporting(per), [], pids);
            (s.result.Ok? <==> forall i | 0 <= i < |pids| :: !per(pids[i]).Fail?)
            && (s.result.Ok? ==> s.after == Emitted(per, pids))
    decreases |pids|
  {
    if pids != [] {
      var n := |pids| - 1;
      var init := pids[..n];
      ExportingFinishes(per, init);
      assert forall i | 0 <= i < n :: init[i] == pids[i];
      var s := Scan(Exporting(per), [], init);
      assert Scan(Exporting(per), [], pids) == if s.result.Thrown? then s else Exporting(per)(s.after, pids[n]);
    }
  }

  /** However the loop ends, each list it exported is the list of one of the patients. */
  lemma {:induction false} ExportingOrigin(per: JString -> PatientResult, pids: seq<JString>)
    ensures forall k | 0 <= k < |Scan(Exporting(per), [], pids).after| ::
              exists i | 0 <= i < |pids| :: per(pids[i]) == Emit(Scan(Exporting(per), [], pids).after[k])
    decreases |pids|
  {
    if pids != [] {
      var n := |pids| - 1;
      var init := pids[..n];
      var s := Scan(Exporting(per), [], init);
      var t := Scan(Exporting(per), [], pids);
      ExportingOrigin(per, init);
      assert forall k | 0 <= k < |s.after| :: exists i | 0 <= i < |init| :: per(init[i]) == Emit(s.after[k]);
      assert t == if s.result.Thrown? then s else Exporting(per)(s.after, pids[n]);
      forall k | 0 <= k < |t.after|
        ensures exists i | 0 <= i < |pids| :: per(pids[i]) == Emit(t.after[k])
      {
        if k < |s.after| {
          var i :| 0 <= i < |init| && per(init[i]) == Emit(s.after[k]);
          assert pids[i] == init[i] && t.after[k] == s.after[k];
        } else {
          assert per(pids[n]) == Emit(t.after[k]);
        }
      }
    } else {
      assert Scan(Exporting(per), [], pids).after == [];
    }
  }

  /** A patient that throws ends the loop: the exports are those of the patients before it. */
  lemma {:induction false} ExportingAborts(per: JString -> PatientResult, pids: seq<JString>, i: nat)
    requires i < |pids| && per(pids[i]).Fail?
    requires forall j | 0 <= j < i :: !per(pids[j]).Fail?
    ensures Scan(Exporting(per), [], pids) == Step(Thrown(per(pids[i]).fault), Emitted(per, pids[..i]))
  {
    ExportingFinishes(per, pids[..i]);
    assert forall j | 0 <= j < i :: pids[..i][j] == pids[j];
    ScanSnoc(Exporting(per), [], pids[..i], pids[i]);
    assert pids[..i + 1] == pids[..i] + [pids[i]];
    ScanStop(Exporting(per), [], pids, i);
  }

  /** The patient loop of a run that got past `setup()`. */
  function Looped(per: JString -> PatientResult, pids: seq<JString>): Run
  {
    var s := Scan(Exporting(per), [], pids);
    Run(if s.result.Thrown? then Aborted(s.result.fault) else Finished, s.after)
  }

  /** The bundles built from the exported lists; the bundle built `k`-th in the run gets
      the random id `uuid(k)`. */
  function Bundles(uuid: nat -> string, lists: seq<seq<Resource>>): seq<Bundle>
  {
    seq(|lists|, k requires 0 <= k < |lists| => BundleOf(uuid(k), lists[k]))
  }

  /** Exporting one more list. */
  lemma BundlesSnoc(uuid: nat -> string, lists: seq<seq<Resource>>, rs: seq<Resource>)
    ensures Bundles(uuid, lists + [rs]) == Bundles(uuid, lists) + [BundleOf(uuid(|lists|), rs)]
  {
    var ext := lists + [rs];
    assert forall k | 0 <= k < |lists| :: ext[k] == lists[k];
    assert ext[|lists|] == rs;
  }

  /** `export(buildResources(rs))`: the next bundle of the run, with the next random id,
      goes to the sink; `log` lists what the run exported before. */
  method ExportBundle(sink: Sink, ghost before: seq<Bundle>, uuid: nat -> string, log: seq<seq<Resource>>,
                      rs: seq<Resource>) returns (next: seq<seq<Resource>>)
    requires sink.exported == before + Bundles(uuid, log)
    modifies sink
    ensures next == log + [rs] && sink.exported == before + Bundles(uuid, next)
  {
    var bundle := BuildResources(rs, uuid(|log|));
    BundlesSnoc(uuid, log, rs);
    SnocAssoc(before, Bundles(uuid, log), bundle);
    sink.Export(bundle);
    next := log + [rs];
  }

  lemma SnocAssoc<T>(a: seq<T>, b: seq<T>, x: T)
    ensures a + b + [x] == a + (b + [x])
  {
  }
}
