/** `FhirPatientIdReader` (and the same methods in `FhirTransfer`): the sets of patient
    references, specimen ids and patient ids of fetched resources. The fetched lists are
    parameters; a `HashSet<String>` may hold `null`, so the sets are of `JString`. */
module PatientIds {
  import opened Fhir

  /** The subject references of the specimens. */
  ghost function Subjects(specimens: seq<Specimen>): set<JString>
  {
    set i | 0 <= i < |specimens| :: specimens[i].subject
  }

  /** The ids of the patients. */
  ghost function Ids(patients: seq<Patient>): set<JString>
  {
    set i | 0 <= i < |patients| :: patients[i].id
  }

  /** The patient ids the pipelines iterate over: the specimen subjects when the start
      resource is "Specimen" (a null-safe comparison), the patient ids otherwise. */
  ghost function PatientIdSet(startResource: JString, specimens: seq<Specimen>, patients: seq<Patient>): set<JString>
  {
    if startResource == Some("Specimen") then Subjects(specimens) else Ids(patients)
  }

  /** `getSpecimenPatients`: every specimen's subject reference, duplicates collapsed. */
  method SpecimenPatients(specimens: seq<Specimen>) returns (refs: set<JString>)
    ensures refs == Subjects(specimens)
    ensures |refs| <= |specimens|
  {
    refs := {};
    for i := 0 to |specimens|
      invariant refs == Subjects(specimens[..i])
      invariant |refs| <= i
    {
      assert Subjects(specimens[..i + 1]) == Subjects(specimens[..i]) + {specimens[i].subject} by {
        assert specimens[..i + 1] == specimens[..i] + [specimens[i]];
      }
      refs := refs + {specimens[i].subject};
    }
    assert specimens[..|specimens|] == specimens;
  }

  /** `getSpecimenIds` (in `FhirTransfer` only): every specimen's id. */
  method SpecimenIds(specimens: seq<Specimen>) returns (ids: set<JString>)
    ensures ids == set i | 0 <= i < |specimens| :: specimens[i].id
    ensures |ids| <= |specimens|
  {
    ids := {};
    for i := 0 to |specimens|
      invariant ids == set j | 0 <= j < i :: specimens[j].id
      invariant |ids| <= i
    {
      assert (set j | 0 <= j < i + 1 :: specimens[j].id) == (set j | 0 <= j < i :: specimens[j].id) + {specimens[i].id};
      ids := ids + {specimens[i].id};
    }
  }

  /** `getPatientRefs`: every patient's id value. */
  method PatientRefs(patients: seq<Patient>) returns (refs: set<JString>)
    ensures refs == Ids(patients)
    ensures |refs| <= |patients|
  {
    refs := {};
    for i := 0 to |patients|
      invariant refs == Ids(patients[..i])
      invariant |refs| <= i
    {
      assert Ids(patients[..i + 1]) == Ids(patients[..i]) + {patients[i].id} by {
        assert patients[..i + 1] == patients[..i] + [patients[i]];
      }
      refs := refs + {patients[i].id};
    }
    assert patients[..|patients|] == patients;
  }

  /** `fetchPatientIds`: dispatch on the start resource. */
  method FetchPatientIds(startResource: JString, specimens: seq<Specimen>, patients: seq<Patient>)
    returns (ids: set<JString>)
    ensures ids == PatientIdSet(startResource, specimens, patients)
    ensures startResource == Some("Specimen") ==> |ids| <= |specimens|
    ensures startResource != Some("Specimen") ==> |ids| <= |patients|
  {
    if startResource == Some("Specimen") {
      ids := SpecimenPatients(specimens);
    } else {
      ids := PatientRefs(patients);
    }
  }

  /** `order` lists each element of `ids` exactly once: an iteration order of the set. */
  ghost predicate IsOrderOf(order: seq<JString>, ids: set<JString>)
  {
    (forall i, j | 0 <= i < j < |order| :: order[i] != order[j])
    && (forall i | 0 <= i < |order| :: order[i] in ids)
    && (forall x | x in ids :: x in order)
  }

  /** An iteration order of the set has as many elements as the set. */
  lemma {:induction false} OrderLength(order: seq<JString>, ids: set<JString>)
    requires IsOrderOf(order, ids)
    ensures |order| == |ids|
    decreases |order|
  {
    if order != [] {
      var last := order[|order| - 1];
      var init := order[..|order| - 1];
      assert IsOrderOf(init, ids - {last}) by {
        forall x | x in ids - {last}
          ensures x in init
        {
          var i :| 0 <= i < |order| && order[i] == x;
          assert i != |order| - 1;
        }
      }
      OrderLength(init, ids - {last});
    } else {
      assert forall x | x in ids :: false;
      assert ids == {};
    }
  }
}
