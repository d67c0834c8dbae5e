/** Translation of specimen storage temperatures between the bbmri.de StorageTemperature
    buckets and the MII temperature-range extension (class `TemperatureConverter`). */
module Temperature {
  import opened Fhir

  /** The code system of the bbmri.de buckets (`TemperatureConverter.URL`). */
  const CodeSystemUrl := "https://fhir.bbmri.de/CodeSystem/StorageTemperature"

  /** The extension URL `fromMiiToBbmri` writes. */
  const BbmriExtensionUrl := "https://fhir.bbmri.de/StructureDefinition/StorageTemperature"

  /** The extension URL `fromBbrmiToMii` writes. */
  const MiiExtensionUrl :=
    "https://www.medizininformatik-initiative.de/fhir/ext/modul-biobank/StructureDefinition/Temperaturbedingungen"

  const OtherBucket := "temperatureOther"

  /** The six named buckets, in the order in which `fromMiiToBbmri` tests them, with the
      upper and lower bound (degrees Celsius) each one stands for. */
  const Buckets: seq<string> := ["temperature2to10", "temperature-18to-35", "temperature-60to-85",
                                 "temperatureLN", "temperatureGN", "temperatureRoom"]
  const Highs: seq<int> := [10, -18, -60, -196, -160, 30]
  const Lows: seq<int> := [2, -35, -85, -209, -195, 11]

  /** A range from `low` to `high` lies within bucket `i`. */
  predicate Within(i: nat, high: int, low: int)
    requires i < |Buckets|
  {
    high <= Highs[i] && low >= Lows[i]
  }

  /** The bucket names are pairwise distinct, and none is "temperatureOther". */
  lemma BucketsDistinct()
    ensures forall i, j | 0 <= i < j < |Buckets| :: Buckets[i] != Buckets[j]
    ensures OtherBucket !in Buckets
  {
  }

  /** bbmri.de bucket to MII range: the bucket's bounds, or an empty range for
      "temperatureOther" and any other text; the `switch` on `null` throws. */
  function FromBbmriToMii(bbmriTemp: JString): (r: Result<Extension>)
    ensures bbmriTemp == None <==> r == Thrown(NullPointer)
    ensures r.Ok? ==> r.value.url == Some(MiiExtensionUrl) && r.value.value.RangeValue?
    ensures r.Ok? ==> forall i | 0 <= i < |Buckets| ::
              bbmriTemp.value == Buckets[i] ==> r.value.value.range == Range(Some(Highs[i]), Some(Lows[i]))
    ensures r.Ok? && bbmriTemp.value !in Buckets ==> r.value.value.range == Range(None, None)
  {
    match bbmriTemp
    case None => Thrown(NullPointer)
    case Some(t) =>
      var range :=
        match t
        case "temperature2to10" => Range(Some(10), Some(2))
        case "temperature-18to-35" => Range(Some(-18), Some(-35))
        case "temperature-60to-85" => Range(Some(-60), Some(-85))
        case "temperatureGN" => Range(Some(-160), Some(-195))
        case "temperatureLN" => Range(Some(-196), Some(-209))
        case "temperatureRoom" => Range(Some(30), Some(11))
        case "temperatureOther" => Range(None, None)
        case _ => Range(None, None);
      Ok(Extension(Some(MiiExtensionUrl), RangeValue(range)))
  }

  /** The bucket name the `if`/`else` chain of `fromMiiToBbmri` picks: the first bucket, in
      the order above, that contains the range, and "temperatureOther" when none does. */
  function BucketOf(high: int, low: int): (r: string)
    ensures r == OtherBucket <==> forall i | 0 <= i < |Buckets| :: !Within(i, high, low)
    ensures forall i | 0 <= i < |Buckets| ::
              r == Buckets[i] <==> Within(i, high, low) && forall j | 0 <= j < i :: !Within(j, high, low)
  {
    BucketsDistinct();
    if high <= 10 && low >= 2 then assert Within(0, high, low); "temperature2to10"
    else if high <= -18 && low >= -35 then assert Within(1, high, low); "temperature-18to-35"
    else if high <= -60 && low >= -85 then assert Within(2, high, low); "temperature-60to-85"
    else if high <= -196 && low >= -209 then assert Within(3, high, low); "temperatureLN"
    else if high <= -160 && low >= -195 then assert Within(4, high, low); "temperatureGN"
    else if high <= 30 && low >= 11 then assert Within(5, high, low); "temperatureRoom"
    else OtherBucket
  }

  /** MII range to bbmri.de bucket: a bbmri.de StorageTemperature extension whose single
      coding names, under the bucket code system, the bucket `BucketOf` picks. */
  function FromMiiToBbmri(high: int, low: int): (r: Extension)
    ensures r.url == Some(BbmriExtensionUrl)
    ensures r.value.ConceptValue? && |r.value.concept.coding| == 1
    ensures r.value.concept.coding[0].system == Some(CodeSystemUrl)
    ensures r.value.concept.coding[0].code == Some(BucketOf(high, low))
  {
    Extension(Some(BbmriExtensionUrl), ConceptValue(Coded(CodeSystemUrl, Some(BucketOf(high, low)))))
  }

  /** Every named bucket survives the trip to an MII range and back: its own bounds fall
      inside no bucket tested before it. */
  lemma BucketRoundTrip(i: nat)
    requires i < |Buckets|
    ensures var e := FromBbmriToMii(Some(Buckets[i]));
            e.Ok? && e.value.value.range.high.Some? && e.value.value.range.low.Some?
            && BucketOf(e.value.value.range.high.value, e.value.value.range.low.value) == Buckets[i]
  {
    var e := FromBbmriToMii(Some(Buckets[i]));
    assert e.value.value.range == Range(Some(Highs[i]), Some(Lows[i]));
    assert Within(i, Highs[i], Lows[i]);
  }

  /** The liquid-nitrogen bucket is tested before the gas-phase one, but the two do not
      overlap: only an inverted range (upper bound below the lower) lies within both. */
  lemma NitrogenBucketsDisjoint(high: int, low: int)
    requires Within(3, high, low) && Within(4, high, low)
    ensures high < low
  {
  }

  /** An inverted range whose upper bound is at most 10 and whose lower bound is at least 2
      is named "temperature2to10", whatever the bounds are. */
  lemma InvertedRangeIsCold()
    ensures BucketOf(-100, 25) == "temperature2to10"
  {
  }

  lemma FreezerRange()
    ensures BucketOf(-18, -35) == "temperature-18to-35"
  {
  }

  /** The upper bound 31 lies above every bucket. */
  lemma TooWarmIsOther(low: int)
    ensures BucketOf(31, low) == OtherBucket
  {
  }
}
