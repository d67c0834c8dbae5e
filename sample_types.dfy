/** Translation of specimen sample types between the bbmri.de sample-material vocabulary
    and SNOMED CT, in both directions (class `SnomedSamplyTypeConverter`). */
module SampleTypes {
  import opened Fhir

  /** The SNOMED CT code `fromBbmriToMii` falls back to. */
  const DefaultSnomedCode := "123038009"

  /** The bbmri.de category `fromMiiToBbmri` falls back to. */
  const DerivativeOther := "derivative-other"

  /** The nineteen bbmri.de categories the SNOMED CT table names. */
  const Categories: set<string> := {
    "whole-blood", "bone-marrow", "buffy-coat", "dried-whole-blood", "peripheral-blood-cells-vital",
    "blood-plasma", "blood-serum", "ascites", "csf-liquor", "saliva", "stool-faeces", "urine", "swab",
    "tissue-ffpe", "tissue-frozen", "tissue-other", "dna", "rna", "liquid-other"
  }

  /** Every SNOMED CT code the table maps to a named category. */
  const SnomedCodes: set<string> := {
    "119297000", "122558009", "256912003",
    "119359002", "396997002", "396998007", "396999004", "110897001", "167913002",
    "258587000", "117171008",
    "119294007", "440500007", "738796001",
    "404798000", "122551003",
    "119361006", "708049000", "708048008", "258958007", "446272009", "2431000181102",
    "2441000181109", "898205005",
    "119364003", "122591000",
    "258441009", "442039000",
    "258450006", "119342007", "119339001", "122575003", "257261003", "441652008",
    "16214131000119104", "1003517007",
    "119376003",
    "258566005", "726740008", "18470003",
    "441673008", "33463005"
  }

  /** SNOMED CT code to bbmri.de category, as the `switch` of `fromMiiToBbmri` lists it;
      the `switch` on a `null` code throws. */
  function FromMiiToBbmri(snomedType: JString): (r: Result<string>)
    ensures snomedType == None <==> r == Thrown(NullPointer)
    ensures r.Ok? ==> r.value in Categories || r.value == DerivativeOther
    ensures r.Ok? ==> (r.value == DerivativeOther <==> snomedType.value !in SnomedCodes)
  {
    match snomedType
    case None => Thrown(NullPointer)
    case Some(code) =>
      Ok(match code
         case "119297000" | "122558009" | "256912003" => "whole-blood"
         case "119359002" | "396997002" | "396998007" | "396999004" | "110897001" | "167913002" => "bone-marrow"
         case "258587000" | "117171008" => "buffy-coat"
         case "119294007" | "440500007" | "738796001" => "dried-whole-blood"
         case "404798000" | "122551003" => "peripheral-blood-cells-vital"
         case "119361006" | "708049000" | "708048008" | "258958007" | "446272009" | "2431000181102"
              | "2441000181109" | "898205005" => "blood-plasma"
         case "119364003" | "122591000" => "blood-serum"
         case "258441009" | "442039000" => "ascites"
         case "258450006" => "csf-liquor"
         case "119342007" => "saliva"
         case "119339001" => "stool-faeces"
         case "122575003" => "urine"
         case "257261003" => "swab"
         case "441652008" => "tissue-ffpe"
         case "16214131000119104" | "1003517007" => "tissue-frozen"
         case "119376003" => "tissue-other"
         case "258566005" | "726740008" | "18470003" => "dna"
         case "441673008" => "rna"
         case "33463005" => "liquid-other"
         case _ => DerivativeOther)
  }

  /** The bbmri.de sample types `fromBbmriToMii` recognises: the categories above except
      "derivative-other", and the plasma and tissue subtypes and DNA kinds. */
  const BbmriTypes: set<string> := {
    "whole-blood", "bone-marrow", "buffy-coat", "dried-whole-blood", "peripheral-blood-cells-vital",
    "blood-plasma", "blood-serum", "ascites", "csf-liquor", "saliva", "stool-faeces", "urine", "swab",
    "tissue-ffpe", "tissue-frozen", "tissue-other", "dna", "rna", "liquid-other",
    "plasma-cell-free", "plasma-other", "plasma-edta", "plasma-citrat", "plasma-heparin",
    "tumor-tissue-ffpe", "normal-tissue-ffpe", "other-tissue-ffpe",
    "tumor-tissue-frozen", "normal-tissue-frozen", "other-tissue-frozen", "cf-dna", "g-dna"
  }

  /** bbmri.de sample type to SNOMED CT: one representative code per type, and the default
      code for `null` and for every type the table does not list. */
  function FromBbmriToMii(bbmriType: JString): (r: string)
    ensures r == DefaultSnomedCode <==> bbmriType == None || bbmriType.value !in BbmriTypes
    ensures r != DefaultSnomedCode ==> r in SnomedCodes
  {
    match bbmriType
    case None => DefaultSnomedCode
    case Some(t) =>
      match t
      case "whole-blood" => "119297000"
      case "bone-marrow" => "119359002"
      case "buffy-coat" => "258587000"
      case "dried-whole-blood" => "119294007"
      case "peripheral-blood-cells-vital" => "404798000"
      case "blood-plasma" | "plasma-cell-free" | "plasma-other" => "119361006"
      case "plasma-edta" => "708049000"
      case "plasma-citrat" => "708048008"
      case "plasma-heparin" => "446272009"
      case "blood-serum" => "119364003"
      case "ascites" => "258441009"
      case "csf-liquor" => "258450006"
      case "saliva" => "119342007"
      case "stool-faeces" => "119339001"
      case "urine" => "122575003"
      case "swab" => "257261003"
      case "tissue-ffpe" | "tumor-tissue-ffpe" | "normal-tissue-ffpe" | "other-tissue-ffpe" => "441652008"
      case "tissue-frozen" | "tumor-tissue-frozen" | "normal-tissue-frozen" | "other-tissue-frozen" =>
        "16214131000119104"
      case "tissue-other" => "119376003"
      case "dna" => "258566005"
      case "cf-dna" => "726740008"
      case "g-dna" => "18470003"
      case "rna" => "441673008"
      case "liquid-other" => "33463005"
      case _ => DefaultSnomedCode
  }

  /** The default code is not one the table lists. */
  lemma DefaultIsUnlisted()
    ensures DefaultSnomedCode !in SnomedCodes
  {
  }

  /** Going to SNOMED CT and back restores the blood, marrow and body-fluid categories. */
  lemma FluidRoundTrip(c: string)
    requires c in {"whole-blood", "bone-marrow", "buffy-coat", "dried-whole-blood", "peripheral-blood-cells-vital", "blood-plasma", "blood-serum", "ascites", "csf-liquor"}
    ensures FromMiiToBbmri(Some(FromBbmriToMii(Some(c)))) == Ok(c)
  {
    if c == "whole-blood" {
    } else if c == "bone-marrow" {
    } else if c == "buffy-coat" {
    } else if c == "dried-whole-blood" {
    } else if c == "peripheral-blood-cells-vital" {
    } else if c == "blood-plasma" {
    } else if c == "blood-serum" {
    } else if c == "ascites" {
    } else if c == "csf-liquor" {
    } else {
      assert false;
    }
  }

  /** Going to SNOMED CT and back restores each of the excretion, swab, tissue, nucleic-acid
      and other-liquid categories, one category at a time. */
  lemma SalivaRoundTrip()
    ensures FromMiiToBbmri(Some(FromBbmriToMii(Some("saliva")))) == Ok("saliva")
  {
  }

  lemma StoolRoundTrip()
    ensures FromMiiToBbmri(Some(FromBbmriToMii(Some("stool-faeces")))) == Ok("stool-faeces")
  {
  }

  lemma UrineRoundTrip()
    ensures FromMiiToBbmri(Some(FromBbmriToMii(Some("urine")))) == Ok("urine")
  {
  }

  lemma SwabRoundTrip()
    ensures FromMiiToBbmri(Some(FromBbmriToMii(Some("swab")))) == Ok("swab")
  {
  }

  lemma TissueFfpeRoundTrip()
    ensures FromMiiToBbmri(Some(FromBbmriToMii(Some("tissue-ffpe")))) == Ok("tissue-ffpe")
  {
  }

  lemma TissueFrozenRoundTrip()
    ensures FromMiiToBbmri(Some(FromBbmriToMii(Some("tissue-frozen")))) == Ok("tissue-frozen")
  {
  }

  lemma TissueOtherRoundTrip()
    ensures FromMiiToBbmri(Some(FromBbmriToMii(Some("tissue-other")))) == Ok("tissue-other")
  {
  }

  lemma DnaRoundTrip()
    ensures FromMiiToBbmri(Some(FromBbmriToMii(Some("dna")))) == Ok("dna")
  {
  }

  lemma RnaRoundTrip()
    ensures FromMiiToBbmri(Some(FromBbmriToMii(Some("rna")))) == Ok("rna")
  {
  }

  lemma LiquidOtherRoundTrip()
    ensures FromMiiToBbmri(Some(FromBbmriToMii(Some("liquid-other")))) == Ok("liquid-other")
  {
  }

  /** Going to SNOMED CT and back restores every value `fromMiiToBbmri` can produce:
      each category's representative code lies in that category's row of the table,
      and the default code lies in none. */
  lemma CategoryRoundTrip(c: string)
    requires c in Categories || c == DerivativeOther
    ensures FromMiiToBbmri(Some(FromBbmriToMii(Some(c)))) == Ok(c)
  {
    if c == DerivativeOther {
      DefaultIsUnlisted();
    } else if c in {"whole-blood", "bone-marrow", "buffy-coat", "dried-whole-blood", "peripheral-blood-cells-vital", "blood-plasma", "blood-serum", "ascites", "csf-liquor"} {
      FluidRoundTrip(c);
    } else if c == "saliva" {
      SalivaRoundTrip();
    } else if c == "stool-faeces" {
      StoolRoundTrip();
    } else if c == "urine" {
      UrineRoundTrip();
    } else if c == "swab" {
      SwabRoundTrip();
    } else if c == "tissue-ffpe" {
      TissueFfpeRoundTrip();
    } else if c == "tissue-frozen" {
      TissueFrozenRoundTrip();
    } else if c == "tissue-other" {
      TissueOtherRoundTrip();
    } else if c == "dna" {
      DnaRoundTrip();
    } else if c == "rna" {
      RnaRoundTrip();
    } else {
      LiquidOtherRoundTrip();
    }
  }

  /** Hence bbmri.de to SNOMED CT to bbmri.de, although lossy, is a projection: applying it
      to its own result changes nothing. */
  lemma RoundTripIsProjection(t: JString)
    ensures var c := FromMiiToBbmri(Some(FromBbmriToMii(t)));
            c.Ok? && FromMiiToBbmri(Some(FromBbmriToMii(Some(c.value)))) == c
  {
    var c := FromMiiToBbmri(Some(FromBbmriToMii(t)));
    CategoryRoundTrip(c.value);
  }

  /** The SNOMED CT to bbmri.de direction is many-to-one: three codes for whole blood. */
  lemma WholeBloodCollapses()
    ensures FromMiiToBbmri(Some("119297000")) == Ok("whole-blood")
    ensures FromMiiToBbmri(Some("122558009")) == Ok("whole-blood")
    ensures FromMiiToBbmri(Some("256912003")) == Ok("whole-blood")
  {
  }

  /** An unknown SNOMED CT code falls back to "derivative-other". */
  lemma UnknownSnomedCode()
    ensures FromMiiToBbmri(Some("99999999")) == Ok(DerivativeOther)
  {
  }

  /** `null` and unknown bbmri.de types both fall back to the default SNOMED CT code. */
  lemma UnknownBbmriType()
    ensures FromBbmriToMii(None) == DefaultSnomedCode
    ensures FromBbmriToMii(Some("unknown-type")) == DefaultSnomedCode
  {
  }

  /** bbmri.de to SNOMED CT to bbmri.de is not lossless: EDTA plasma comes back as plasma. */
  lemma PlasmaEdtaIsLost()
    ensures FromBbmriToMii(Some("plasma-edta")) == "708049000"
    ensures FromMiiToBbmri(Some("708049000")) == Ok("blood-plasma")
  {
  }
}
