/** `MetaMapping`: appends the provenance tag "TransFAIR <version> - <date> - <mapping>"
    to a resource's meta. Version and mapping name are set by the constructor and never
    reassigned, so a mapper is a value. The date (`LocalDate.now()`) is a parameter. */
module MetaMapping {
  import opened Fhir

  datatype MetaMapping = MetaMapping(version: JString, mapping: JString)
  {
    /** The code of the tag; string concatenation prints a `null` version or mapping as
        "null". */
    function TagCode(today: string): (code: string)
      ensures |code| == 16 + |Printed(version)| + |today| + |Printed(mapping)|
      ensures code[..10] == "TransFAIR "
      ensures code[10..10 + |Printed(version)|] == Printed(version)
      ensures code[|code| - |Printed(mapping)|..] == Printed(mapping)
    {
      "TransFAIR " + Printed(version) + " - " + today + " - " + Printed(mapping)
    }

    /** The tag `tagResource` appends: no system, the code above. */
    function Tag(today: string): Coding
    {
      Coding(None, Some(TagCode(today)))
    }

    /** `tagResource`: the same resource with exactly one tag appended to its meta; every
        other part, the earlier tags included, is unchanged. */
    function TagResource(base: Resource, today: string): (r: Resource)
      ensures r.TypeName() == base.TypeName() && r.Id() == base.Id()
      ensures r.GetMeta().profile == base.GetMeta().profile
      ensures |r.GetMeta().tag| == |base.GetMeta().tag| + 1
      ensures r.GetMeta().tag[..|base.GetMeta().tag|] == base.GetMeta().tag
      ensures r.GetMeta().tag[|base.GetMeta().tag|] == Tag(today)
      ensures r.WithMeta(base.GetMeta()) == base
    {
      var m := base.GetMeta();
      base.WithMeta(m.(tag := m.tag + [Tag(today)]))
    }
  }
}
