/** Form-type dispatch shared by both extraction pipelines. */
module Forms {
  import opened Wrappers

  /** `"125"` has a schema; `"127a"` and `"137"` are recognised but switched off; anything else
      is unsupported. */
  datatype FormKind = Acord125 | Disabled(tag: string) | Unsupported(tag: string)

  const DisabledTypes: set<string> := {"127a", "137"}

  function Classify(formType: string): (k: FormKind)
    ensures k.Acord125? <==> formType == "125"
    ensures k.Disabled? <==> formType in DisabledTypes
    ensures !k.Acord125? ==> k.tag == formType
  {
    if formType == "125" then Acord125
    else if formType == "127a" || formType == "137" then Disabled(formType)
    else Unsupported(formType)
  }

  /** The schema text the dispatch reads: the 125 template's contents (`None` when reading it
      raised) for `"125"`, and nothing for every other form type. */
  function SchemaFor(formType: string, template125: Option<string>): (schema: Option<string>)
    ensures schema.Some? <==> formType == "125" && template125.Some?
    ensures schema.Some? ==> schema == template125
  {
    match Classify(formType)
    case Acord125 => template125
    case Disabled(_) => None
    case Unsupported(_) => None
  }
}
