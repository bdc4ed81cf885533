/**
 * The fixed table of templates and the check the photo handler makes before
 * any image is processed: the chosen id must be in the table and its file
 * must exist. The file system is a map from existing paths to the loaded
 * template's dimensions.
 */
module Templates {
  import opened Wrappers
  import opened Layout

  /** `template_options`: template id to template file. */
  const TemplateOptions: map<string, string> := map["1" := "template1.png", "2" := "template2.png"]

  /**
   * `template_options.get(template_id)` followed by the emptiness and
   * existence test: the path when both pass, None ("Template not found")
   * otherwise.
   */
  function ResolveTemplate(id: string, files: map<string, Size>): (r: Option<string>)
    ensures r.Some? <==> id in TemplateOptions && TemplateOptions[id] in files
    ensures r.Some? ==> r.value == TemplateOptions[id] && r.value in files
  {
    if id in TemplateOptions && TemplateOptions[id] != "" && TemplateOptions[id] in files then
      Some(TemplateOptions[id])
    else
      None
  }

  /** Only the ids "1" and "2" ever resolve, and each to its own file. */
  lemma ResolveOnlyListed(id: string, files: map<string, Size>)
    ensures ResolveTemplate(id, files).Some? ==> id == "1" || id == "2"
    ensures ResolveTemplate("1", files) == (if "template1.png" in files then Some("template1.png") else None)
    ensures ResolveTemplate("2", files) == (if "template2.png" in files then Some("template2.png") else None)
  {
  }
}
