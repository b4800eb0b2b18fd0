/**
 * Schemas of the shape the checklist's response models produce: a root
 * model whose nested models (such as `FileReviewOrder` inside
 * `KeyFilesAndReviewOrder`) are kept in a `$defs` table and referred to by
 * `$ref` from the properties.
 */
module SampleSchemas {
  import opened Json
  import opened LlmService

  /** A root model with a `$defs` table holding the nested model `name`. */
  predicate ModelWithDefs(root: map<string, Json>, name: string) {
    && IsObjectType(root)
    && "$defs" in root && root["$defs"].JObject?
    && !IsObjectType(root["$defs"].fields)
    && name in root["$defs"].fields && root["$defs"].fields[name].JObject?
    && IsObjectType(root["$defs"].fields[name].fields)
  }

  /**
   * Patching closes the root model and every model under `$defs`, and adds
   * nothing to the `$defs` table itself.
   */
  lemma DefsArePatched(root: map<string, Json>, name: string)
    requires ModelWithDefs(root, name)
    ensures var p := Patch(JObject(root)).fields;
            && AdditionalProperties in p && p[AdditionalProperties] == JBool(false)
            && "$defs" in p && p["$defs"].JObject?
            && p["$defs"].fields.Keys == root["$defs"].fields.Keys
            && var def := p["$defs"].fields[name];
               def.JObject? && AdditionalProperties in def.fields && def.fields[AdditionalProperties] == JBool(false)
  {
    var defs := root["$defs"].fields;
    var def := defs[name].fields;
    var p := Patch(JObject(root)).fields;
    assert "$defs" != AdditionalProperties;
    assert p["$defs"] == Visit(root["$defs"]) == Patch(JObject(defs));
    PatchKeepsType(defs);
    assert Patch(JObject(defs)).fields[name] == Visit(defs[name]) == Patch(JObject(def));
    PatchKeepsType(def);
    OverwritesAdditionalProperties(def);
    OverwritesAdditionalProperties(root);
  }
}
