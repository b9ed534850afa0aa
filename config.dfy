/**
 * The workflow configuration document and its accessors. The document is
 * the parsed YAML file, given here as a value; an empty or null document
 * reads as an empty mapping, and a missing section as an empty mapping.
 */
module Config {
  import opened Values

  /** `load_config()`: the document, or an empty mapping when it is falsy. */
  function LoadConfig(document: Value): Value
  {
    if Truthy(document) then document else Dict(map[])
  }

  /**
   * `load_config().get(name, {})`: a section of the document, an empty
   * mapping when it is missing, and an error when the document is not a
   * mapping (it has no `.get`).
   */
  function SectionOf(document: Value, name: string): (r: Result<Value>)
    ensures !Truthy(document) ==> r == Ok(Dict(map[]))
    ensures document.Dict? && name in document.entries ==> r == Ok(document.entries[name])
    ensures document.Dict? && name !in document.entries ==> r == Ok(Dict(map[]))
    ensures Truthy(document) && !document.Dict? ==> r == Err(AttributeError("get"))
  {
    var config := LoadConfig(document);
    if config.Dict? then Ok(Get(config.entries, name, Dict(map[])))
    else Err(AttributeError("get"))
  }

  function LoadPresets(document: Value): Result<Value>           { SectionOf(document, "presets") }
  function LoadDefaults(document: Value): Result<Value>          { SectionOf(document, "defaults") }
  function LoadPrompts(document: Value): Result<Value>           { SectionOf(document, "prompts") }
  function LoadPromptDefaults(document: Value): Result<Value>     { SectionOf(document, "prompt_defaults") }
  function LoadPromptComponents(document: Value): Result<Value>  { SectionOf(document, "prompt_components") }
  function LoadScheduling(document: Value): Result<Value>        { SectionOf(document, "scheduling") }
  function LoadTracking(document: Value): Result<Value>          { SectionOf(document, "tracking") }

  /** With an empty or null document every accessor yields an empty mapping. */
  lemma EmptyDocumentSections(document: Value)
    requires !Truthy(document)
    ensures LoadPresets(document) == Ok(Dict(map[])) && LoadDefaults(document) == Ok(Dict(map[]))
    ensures LoadPrompts(document) == Ok(Dict(map[])) && LoadPromptDefaults(document) == Ok(Dict(map[]))
    ensures LoadPromptComponents(document) == Ok(Dict(map[]))
    ensures LoadScheduling(document) == Ok(Dict(map[])) && LoadTracking(document) == Ok(Dict(map[]))
  {
  }

  /**
   * The templates, each completed with the configuration defaults, in the
   * order the configuration lists them: `names` is that order and `params`
   * maps each name to its parameters.
   */
  datatype TemplateTable = TemplateTable(names: seq<string>, params: map<string, map<string, Value>>)

  predicate Distinct(names: seq<string>)
  {
    forall i, j :: 0 <= i < j < |names| ==> names[i] != names[j]
  }

  /** Every name is listed once and has parameters, and nothing else has. */
  ghost predicate ValidTable(t: TemplateTable)
  {
    Distinct(t.names) && forall name :: name in t.params <==> name in t.names
  }

  /** The key order of the templates section, when that section is a mapping. */
  ghost predicate ListsTemplates(document: Value, order: seq<string>)
  {
    Distinct(order) &&
    (SectionOf(document, "templates").Ok? && SectionOf(document, "templates").value.Dict? ==>
      forall name :: name in SectionOf(document, "templates").value.entries <==> name in order)
  }

  /** `values` laid over `defaults`: the template's own entries win. */
  ghost predicate Completes(combined: map<string, Value>, defaults: map<string, Value>, values: map<string, Value>)
  {
    && (forall k :: k in combined <==> k in defaults || k in values)
    && (forall k :: k in values ==> combined[k] == values[k])
    && (forall k :: k in defaults && k !in values ==> combined[k] == defaults[k])
  }

  /** Every completed template is its own values laid over `defaults`. */
  ghost predicate AllComplete(params: map<string, map<string, Value>>, entries: map<string, Value>, defaults: Value)
  {
    forall name :: name in params ==>
      && defaults.Dict? && name in entries && entries[name].Dict?
      && Completes(params[name], defaults.entries, entries[name].entries)
  }

  /** `combined = dict(defaults); combined.update(values)` completes one more template. */
  lemma AddCompleted(params: map<string, map<string, Value>>, entries: map<string, Value>,
                     defaults: Value, name: string)
    requires AllComplete(params, entries, defaults)
    requires defaults.Dict? && name in entries && entries[name].Dict?
    ensures AllComplete(params[name := defaults.entries + entries[name].entries], entries, defaults)
  {
    assert Completes(defaults.entries + entries[name].entries, defaults.entries, entries[name].entries);
  }

  /** `order[i]` is the first template in `order` whose values are not a mapping. */
  predicate FirstNonMapping(entries: map<string, Value>, order: seq<string>, i: nat)
  {
    && i < |order| && order[i] in entries && !entries[order[i]].Dict?
    && forall j :: 0 <= j < i ==> order[j] in entries && entries[order[j]].Dict?
  }

  /**
   * The loop of `load_templates()`: every template, in order, laid over the
   * defaults. It fails on the first template when the defaults are not a
   * mapping, and on the first template that is not a mapping.
   */
  method CompleteAll(entries: map<string, Value>, defaults: Value, order: seq<string>)
    returns (r: Result<TemplateTable>)
    requires Distinct(order) && forall name :: name in entries <==> name in order
    ensures order != [] && !defaults.Dict? ==> r == Err(TypeError("defaults"))
    ensures r.Ok? ==>
      && ValidTable(r.value) && r.value.names == order
      && (order != [] ==> defaults.Dict?)
      && AllComplete(r.value.params, entries, defaults)
    ensures order == [] ==> r == Ok(TemplateTable([], map[]))
    ensures r.Ok? <==> (order == [] || defaults.Dict?) && forall i :: 0 <= i < |order| ==> entries[order[i]].Dict?
    ensures r.Err? && defaults.Dict? ==> exists i: nat :: FirstNonMapping(entries, order, i) && r == Err(TypeError(order[i]))
  {
    var params: map<string, map<string, Value>> := map[];
    for i := 0 to |order|
      invariant forall name :: name in params <==> name in order[..i]
      invariant i > 0 ==> defaults.Dict?
      invariant forall j :: 0 <= j < i ==> entries[order[j]].Dict?
      invariant AllComplete(params, entries, defaults)
    {
      var name := order[i];
      if !defaults.Dict? {
        return Err(TypeError("defaults"));
      }
      var values := entries[name];
      if !values.Dict? {
        assert FirstNonMapping(entries, order, i);
        return Err(TypeError(name));
      }
      var combined := defaults.entries;
      combined := combined + values.entries;
      AddCompleted(params, entries, defaults, name);
      params := params[name := combined];
    }
    assert order[..|order|] == order;
    return Ok(TemplateTable(order, params));
  }

  /**
   * `load_templates()`: reads the defaults and the templates sections and
   * completes every template with the defaults. `order` is the order in
   * which the configuration lists the templates.
   */
  method LoadTemplates(document: Value, order: seq<string>) returns (r: Result<TemplateTable>)
    requires ListsTemplates(document, order)
    ensures Truthy(document) && !document.Dict? ==> r == Err(AttributeError("get"))
    ensures var templates := SectionOf(document, "templates");
      templates.Ok? && !templates.value.Dict? ==> r == Err(AttributeError("items"))
    ensures var templates := SectionOf(document, "templates"); var defaults := SectionOf(document, "defaults");
      templates.Ok? && templates.value.Dict? && order != [] && !defaults.value.Dict? ==>
      r == Err(TypeError("defaults"))
    ensures r.Ok? ==>
      var templates := SectionOf(document, "templates").value.entries;
      var defaults := SectionOf(document, "defaults").value;
      && ValidTable(r.value) && r.value.names == order
      && (order != [] ==> defaults.Dict?)
      && AllComplete(r.value.params, templates, defaults)
    ensures var templates := SectionOf(document, "templates"); var defaults := SectionOf(document, "defaults");
      templates.Ok? && templates.value.Dict? ==>
      var entries := templates.value.entries;
      && (order == [] ==> r == Ok(TemplateTable([], map[])))
      && (r.Ok? <==> (order == [] || defaults.value.Dict?) && forall i :: 0 <= i < |order| ==> entries[order[i]].Dict?)
      && (r.Err? && defaults.value.Dict? ==>
            exists i: nat :: FirstNonMapping(entries, order, i) && r == Err(TypeError(order[i])))
  {
    var defaults := SectionOf(document, "defaults");
    var templates := SectionOf(document, "templates");
    if defaults.Err? || templates.Err? {
      return Err(AttributeError("get"));
    }
    if !templates.value.Dict? {
      return Err(AttributeError("items"));
    }
    r := CompleteAll(templates.value.entries, defaults.value, order);
  }
}
