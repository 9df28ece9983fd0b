/**
 * The template manager: loads the Salesforce and NetSuite Type 600
 * templates from a directory, caching them only for the default directory,
 * and validates a template's shape. The file system is the parameter
 * `files`, which gives the parsed JSON of a path or `None` when opening or
 * parsing it fails.
 */
module TemplateManagement {
  import opened Wrappers
  import opened JsonValues

  const DefaultTemplatesDir := "j2j_templates"
  const SalesforceTemplateFile := "salesforce_type_600_template.json"
  const NetSuiteTemplateFile := "netsuite_type_600_template.json"

  /** The keys `load_templates` always fills. */
  const TemplateKeys: set<string> := {"salesforce", "netsuite"}

  /** The parsed template at `path`, or `None` (Python's) on any load failure. */
  function LoadOrNull(files: string -> Option<Json>, path: string): (r: Json)
    ensures files(path).None? ==> r == Null
    ensures files(path).Some? ==> r == files(path).value
  {
    match files(path)
    case None => Null
    case Some(j) => j
  }

  /** The uncached branch of `load_templates`. */
  function ReadTemplates(dir: string, files: string -> Option<Json>): (r: map<string, Json>)
    ensures r.Keys == TemplateKeys
    ensures r["salesforce"] == LoadOrNull(files, dir + "/" + SalesforceTemplateFile)
    ensures r["netsuite"] == LoadOrNull(files, dir + "/" + NetSuiteTemplateFile)
  {
    map["salesforce" := LoadOrNull(files, dir + "/" + SalesforceTemplateFile),
        "netsuite" := LoadOrNull(files, dir + "/" + NetSuiteTemplateFile)]
  }

  /** `validate_template`; a Python `bool` is an `int`, so a boolean `type` passes. */
  predicate ValidateTemplate(t: Json) {
    t.Obj? && "name" in t.fields && "type" in t.fields && "properties" in t.fields
    && (t.fields["type"].Num? || t.fields["type"].Bool?)
    && t.fields["properties"].Arr?
  }

  class TemplateManager {
    var templateCache: map<string, Json>
    var cacheLoaded: bool

    /** A loaded cache holds both templates; an unloaded one is empty. */
    ghost predicate Valid()
      reads this
    {
      (cacheLoaded ==> templateCache.Keys == TemplateKeys) &&
      (!cacheLoaded ==> templateCache == map[])
    }

    constructor()
      ensures Valid()
      ensures templateCache == map[] && !cacheLoaded
    {
      templateCache := map[];
      cacheLoaded := false;
    }

    /** The templates `load_templates(dir)` returns in the current state. */
    function Templates(dir: string, files: string -> Option<Json>): (r: map<string, Json>)
      reads this
      requires Valid()
      ensures r.Keys == TemplateKeys
    {
      if cacheLoaded && dir == DefaultTemplatesDir then templateCache else ReadTemplates(dir, files)
    }

    /**
     * `load_templates`: the cached copy when the cache is loaded and `dir` is
     * the default, otherwise a fresh read, which is cached only for the default.
     */
    method LoadTemplates(dir: string, files: string -> Option<Json>) returns (templates: map<string, Json>)
      requires Valid()
      modifies this
      ensures Valid()
      ensures templates == old(Templates(dir, files))
      ensures templates.Keys == TemplateKeys
      ensures old(cacheLoaded) && dir == DefaultTemplatesDir ==> templates == old(templateCache)
      ensures !(old(cacheLoaded) && dir == DefaultTemplatesDir) ==> templates == ReadTemplates(dir, files)
      ensures dir == DefaultTemplatesDir ==> cacheLoaded && templateCache == templates
      ensures dir != DefaultTemplatesDir ==> cacheLoaded == old(cacheLoaded) && templateCache == old(templateCache)
    {
      if cacheLoaded && dir == DefaultTemplatesDir {
        return templateCache;
      }
      var sf := LoadOrNull(files, dir + "/" + SalesforceTemplateFile);
      var ns := LoadOrNull(files, dir + "/" + NetSuiteTemplateFile);
      templates := map["salesforce" := sf, "netsuite" := ns];
      if dir == DefaultTemplatesDir {
        templateCache := templates;
        cacheLoaded := true;
      }
    }

    /** `get_template`: the loaded template of `adapterId`, or `None` for other adapters. */
    method GetTemplate(adapterId: string, dir: string, files: string -> Option<Json>) returns (t: Json)
      requires Valid()
      modifies this
      ensures Valid()
      ensures adapterId in TemplateKeys ==> t == old(Templates(dir, files))[adapterId]
      ensures adapterId !in TemplateKeys ==> t == Null
      ensures dir == DefaultTemplatesDir ==> cacheLoaded && templateCache == old(Templates(dir, files))
      ensures dir != DefaultTemplatesDir ==> cacheLoaded == old(cacheLoaded) && templateCache == old(templateCache)
    {
      var templates := LoadTemplates(dir, files);
      t := if adapterId in templates then templates[adapterId] else Null;
    }

    /** `clear_cache`. */
    method ClearCache()
      modifies this
      ensures Valid()
      ensures templateCache == map[] && !cacheLoaded
    {
      templateCache := map[];
      cacheLoaded := false;
    }

    /** `is_template_available`: the template is present and valid. */
    method IsTemplateAvailable(adapterId: string, dir: string, files: string -> Option<Json>) returns (b: bool)
      requires Valid()
      modifies this
      ensures Valid()
      ensures b <==> adapterId in TemplateKeys && ValidateTemplate(old(Templates(dir, files))[adapterId])
      ensures dir == DefaultTemplatesDir ==> cacheLoaded && templateCache == old(Templates(dir, files))
      ensures dir != DefaultTemplatesDir ==> cacheLoaded == old(cacheLoaded) && templateCache == old(templateCache)
    {
      var t := GetTemplate(adapterId, dir, files);
      b := t != Null && ValidateTemplate(t);
    }
  }

  /** A second load of the default directory returns the first load's templates, whatever the files now hold. */
  method LoadTwice(m: TemplateManager, files1: string -> Option<Json>, files2: string -> Option<Json>)
    returns (first: map<string, Json>, second: map<string, Json>)
    requires m.Valid()
    modifies m
    ensures m.Valid()
    ensures !old(m.cacheLoaded) ==> first == ReadTemplates(DefaultTemplatesDir, files1)
    ensures second == first
  {
    first := m.LoadTemplates(DefaultTemplatesDir, files1);
    second := m.LoadTemplates(DefaultTemplatesDir, files2);
  }
}
