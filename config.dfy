/**
 * The template configuration table of lib/utils/config.js: a constant map
 * from framework id to its template directory and dependency lists, the
 * lookup `getTemplateConfig`, and the two other exports.
 */
module Config {
  import opened Common

  /** One entry of `templateConfigs`. */
  datatype TemplateEntry = TemplateEntry(dir: string, dependencies: seq<string>, devDependencies: seq<string>)

  /** `templateConfigs`. */
  const TemplateConfigs: map<string, TemplateEntry> := map[
    "react" := TemplateEntry("react", ["react", "react-dom"], ["vite", "@vitejs/plugin-react"]),
    "nextjs" := TemplateEntry("nextjs", ["next"], []),
    "express" := TemplateEntry("express", ["express"], ["nodemon"]),
    "vanilla" := TemplateEntry("vanilla", [], [])
  ]

  /** A file-system path as its list of segments; `path.join` of segments that
      hold no separator is their concatenation. */
  type Path = seq<string>

  /** What `getTemplateConfig` returns: the entry's own fields, spread, plus
      `templatePath`. */
  datatype TemplateConfig = TemplateConfig(
    dir: string, dependencies: seq<string>, devDependencies: seq<string>, templatePath: Path)

  /** Reading `config.dir` of an undefined `config` throws a TypeError. */
  datatype ConfigError = UnknownTemplate(name: string)

  /** The entry a returned configuration was spread from: every field but
      `templatePath`. */
  function EntryOf(c: TemplateConfig): TemplateEntry
  {
    TemplateEntry(c.dir, c.dependencies, c.devDependencies)
  }

  /** `getTemplateConfig(templateName)`. `templatesRoot` stands for
      `path.join(__dirname, '../templates')`. A name that is not an own key of
      the table (an unknown id, or an inherited property such as `toString`,
      whose value has no `dir`) makes the source throw. */
  function GetTemplateConfig(templatesRoot: Path, templateName: string): (r: Result<TemplateConfig, ConfigError>)
    ensures r.Success? <==> templateName in TemplateConfigs
    ensures r.Failure? ==> r.error == UnknownTemplate(templateName)
    ensures r.Success? ==> EntryOf(r.value) == TemplateConfigs[templateName]
    ensures r.Success? ==> r.value.templatePath == templatesRoot + [templateName]
  {
    if templateName !in TemplateConfigs then Failure(UnknownTemplate(templateName))
    else
      var config := TemplateConfigs[templateName];
      Success(TemplateConfig(config.dir, config.dependencies, config.devDependencies,
                             templatesRoot + [config.dir]))
  }

  /** The table has exactly four keys, and each entry's directory is its key. */
  lemma TableKeysAndDirs()
    ensures TemplateConfigs.Keys == {"react", "nextjs", "express", "vanilla"}
    ensures forall k :: k in TemplateConfigs ==> TemplateConfigs[k].dir == k
  {
  }

  /** Distinct known names give distinct template paths. */
  lemma TemplatePathsDistinct(root: Path, a: string, b: string)
    requires GetTemplateConfig(root, a).Success? && GetTemplateConfig(root, b).Success?
    requires a != b
    ensures GetTemplateConfig(root, a).value.templatePath != GetTemplateConfig(root, b).value.templatePath
  {
    var pa, pb := root + [a], root + [b];
    assert pa[|root|] != pb[|root|];
  }

  /** `defaultFiles`. */
  const DefaultFiles: seq<string> := [".gitignore", "README.md"]

  /** `templateConfig.react`, the one table entry the export writes out
      again beside the references to `getTemplateConfig` and `templateConfigs`. */
  const ExportedReact: TemplateEntry :=
    TemplateEntry("react", ["react", "react-dom"], ["vite", "@vitejs/plugin-react"])

  /** The exported copy of the react entry agrees with the table, field by
      field. */
  lemma ExportedReactMatchesTable()
    ensures ExportedReact == TemplateConfigs["react"]
  {
  }
}
