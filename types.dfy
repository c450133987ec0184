/** The value types of src/types/index.ts: the language tag and the formatter settings record. */
module Types {
  import opened Wrappers

  /** The `Language` union: the ten language names the editor offers. */
  datatype Language =
    | JavaScript | TypeScript | Html | Css | Json
    | Python | Xml | Sql | Yaml | Markdown

  /** Prettier's `trailingComma` choice: 'none' | 'es5' | 'all'. */
  datatype TrailingComma = CommaNone | CommaEs5 | CommaAll

  /** `FormatterSettings`; numbers the UI produces are modelled as naturals. */
  datatype FormatterSettings = FormatterSettings(
    tabWidth: nat,
    useTabs: bool,
    semicolons: bool,
    singleQuote: bool,
    trailingComma: TrailingComma,
    printWidth: nat,
    autoFormat: bool)

  /** The string a `Language` value is at run time. */
  function LanguageName(l: Language): string
  {
    match l
    case JavaScript => "javascript"
    case TypeScript => "typescript"
    case Html => "html"
    case Css => "css"
    case Json => "json"
    case Python => "python"
    case Xml => "xml"
    case Sql => "sql"
    case Yaml => "yaml"
    case Markdown => "markdown"
  }

  /** The `switch (language)` of formatCode: which case label, if any, a run-time string selects. */
  function LanguageFromName(name: string): (r: Option<Language>)
    ensures r.Some? ==> LanguageName(r.value) == name
    ensures r.None? ==> forall l :: LanguageName(l) != name
  {
    if name == "javascript" then Some(JavaScript)
    else if name == "typescript" then Some(TypeScript)
    else if name == "html" then Some(Html)
    else if name == "css" then Some(Css)
    else if name == "json" then Some(Json)
    else if name == "python" then Some(Python)
    else if name == "xml" then Some(Xml)
    else if name == "sql" then Some(Sql)
    else if name == "yaml" then Some(Yaml)
    else if name == "markdown" then Some(Markdown)
    else None
  }
}
