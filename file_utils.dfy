/** `getFileExtension` of src/utils/fileUtils.ts, and the extension table App uses when it
    offers the formatted text for download. */
module FileUtils {
  import opened Types

  /** The `extensions` record of getFileExtension. */
  const Extensions: map<string, string> := map[
    "javascript" := "js", "typescript" := "ts", "html" := "html", "css" := "css",
    "json" := "json", "python" := "py", "xml" := "xml", "sql" := "sql",
    "yaml" := "yaml", "markdown" := "md"]

  /** The `fileExtensions` record of App's download handler, typed by `Language`. */
  function DownloadExtension(language: Language): string
  {
    match language
    case JavaScript => "js"
    case TypeScript => "ts"
    case Html => "html"
    case Css => "css"
    case Json => "json"
    case Python => "py"
    case Xml => "xml"
    case Sql => "sql"
    case Yaml => "yaml"
    case Markdown => "md"
  }

  /** `extensions[language] || 'txt'`: a missing entry, and an empty one, fall back to "txt".
      Names are matched exactly, so `"JavaScript"` is not a language name. */
  function FileExtension(language: string): (ext: string)
    ensures ext != ""
    ensures ext == "txt" <==> LanguageFromName(language).None?
    ensures forall l :: language == LanguageName(l) ==> ext == DownloadExtension(l)
  {
    if language in Extensions && Extensions[language] != "" then Extensions[language] else "txt"
  }
}
