/** `formatCode` of src/utils/formatters.ts: leave blank text alone, otherwise dispatch on the
    language name, and turn every failure inside the switch into one error message. The
    libraries it calls are parameters: prettier, js-beautify's `html_beautify` and `JSON.parse`. */
module Formatters {
  import opened Wrappers
  import opened Types
  import opened Text
  import PythonFormat
  import SqlFormat
  import JsonText

  /** What a `catch` clause receives: an `Error` object, or some other thrown value. */
  datatype Thrown = ErrorObject(message: string) | OtherValue

  /** How a call into a library ends: with a string, or by throwing. */
  datatype Outcome = Returned(text: string) | Threw(thrown: Thrown)

  /** The parser (and with it the plugin) prettier is asked to use. */
  datatype PrettierParser = Babel | TypeScriptParser | HtmlParser | CssParser | YamlParser | MarkdownParser

  /** The options object handed to `prettier.format`; `None` marks a key the call leaves out. */
  datatype PrettierOptions = PrettierOptions(
    parser: PrettierParser,
    tabWidth: nat,
    useTabs: bool,
    semi: Option<bool>,
    singleQuote: Option<bool>,
    trailingComma: Option<TrailingComma>,
    printWidth: nat,
    htmlWhitespaceSensitivity: Option<string>,
    proseWrap: Option<string>)

  /** The options object handed to `html_beautify` for XML. */
  datatype BeautifyOptions = BeautifyOptions(
    indentSize: nat,
    indentChar: char,
    maxPreserveNewlines: nat,
    preserveNewlines: bool,
    keepArrayIndentation: bool,
    breakChainedMethods: bool,
    indentScripts: string,
    braceStyle: string,
    spaceBeforeConditional: bool,
    unescapeStrings: bool,
    jslintHappy: bool,
    endWithNewline: bool,
    wrapLineLength: nat,
    indentInnerHtml: bool,
    commaFirst: bool,
    e4x: bool,
    indentEmptyLines: bool)

  /** The code formatCode calls but does not contain: `prettier.format` (awaited),
      `html_beautify`, and `JSON.parse`, which yields a value or throws. */
  datatype Engines = Engines(
    prettier: (string, PrettierOptions) -> Outcome,
    htmlBeautify: (string, BeautifyOptions) -> Outcome,
    jsonParse: string -> Option<JsonText.JsonValue>)

  const FailurePrefix: string := "Formatting failed: "

  /** The message thrown by the `json` case when parsing fails. */
  const InvalidJson: string := "Invalid JSON syntax"

  /** `error instanceof Error ? error.message : 'Unknown error'`. */
  function Message(e: Thrown): string
  {
    match e
    case ErrorObject(m) => m
    case OtherValue => "Unknown error"
  }

  /** A library call's result passed through the outer `catch`: a returned string unchanged, a
      thrown value as a failure whose message is the prefix and the thrown message. */
  predicate Wrapped(o: Outcome, r: Result<string, string>)
  {
    match o
    case Returned(t) => r == Success(t)
    case Threw(e) => r == Failure(FailurePrefix + Message(e))
  }

  /** The outer `catch`: a thrown value becomes an error with the prefixed message. */
  function Rethrow(o: Outcome): (r: Result<string, string>)
    ensures o.Returned? ==> r == Success(o.text)
    ensures o.Threw? ==> r == Failure(FailurePrefix + Message(o.thrown))
    ensures r.Failure? ==> StartsWith(r.error, FailurePrefix)
  {
    match o
    case Returned(t) => Success(t)
    case Threw(e) => Failure(FailurePrefix + Message(e))
  }

  /** The options formatCode passes to prettier for `language`, or `None` for a language it
      does not send to prettier. */
  function PrettierCall(language: Language, s: FormatterSettings): (r: Option<PrettierOptions>)
    ensures r.Some? <==> language in {JavaScript, TypeScript, Html, Css, Yaml, Markdown}
    ensures language == JavaScript ==> r.Some? && r.value.parser == Babel
    ensures language == TypeScript ==> r.Some? && r.value.parser == TypeScriptParser
    ensures language == Html ==> r.Some? && r.value.parser == HtmlParser
    ensures language == Css ==> r.Some? && r.value.parser == CssParser
    ensures language == Yaml ==> r.Some? && r.value.parser == YamlParser
    ensures language == Markdown ==> r.Some? && r.value.parser == MarkdownParser
    ensures r.Some? ==>
      && r.value.tabWidth == s.tabWidth && r.value.useTabs == s.useTabs
      && r.value.printWidth == s.printWidth
    ensures r.Some? && language in {JavaScript, TypeScript} ==>
      && r.value.semi == Some(s.semicolons) && r.value.singleQuote == Some(s.singleQuote)
      && r.value.trailingComma == Some(s.trailingComma)
    ensures r.Some? && language !in {JavaScript, TypeScript} ==>
      r.value.semi.None? && r.value.singleQuote.None? && r.value.trailingComma.None?
    ensures r.Some? ==> r.value.htmlWhitespaceSensitivity == if language == Html then Some("css") else None
    ensures r.Some? ==> r.value.proseWrap == if language == Markdown then Some("preserve") else None
  {
    match language
    case JavaScript => Some(ScriptOptions(Babel, s))
    case TypeScript => Some(ScriptOptions(TypeScriptParser, s))
    case Html => Some(LayoutOptions(HtmlParser, s).(htmlWhitespaceSensitivity := Some("css")))
    case Css => Some(LayoutOptions(CssParser, s))
    case Yaml => Some(LayoutOptions(YamlParser, s))
    case Markdown => Some(LayoutOptions(MarkdownParser, s).(proseWrap := Some("preserve")))
    case _ => None
  }

  /** The options of the javascript and typescript cases. */
  function ScriptOptions(parser: PrettierParser, s: FormatterSettings): PrettierOptions
  {
    PrettierOptions(parser, s.tabWidth, s.useTabs, Some(s.semicolons), Some(s.singleQuote),
                    Some(s.trailingComma), s.printWidth, None, None)
  }

  /** The options shared by the html, css, yaml and markdown cases. */
  function LayoutOptions(parser: PrettierParser, s: FormatterSettings): PrettierOptions
  {
    PrettierOptions(parser, s.tabWidth, s.useTabs, None, None, None, s.printWidth, None, None)
  }

  /** The options of the xml case. */
  function XmlOptions(s: FormatterSettings): (o: BeautifyOptions)
    ensures o.indentSize == s.tabWidth && o.wrapLineLength == s.printWidth
    ensures o.indentChar == (if s.useTabs then '\t' else ' ')
    ensures o.maxPreserveNewlines == 2 && o.preserveNewlines
  {
    BeautifyOptions(
      indentSize := s.tabWidth,
      indentChar := if s.useTabs then '\t' else ' ',
      maxPreserveNewlines := 2,
      preserveNewlines := true,
      keepArrayIndentation := false,
      breakChainedMethods := false,
      indentScripts := "normal",
      braceStyle := "collapse",
      spaceBeforeConditional := true,
      unescapeStrings := false,
      jslintHappy := false,
      endWithNewline := false,
      wrapLineLength := s.printWidth,
      indentInnerHtml := false,
      commaFirst := false,
      e4x := false,
      indentEmptyLines := false)
  }

  /** The json case: parse, then print with the indent unit as the `space` argument; a parse
      failure throws 'Invalid JSON syntax', which the outer catch prefixes like any other. */
  function FormatJson(code: string, settings: FormatterSettings, engines: Engines): Result<string, string>
  {
    match engines.jsonParse(code)
    case Some(v) => Success(JsonText.Stringify(v, IndentUnit(settings)))
    case None => Rethrow(Threw(ErrorObject(InvalidJson)))
  }

  /** The `switch` of formatCode for a language it lists, on text that is not blank. */
  function Dispatch(code: string, l: Language, settings: FormatterSettings, engines: Engines): (r: Result<string, string>)
    ensures r.Failure? ==> StartsWith(r.error, FailurePrefix)
    ensures l == Json ==>
      && (r.Failure? <==> engines.jsonParse(code).None?)
      && (r.Failure? ==> r.error == FailurePrefix + InvalidJson)
      && (r.Success? ==> r.value == JsonText.Stringify(engines.jsonParse(code).value, IndentUnit(settings)))
    ensures PrettierCall(l, settings).Some? ==> Wrapped(engines.prettier(code, PrettierCall(l, settings).value), r)
    ensures l == Xml ==> Wrapped(engines.htmlBeautify(code, XmlOptions(settings)), r)
    ensures l == Python ==> r == Success(PythonFormat.Formatted(code, IndentUnit(settings)))
    ensures l == Sql ==> r == Success(SqlFormat.SqlFormatted(code, IndentUnit(settings)))
  {
    var prettierOptions := PrettierCall(l, settings);
    if prettierOptions.Some? then Rethrow(engines.prettier(code, prettierOptions.value))
    else
      match l
      case Json => FormatJson(code, settings, engines)
      case Python => Success(PythonFormat.Formatted(code, IndentUnit(settings)))
      case Xml => Rethrow(engines.htmlBeautify(code, XmlOptions(settings)))
      case Sql => Success(SqlFormat.SqlFormatted(code, IndentUnit(settings)))
  }

  /** The four names whose cases do not call prettier select their own languages. */
  lemma BespokeNames()
    ensures LanguageFromName("json") == Some(Json) && LanguageFromName("xml") == Some(Xml)
    ensures LanguageFromName("python") == Some(Python) && LanguageFromName("sql") == Some(Sql)
  {
  }

  /** formatCode. The language arrives as a string: the switch compares strings, and any
      string it does not list takes the `default` case. */
  function FormatCode(code: string, language: string, settings: FormatterSettings, engines: Engines): (r: Result<string, string>)
    ensures IsBlank(code) ==> r == Success(code)
    ensures LanguageFromName(language).None? ==> r == Success(code)
    ensures r.Failure? ==> StartsWith(r.error, FailurePrefix)
    ensures language in {"python", "sql"} ==> r.Success?
    ensures language == "json" && !IsBlank(code) ==>
      && (r.Failure? <==> engines.jsonParse(code).None?)
      && (r.Failure? ==> r.error == FailurePrefix + InvalidJson)
      && (r.Success? ==> r.value == JsonText.Stringify(engines.jsonParse(code).value, IndentUnit(settings)))
    ensures (!IsBlank(code) && LanguageFromName(language).Some? &&
             PrettierCall(LanguageFromName(language).value, settings).Some?) ==>
      Wrapped(engines.prettier(code, PrettierCall(LanguageFromName(language).value, settings).value), r)
    ensures language == "xml" && !IsBlank(code) ==> Wrapped(engines.htmlBeautify(code, XmlOptions(settings)), r)
    ensures language == "python" && !IsBlank(code) ==> r == Success(PythonFormat.Formatted(code, IndentUnit(settings)))
    ensures language == "sql" && !IsBlank(code) ==> r == Success(SqlFormat.SqlFormatted(code, IndentUnit(settings)))
  {
    BespokeNames();
    if IsBlank(code) then Success(code)
    else
      match LanguageFromName(language)
      case None => Success(code)
      case Some(l) => Dispatch(code, l, settings, engines)
  }
}
