# Code beautifier: formatting core

A Dafny model of the text-formatting core of a browser code beautifier.
`formatCode` (src/utils/formatters.ts) takes source text, a language name and the
user's formatter settings. It leaves blank text alone. Otherwise it dispatches on the
language:

- javascript, typescript, html, css, yaml and markdown go to prettier;
- xml goes to js-beautify's `html_beautify`;
- json goes to `JSON.parse` followed by `JSON.stringify`;
- python and sql go to two hand-written line-based re-indenters.

Every exception raised inside the dispatch comes out as one error whose message starts with
`"Formatting failed: "`. The model also covers `getFileExtension` (src/utils/fileUtils.ts),
the table from language name to file extension.

Modules:

- `Wrappers`: `Option` and `Result`.
- `Types`: the `Language` union and the `FormatterSettings` record of src/types/index.ts.
- `Text`: the JavaScript string operations the formatters use (`trim`, `split('\n')`,
  `join('\n')`, `startsWith`, `repeat`), with their properties.
- `PythonFormat`: `formatPython` as a method with a loop over the lines and a running indent
  level, proved equal to a closed-form specification. Lemmas about that specification give the
  line shape and show that the level never decreases.
- `PythonExamples`: the if/else example worked through on concrete lines and on the whole text.
- `SqlFormat`: `formatSQL` as a method with the keyword-substitution loop, proved equal to a
  specification. Lemmas cover the line shape, the AND/OR indent rule and the substitution
  order, and show that only whitespace and letter case change.
- `SqlExamples`: `select * from t where a=1 and b=2` worked through every substitution pass
  and the line layout.
- `JsonText`: `JSON.stringify(value, null, space)` for the values `JSON.parse` yields, as
  section 25.5.2 of ECMA-262 defines it. A number that overflows to `Infinity` or `-Infinity`
  is written as `null`.
- `Formatters`: `formatCode` as a total function returning `Result<string, string>`. Prettier,
  `html_beautify` and `JSON.parse` are parameters (`Engines`).
- `FileUtils`: `getFileExtension` and the download table of the App component.

Notes on the code's behaviour:

- The json case throws `'Invalid JSON syntax'` inside the outer `try`. The caller therefore
  sees `"Formatting failed: Invalid JSON syntax"`, not the bare message.
- In `formatPython`, the dedent pattern `^(except|elif|else|finally):` needs the colon right
  after the keyword. A matching line returns early at line 141, before the level is updated,
  so the decrement at lines 156-158 is never reached and the level never decreases. `elif x:`
  and `except E:` are ordinary lines that open a block.
- In `formatSQL`, the AND/OR test `/^(AND|OR)/i` is a prefix test with no word boundary, so
  `ORDER BY` lines (and `Android`) are indented as well. AND and OR are not in the keyword
  list, so the substitutions never move them onto a new line:
  `select * from t where a=1 and b=2` becomes three lines, and `and b=2` stays on the WHERE line.
- JOIN is substituted before INNER JOIN, LEFT JOIN and RIGHT JOIN. `inner join` is therefore
  cut into `inner` and `JOIN`, and the later multi-word patterns never match.

Characters are Unicode scalar values. Case-insensitive matching of the ASCII keywords without
the `u` flag amounts to folding `a`..`z` to `A`..`Z`: under that flag no other character
canonicalizes into the ASCII range. `\b` and `\w` are ASCII-only.

## Model

| member | source | states |
|---|---|---|
| Types.LanguageFromName | src/types/index.ts:1-11 | a run-time string selects a `Language` exactly when it is that language's name; every other string selects none |
| Text.TrimSpec | src/utils/formatters.ts:133 | `trim()` is a contiguous slice of the input with only whitespace before and after it; it is empty exactly for blank text, starts and ends with non-whitespace, keeps every non-whitespace character and adds no newline |
| Text.IndentUnit | src/utils/formatters.ts:130 | the indent unit is one tab when `useTabs`, otherwise exactly `tabWidth` spaces; it is whitespace and holds no newline |
| Text.LinesOfUnlines | src/utils/formatters.ts:163 | joining newline-free lines with `'\n'` and splitting again gives the same lines back |
| Text.UnlinesOfLines | src/utils/formatters.ts:128 | splitting on `'\n'` and joining with `'\n'` gives the text back |
| PythonFormat.FormatPython | src/utils/formatters.ts:126-164 | the per-line loop with the mutable `indentLevel` returns exactly the specified re-indentation, for any text and settings (it never fails) |
| PythonFormat.FormatLine | src/utils/formatters.ts:132-161 | the `lines.map` callback on one line returns that line re-indented at the current level and raises the level by one exactly when the line opens a block |
| PythonFormat.PythonLines | src/utils/formatters.ts:128-163 | the output has as many lines as the input; line i is the trimmed input line behind 0 units if blank or a comment, behind max(0, level-1) units if it matches the dedent pattern, and behind `level` units otherwise, where `level` counts the block openers above it |
| PythonFormat.LevelStep | src/utils/formatters.ts:139-158 | a line raises the level by exactly one when it is not blank, not a comment, not a dedent or flow-control match and ends in `:`; dedent and flow-control lines leave it unchanged |
| PythonFormat.LevelMonotone | src/utils/formatters.ts:139-158 | the level at a later line is never below the level at an earlier line |
| PythonFormat.PythonKeepsText | src/utils/formatters.ts:132-163 | re-indenting changes only whitespace: the output's non-whitespace characters are the input's, in order |
| PythonExamples.IfElseFixed | src/utils/formatters.ts:139-153 | an if/else block already indented one unit is reproduced unchanged: `else:` at level 0, the bodies at level 1 |
| PythonExamples.IfElseText | src/utils/formatters.ts:126-164 | formatPython with a two-space unit returns the text `if x:\n  y\nelse:\n  z` unchanged |
| SqlFormat.FormatSql | src/utils/formatters.ts:166-191 | the keyword loop that reassigns `formatted`, followed by the line layout, returns exactly the specified text, built from the substitutions applied in list order |
| SqlFormat.ReplaceAll | src/utils/formatters.ts:174-181 | the `keywords.forEach` loop leaves `formatted` as the input with each keyword's global replace applied in list order, each on the previous result |
| SqlFormat.ReplaceWordNoMatch | src/utils/formatters.ts:179-180 | a global replace whose pattern matches nowhere leaves the text unchanged |
| SqlFormat.RelocatedNoMatch | src/utils/formatters.ts:178-181 | text in which no keyword matches comes through every substitution pass unchanged |
| SqlFormat.IdentifierUntouched | src/utils/formatters.ts:179-180 | `TABLE` inside the identifier `my_table` is no whole word and is not replaced |
| SqlFormat.InnerJoinSplit | src/utils/formatters.ts:168-181 | the JOIN pass turns `inner join` into `inner \nJOIN`, and the later INNER JOIN pass then finds nothing |
| SqlFormat.RelocatedKeepsText | src/utils/formatters.ts:178-181 | the substitutions only insert newlines and change letter case: the case-folded non-whitespace text is unchanged |
| SqlFormat.KeptLinesShape | src/utils/formatters.ts:184 | after trimming and dropping empty lines, every line is non-empty and trimmed, and together they keep all non-whitespace characters |
| SqlFormat.SqlLines | src/utils/formatters.ts:184-190 | for non-blank input: one output line per kept line, none empty; the first is never indented; a later line gets one indent unit exactly when it starts with AND or OR in any case (so `ORDER BY` lines too) |
| SqlFormat.SqlNoKeywords | src/utils/formatters.ts:174-190 | single-line text with no keyword match comes back as its trimmed self |
| SqlFormat.SqlKeepsText | src/utils/formatters.ts:166-191 | formatSQL changes only whitespace and the case of letters |
| SqlExamples.SampleRelocated | src/utils/formatters.ts:168-181 | the substitution passes turn `select * from t where a=1 and b=2` into `\nSELECT * \nFROM t \nWHERE a=1 and b=2`: only SELECT, FROM and WHERE match, and no later keyword does |
| SqlExamples.SampleFormatted | src/utils/formatters.ts:166-191 | formatSQL turns `select * from t where a=1 and b=2` into `SELECT *\nFROM t\nWHERE a=1 and b=2`, for any indent unit: `and` stays on the WHERE line and no line is indented |
| JsonText.Gap | src/utils/formatters.ts:66 | the `space` argument is cut to its first ten characters |
| JsonText.UnescapeEscape | src/utils/formatters.ts:66 | reading back a string as `JSON.stringify` quotes it gives the original characters |
| JsonText.CompactIsOneLine | src/utils/formatters.ts:66 | with an empty indent unit (tab width 0, no tabs) the serialized value holds no newline |
| JsonText.KeyOrderKept | src/utils/formatters.ts:66 | `{"b":1,"a":2}` with a two-space indent is written as `{\n  "b": 1,\n  "a": 2\n}`: members keep their order, one per line, behind one indent unit |
| JsonText.OverflowIsNull | src/utils/formatters.ts:66 | the non-finite numbers `Infinity` and `-Infinity` are written as `null` |
| Formatters.Rethrow | src/utils/formatters.ts:121-123 | a returned string passes through; a thrown value becomes `"Formatting failed: "` plus its message, or `'Unknown error'` if it is no `Error` |
| Formatters.PrettierCall | src/utils/formatters.ts:20-88 | exactly the six prettier languages get options; javascript uses the babel parser, typescript typescript, html html, css css, yaml yaml and markdown markdown; all of them get tabWidth, useTabs and printWidth; only javascript and typescript get semi, singleQuote and trailingComma; html gets `htmlWhitespaceSensitivity 'css'`, markdown `proseWrap 'preserve'` |
| Formatters.XmlOptions | src/utils/formatters.ts:95-113 | xml gets indent_size = tabWidth, indent_char tab or space by useTabs, wrap_line_length = printWidth, and keeps up to 2 blank lines |
| Formatters.Dispatch | src/utils/formatters.ts:19-120 | for a listed language: prettier and html_beautify outcomes are passed through or wrapped; json fails exactly when parsing fails, with `"Formatting failed: Invalid JSON syntax"`; python and sql succeed with their re-indenters' output; every failure carries the prefix |
| Formatters.FormatCode | src/utils/formatters.ts:11-124 | blank text and unknown language names come back unchanged; every failure starts with `"Formatting failed: "`; invalid JSON fails with exactly `"Formatting failed: Invalid JSON syntax"` and valid JSON is stringified with the indent unit; prettier and html_beautify outcomes are passed through or wrapped; python and sql never fail and return their re-indenters' output |
| FileUtils.FileExtension | src/utils/fileUtils.ts:17-32 | the ten language names map to js, ts, html, css, json, py, xml, sql, yaml and md, matching the App download table; any other string, such as `JavaScript`, gives `txt`; the result is never empty |

## Left out

- The bodies of `prettier.format` and `html_beautify`: third-party code. Both are parameters
  that return a string or throw.
- `JSON.parse`: an engine built-in, modelled as a parameter that yields a value or nothing.
  Numbers are carried as the text `Number::toString` gives for them, so number formatting is
  not modelled.
- JSON idempotence: nothing in the code promises it.
- `async`/`await`: promise plumbing with no effect on the result.
- The auto-format debounce: it depends on timing and is not formatting logic.
- The React components, the theme and the clipboard: UI, not formatting logic.
- `downloadFile` and `readFileAsText`: DOM, Blob and FileReader I/O.
- JavaScript numeric quirks. `tabWidth` is a `nat`, so a NaN or negative width (where
  `repeat` would throw a RangeError) cannot be expressed.
- The extension table is a finite map, so property names inherited through the prototype
  chain (`toString`) are not modelled.
- UTF-16 lone surrogates cannot be represented, because Dafny characters are Unicode scalar
  values.
