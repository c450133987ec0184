/** `formatPython` of src/utils/formatters.ts: a line-by-line re-indenter driven by one
    counter, the indent level, which starts at 0 and only ever grows. */
module PythonFormat {
  import opened Types
  import opened Text

  /** `trimmed.startsWith('#')`. */
  predicate IsComment(t: string)
  {
    StartsWith(t, "#")
  }

  /** `/^(except|elif|else|finally):/`: the colon must follow the keyword at once. */
  predicate IsDedent(t: string)
  {
    StartsWith(t, "except:") || StartsWith(t, "elif:") || StartsWith(t, "else:") || StartsWith(t, "finally:")
  }

  /** `/^(return|break|continue|pass|raise)/`: a bare prefix, no word boundary. */
  predicate IsFlow(t: string)
  {
    StartsWith(t, "return") || StartsWith(t, "break") || StartsWith(t, "continue") ||
    StartsWith(t, "pass") || StartsWith(t, "raise")
  }

  /** `/:\s*$/`: a colon followed by nothing but whitespace up to the end. */
  predicate EndsWithColon(t: string)
    decreases |t|
  {
    t != [] && (t[|t| - 1] == ':' || (IsSpace(t[|t| - 1]) && EndsWithColon(t[..|t| - 1])))
  }

  /** A line after which the level goes up by one: not blank, not a comment, not matched by the
      dedent or the flow-control pattern, and ending in a colon. */
  predicate OpensBlock(line: string)
  {
    var t := Trim(line);
    t != [] && !IsComment(t) && !IsDedent(t) && !IsFlow(t) && EndsWithColon(t)
  }

  /** The indent level once the first `n` lines have been processed: how many of them opened a
      block. */
  function Level(lines: seq<string>, n: nat): nat
    requires n <= |lines|
  {
    if n == 0 then 0 else Level(lines, n - 1) + (if OpensBlock(lines[n - 1]) then 1 else 0)
  }

  /** How many indent units precede the trimmed line `t` when the level is `level`. */
  function Shown(level: nat, t: string): nat
  {
    if t == [] || IsComment(t) then 0
    else if IsDedent(t) then (if level > 0 then level - 1 else 0)
    else level
  }

  /** The output line for `line` at level `level`. */
  function Render(unit: string, level: nat, line: string): string
  {
    var t := Trim(line);
    Repeat(unit, Shown(level, t)) + t
  }

  /** The first `n` output lines: line j rendered at the number of block openers above it. */
  function RenderedLines(unit: string, lines: seq<string>, n: nat): (r: seq<string>)
    requires n <= |lines|
    ensures |r| == n
  {
    seq(n, j requires 0 <= j < n => Render(unit, Level(lines, j), lines[j]))
  }

  /** What formatPython returns. */
  function Formatted(code: string, unit: string): string
  {
    var lines := Lines(code);
    Unlines(RenderedLines(unit, lines, |lines|))
  }

  /** formatPython: one pass over the lines with a running indent level. */
  method FormatPython(code: string, settings: FormatterSettings) returns (r: string)
    ensures r == Formatted(code, IndentUnit(settings))
  {
    var lines := Lines(code);
    var indentLevel: nat := 0;
    var indentStr := IndentUnit(settings);
    var formattedLines: seq<string> := [];
    for i := 0 to |lines|
      invariant indentLevel == Level(lines, i)
      invariant formattedLines == RenderedLines(indentStr, lines, i)
    {
      var line;
      line, indentLevel := FormatLine(lines[i], indentLevel, indentStr);
      formattedLines := formattedLines + [line];
    }
    r := Unlines(formattedLines);
  }

  /** The callback `lines.map` runs on one line: it returns the re-indented line and leaves the
      indent level one higher exactly when the line opens a block. */
  method FormatLine(raw: string, indentLevel: nat, indentStr: string) returns (line: string, next: nat)
    ensures line == Render(indentStr, indentLevel, raw)
    ensures next == indentLevel + (if OpensBlock(raw) then 1 else 0)
  {
    var trimmed := Trim(raw);
    next := indentLevel;
    if trimmed == [] || IsComment(trimmed) {
      line := trimmed;
    } else if IsDedent(trimmed) {
      line := Repeat(indentStr, if indentLevel > 0 then indentLevel - 1 else 0) + trimmed;
    } else if IsFlow(trimmed) {
      line := Repeat(indentStr, indentLevel) + trimmed;
    } else {
      line := Repeat(indentStr, indentLevel) + trimmed;
      if EndsWithColon(trimmed) {
        next := indentLevel + 1;
      }
    }
  }

  /** The output has one line per input line; line i is the trimmed input line behind
      max(0, level - 1) units if it matches the dedent pattern, behind no unit if it is blank or
      a comment, and behind `level` units otherwise, `level` counting the openers above it. */
  lemma PythonLines(code: string, unit: string)
    requires '\n' !in unit
    ensures var ins, outs := Lines(code), Lines(Formatted(code, unit));
      && |outs| == |ins|
      && forall i :: 0 <= i < |ins| ==>
           var t, level := Trim(ins[i]), Level(ins, i);
           && (t == [] || IsComment(t) ==> outs[i] == t)
           && (t != [] && !IsComment(t) && IsDedent(t) ==>
                 outs[i] == Repeat(unit, if level > 0 then level - 1 else 0) + t)
           && (t != [] && !IsComment(t) && !IsDedent(t) ==> outs[i] == Repeat(unit, level) + t)
  {
    var ins := Lines(code);
    var rendered := RenderedLines(unit, ins, |ins|);
    forall i | 0 <= i < |rendered| ensures '\n' !in rendered[i] {
      var t := Trim(ins[i]);
      var pad := Repeat(unit, Shown(Level(ins, i), t));
      assert rendered[i] == pad + t;
    }
    LinesOfUnlines(rendered);
  }

  /** The level never goes down: a later line is never at a lower level than an earlier one. */
  lemma {:induction false} LevelMonotone(lines: seq<string>, i: nat, j: nat)
    requires i <= j <= |lines|
    ensures Level(lines, i) <= Level(lines, j)
    decreases j - i
  {
    if i < j {
      LevelMonotone(lines, i, j - 1);
    }
  }

  /** Each line raises the level by exactly one if it opens a block and leaves it alone
      otherwise; dedent-pattern and flow-control lines never change it, even when they end in a
      colon. The first clause is Level's own defining step; what ties it to the program is
      FormatLine's contract, which gives the loop's `indentLevel` exactly this step. */
  lemma LevelStep(lines: seq<string>, i: nat)
    requires i < |lines|
    ensures Level(lines, i + 1) == Level(lines, i) + (if OpensBlock(lines[i]) then 1 else 0)
    ensures IsDedent(Trim(lines[i])) ==> Level(lines, i + 1) == Level(lines, i)
    ensures IsFlow(Trim(lines[i])) ==> Level(lines, i + 1) == Level(lines, i)
  {
  }

  /** Re-indenting only moves whitespace: the non-whitespace characters are those of the input. */
  lemma PythonKeepsText(code: string, unit: string)
    requires IsBlank(unit)
    ensures Visible(Formatted(code, unit)) == Visible(code)
  {
    var ins := Lines(code);
    var rendered := RenderedLines(unit, ins, |ins|);
    forall i | 0 <= i < |ins| ensures Visible(rendered[i]) == Visible(ins[i]) {
      var t := Trim(ins[i]);
      var k := Shown(Level(ins, i), t);
      TrimSpec(ins[i]);
      VisibleAppend(Repeat(unit, k), t);
      RepeatBlank(unit, k);
    }
    VisibleUnlines(rendered);
    VisibleUnlines(ins);
    VisibleAllPointwise(rendered, ins);
    UnlinesOfLines(code);
  }
}
