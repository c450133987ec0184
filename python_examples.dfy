/** Worked examples of formatPython (src/utils/formatters.ts:126-164) on concrete text. */
module PythonExamples {
  import opened Text
  import opened PythonFormat

  /** A string whose first character differs from that of `p` does not start with `p`. */
  lemma FirstDiffers(s: string, p: string)
    requires s != [] && p != [] && s[0] != p[0]
    ensures !StartsWith(s, p)
  {
    if |p| <= |s| { assert s[..|p|][0] == s[0]; }
  }

  /** A trimmed line that starts with none of `#`, `e`, `f`, `r`, `b`, `c`, `p` is neither a
      comment nor matched by the dedent or the flow-control pattern. */
  lemma PlainLine(t: string)
    requires t != [] && t[0] !in "#efrbcp"
    ensures !IsComment(t) && !IsDedent(t) && !IsFlow(t)
  {
    FirstDiffers(t, "#");
    FirstDiffers(t, "except:");
    FirstDiffers(t, "elif:");
    FirstDiffers(t, "else:");
    FirstDiffers(t, "finally:");
    FirstDiffers(t, "return");
    FirstDiffers(t, "break");
    FirstDiffers(t, "continue");
    FirstDiffers(t, "pass");
    FirstDiffers(t, "raise");
  }

  /** An if/else block already laid out with one unit of indent is rendered unchanged: a header
      line that opens a block at level 0, a body line one unit in, a dedent line such as `else:`
      at level 1 - 1 = 0, and another body line one unit in. */
  lemma IfElseFixed(unit: string, ins: seq<string>)
    requires |ins| == 4
    requires Trim(ins[0]) == ins[0] && OpensBlock(ins[0])
    requires OneUnitIn(unit, ins[1]) && !OpensBlock(ins[1])
    requires Trim(ins[2]) == ins[2] && ins[2] != [] && !IsComment(ins[2]) && IsDedent(ins[2])
    requires OneUnitIn(unit, ins[3])
    ensures RenderedLines(unit, ins, |ins|) == ins
  {
    IfElseLevels(ins);
    RenderHeader(unit, Level(ins, 0), ins[0]);
    RenderBody(unit, Level(ins, 1), ins[1]);
    RenderDedent(unit, Level(ins, 2), ins[2]);
    RenderBody(unit, Level(ins, 3), ins[3]);
    RenderedUnchanged(unit, ins);
  }

  /** `line` is an ordinary statement (not blank, not a comment, not a dedent line) behind
      exactly one indent unit. */
  predicate OneUnitIn(unit: string, line: string)
  {
    var t := Trim(line);
    line == unit + t && t != [] && !IsComment(t) && !IsDedent(t)
  }

  /** The levels before each line of the block: the header raises the level to 1 and neither the
      body nor the dedent line changes it. */
  lemma IfElseLevels(ins: seq<string>)
    requires |ins| == 4 && OpensBlock(ins[0]) && !OpensBlock(ins[1]) && IsDedent(Trim(ins[2]))
    ensures Level(ins, 0) == 0 && Level(ins, 1) == 1 && Level(ins, 2) == 1 && Level(ins, 3) == 1
  {
    assert ins[..0] == [];
    LevelStep(ins, 0);
    LevelStep(ins, 1);
    LevelStep(ins, 2);
  }

  /** A trimmed header at level 0 is written as it is. */
  lemma RenderHeader(unit: string, level: nat, line: string)
    requires level == 0 && Trim(line) == line
    ensures Render(unit, level, line) == line
  {
  }

  /** A statement at level 1 is written behind one unit. */
  lemma RenderBody(unit: string, level: nat, line: string)
    requires level == 1 && OneUnitIn(unit, line)
    ensures Render(unit, level, line) == line
  {
    assert Repeat(unit, 1) == unit + "";
  }

  /** A trimmed dedent line at level 1 is written flush left. */
  lemma RenderDedent(unit: string, level: nat, line: string)
    requires level == 1 && Trim(line) == line && line != [] && !IsComment(line) && IsDedent(line)
    ensures Render(unit, level, line) == line
  {
  }

  /** Four lines that each render to themselves are rendered unchanged. */
  lemma RenderedUnchanged(unit: string, ins: seq<string>)
    requires |ins| == 4
    requires Render(unit, Level(ins, 0), ins[0]) == ins[0] && Render(unit, Level(ins, 1), ins[1]) == ins[1]
    requires Render(unit, Level(ins, 2), ins[2]) == ins[2] && Render(unit, Level(ins, 3), ins[3]) == ins[3]
    ensures RenderedLines(unit, ins, |ins|) == ins
  {
    var outs := RenderedLines(unit, ins, |ins|);
    forall j | 0 <= j < 4 ensures outs[j] == ins[j] {
      assert j == 0 || j == 1 || j == 2 || j == 3;
    }
  }

  /** `if x:` opens a block. */
  lemma IfOpens(line: string)
    requires line == "if x:"
    ensures Trim(line) == line && OpensBlock(line)
  {
    TrimOfTrimmed(line);
    PlainLine(line);
  }

  /** A one-letter body line behind two spaces is that letter behind one two-space unit, and
      opens nothing. */
  lemma BodyLine(unit: string, line: string)
    requires unit == "  " && |line| == 3 && line[..2] == unit && line[2] !in "#efrbcp:" && !IsSpace(line[2])
    ensures OneUnitIn(unit, line) && !OpensBlock(line)
  {
    var c := line[2];
    assert line == unit + [c];
    TrimOf(unit, [c]);
    PlainLine([c]);
  }

  /** `else:` matches the dedent pattern. */
  lemma ElseLine(line: string)
    requires line == "else:"
    ensures Trim(line) == line && line != [] && !IsComment(line) && IsDedent(line)
  {
    TrimOfTrimmed(line);
    assert StartsWith(line, "else:");
    FirstDiffers(line, "#");
  }

  /** The four lines of the if/else block joined with newlines. */
  lemma IfElseJoined(ins: seq<string>)
    requires ins == ["if x:", "  y", "else:", "  z"]
    ensures Unlines(ins) == "if x:\n  y\nelse:\n  z"
  {
    assert ins[1..] == ["  y", "else:", "  z"];
    assert ins[1..][1..] == ["else:", "  z"];
    assert Unlines(["else:", "  z"]) == "else:\n  z" by {
      assert ["else:", "  z"][1..] == ["  z"];
    }
    assert Unlines(["  y", "else:", "  z"]) == "  y\nelse:\n  z" by {
      assert ["  y", "else:", "  z"][1..] == ["else:", "  z"];
    }
  }

  /** Each line of the if/else block renders to itself. */
  lemma IfElseRendered(ins: seq<string>)
    requires ins == ["if x:", "  y", "else:", "  z"]
    ensures RenderedLines("  ", ins, |ins|) == ins
  {
    IfOpens(ins[0]);
    BodyLine("  ", ins[1]);
    ElseLine(ins[2]);
    BodyLine("  ", ins[3]);
    IfElseFixed("  ", ins);
  }

  /** The if/else block `if x:` / `  y` / `else:` / `  z` with a two-space indent comes back
      exactly as it went in. */
  lemma IfElseText()
    ensures Formatted("if x:\n  y\nelse:\n  z", "  ") == "if x:\n  y\nelse:\n  z"
  {
    var ins := ["if x:", "  y", "else:", "  z"];
    IfElseJoined(ins);
    assert forall i :: 0 <= i < |ins| ==> '\n' !in ins[i];
    LinesOfUnlines(ins);
    IfElseRendered(ins);
  }
}
