/** `formatSQL` of src/utils/formatters.ts: put a newline before every keyword of a fixed list,
    then trim the lines, drop the empty ones and indent those that start with AND or OR. */
module SqlFormat {
  import opened Types
  import opened Text

  /** The keyword list, in the order the substitutions run. */
  const Keywords: seq<string> := [
    "SELECT", "FROM", "WHERE", "JOIN", "INNER JOIN", "LEFT JOIN", "RIGHT JOIN",
    "GROUP BY", "ORDER BY", "HAVING", "INSERT", "UPDATE", "DELETE", "CREATE",
    "ALTER", "DROP", "INDEX", "TABLE", "DATABASE", "VIEW", "PROCEDURE", "FUNCTION"]

  /** `\w` of a regular expression without the `u` flag: ASCII letters, digits and `_`. */
  predicate IsWordChar(c: char)
  {
    'a' <= c <= 'z' || 'A' <= c <= 'Z' || '0' <= c <= '9' || c == '_'
  }

  /** The case folding of a case-insensitive pattern without the `u` flag, as far as it decides
      a match against ASCII pattern text: a..z fold to A..Z, and no other character folds into
      the ASCII range. */
  function Upper(c: char): char
  {
    if 'a' <= c <= 'z' then (c as int - 32) as char else c
  }

  /** A string with every character folded. */
  function Fold(s: string): string
  {
    seq(|s|, i requires 0 <= i < |s| => Upper(s[i]))
  }

  /** `\b` at position `p`: a word character on exactly one side. */
  predicate Boundary(s: string, p: nat)
    requires p <= |s|
  {
    (p > 0 && IsWordChar(s[p - 1])) != (p < |s| && IsWordChar(s[p]))
  }

  /** `new RegExp('\\b' + kw + '\\b', 'gi')` matches at position `p` of `s`. */
  predicate MatchAt(s: string, kw: string, p: nat)
  {
    && p + |kw| <= |s|
    && Boundary(s, p)
    && (forall j :: 0 <= j < |kw| ==> Upper(s[p + j]) == Upper(kw[j]))
    && Boundary(s, p + |kw|)
  }

  /** The global replace from position `p` on: the leftmost match is replaced by a newline and
      the keyword, and the search resumes after it. */
  function ReplaceFrom(s: string, kw: string, p: nat): string
    requires |kw| > 0
    decreases |s| - p
  {
    if p >= |s| then ""
    else if MatchAt(s, kw, p) then "\n" + kw + ReplaceFrom(s, kw, p + |kw|)
    else [s[p]] + ReplaceFrom(s, kw, p + 1)
  }

  /** `s.replace(new RegExp('\\b' + kw + '\\b', 'gi'), '\n' + kw)`. */
  function ReplaceWord(s: string, kw: string): string
    requires |kw| > 0
  {
    ReplaceFrom(s, kw, 0)
  }

  predicate AllNonEmpty(kws: seq<string>)
  {
    forall k :: 0 <= k < |kws| ==> |kws[k]| > 0
  }

  lemma KeywordsNonEmpty()
    ensures AllNonEmpty(Keywords)
  {
    forall k | 0 <= k < |Keywords| ensures |Keywords[k]| > 0 {
      assert |Keywords[k]| >= 2;
    }
  }

  /** The text after the substitutions for `kws`, applied one after the other in list order. */
  function Relocated(s: string, kws: seq<string>): string
    requires AllNonEmpty(kws)
  {
    if kws == [] then s else ReplaceWord(Relocated(s, kws[..|kws| - 1]), kws[|kws| - 1])
  }

  /** The text once the keyword loop has run over the whole list. */
  function KeywordsOnNewLines(code: string): string
  {
    KeywordsNonEmpty();
    Relocated(code, Keywords)
  }

  /** `lines.map(line => line.trim()).filter(line => line)`. */
  function KeptLines(lines: seq<string>): seq<string>
  {
    if lines == [] then []
    else
      var t := Trim(lines[0]);
      (if t == [] then [] else [t]) + KeptLines(lines[1..])
  }

  /** `s.toUpperCase().startsWith(p)` for an upper-case ASCII prefix `p`. */
  predicate StartsWithIgnoringCase(s: string, p: string)
  {
    |p| <= |s| && forall j :: 0 <= j < |p| ==> Upper(s[j]) == Upper(p[j])
  }

  /** `/^(AND|OR)/i`: a bare prefix test, so `ORDER BY` and `Android` pass too. */
  predicate IsConnective(line: string)
  {
    StartsWithIgnoringCase(line, "AND") || StartsWithIgnoringCase(line, "OR")
  }

  /** The index-aware map: every line but the first that passes IsConnective gets one unit. */
  function Indented(lines: seq<string>, unit: string): seq<string>
  {
    seq(|lines|, i requires 0 <= i < |lines| =>
      if i > 0 && IsConnective(lines[i]) then unit + lines[i] else lines[i])
  }

  /** What formatSQL returns. */
  function SqlFormatted(code: string, unit: string): string
  {
    Unlines(Indented(KeptLines(Lines(KeywordsOnNewLines(code))), unit))
  }

  /** formatSQL: the keyword loop rewrites `formatted` in place, then the lines are laid out. */
  method FormatSql(code: string, settings: FormatterSettings) returns (r: string)
    ensures r == SqlFormatted(code, IndentUnit(settings))
  {
    KeywordsNonEmpty();
    var formatted := ReplaceAll(code, Keywords);
    var indentStr := IndentUnit(settings);
    var lines := KeptLines(Lines(formatted));
    r := Unlines(Indented(lines, indentStr));
  }

  /** `keywords.forEach(keyword => { formatted = formatted.replace(...) })`: each keyword's
      substitution runs on the text the previous ones left. */
  method ReplaceAll(code: string, kws: seq<string>) returns (formatted: string)
    requires AllNonEmpty(kws)
    ensures formatted == Relocated(code, kws)
  {
    formatted := code;
    for k := 0 to |kws|
      invariant formatted == Relocated(code, kws[..k])
    {
      assert kws[..k + 1][..k] == kws[..k];
      formatted := ReplaceWord(formatted, kws[k]);
    }
    assert kws[..|kws|] == kws;
  }

  // ---------------------------------------------------------------------------------------
  // Properties of the keyword substitution

  /** Where the keyword never matches (inside `my_table`, say) the text is left as it is. */
  lemma {:induction false} ReplaceFromNoMatch(s: string, kw: string, p: nat)
    requires |kw| > 0 && p <= |s|
    requires forall q :: p <= q < |s| ==> !MatchAt(s, kw, q)
    ensures ReplaceFrom(s, kw, p) == s[p..]
    decreases |s| - p
  {
    if p < |s| {
      ReplaceFromNoMatch(s, kw, p + 1);
      assert s[p..] == [s[p]] + s[p + 1..];
    }
  }

  lemma ReplaceWordNoMatch(s: string, kw: string)
    requires |kw| > 0
    requires forall q :: 0 <= q < |s| ==> !MatchAt(s, kw, q)
    ensures ReplaceWord(s, kw) == s
  {
    ReplaceFromNoMatch(s, kw, 0);
  }

  /** Text in which no keyword of `kws` matches anywhere comes through all the substitutions
      unchanged. */
  lemma {:induction false} RelocatedNoMatch(s: string, kws: seq<string>)
    requires AllNonEmpty(kws)
    requires forall k, q :: 0 <= k < |kws| && 0 <= q < |s| ==> !MatchAt(s, kws[k], q)
    ensures Relocated(s, kws) == s
  {
    if kws != [] {
      RelocatedNoMatch(s, kws[..|kws| - 1]);
      ReplaceWordNoMatch(s, kws[|kws| - 1]);
    }
  }

  /** A keyword inside an identifier is no whole word: `\bTABLE\b` finds nothing in `my_table`,
      since `_` is a word character. */
  lemma IdentifierUntouched()
    ensures ReplaceWord("my_table", "TABLE") == "my_table"
  {
    var s, kw := "my_table", "TABLE";
    forall q | 0 <= q < |s| ensures !MatchAt(s, kw, q) {
      if q + |kw| <= |s| {
        assert q <= 3;
        if q == 3 { assert IsWordChar(s[2]) && IsWordChar(s[3]); }
        else { assert Upper(s[q]) != Upper(kw[0]); }
      }
    }
    ReplaceWordNoMatch(s, kw);
  }

  /** JOIN is substituted before INNER JOIN, so `inner join` is cut into `inner ` and `JOIN`
      and the INNER JOIN pass, which needs the single space, no longer finds it. */
  lemma InnerJoinSplit()
    ensures ReplaceWord("inner join", "JOIN") == "inner \nJOIN"
    ensures ReplaceWord("inner \nJOIN", "INNER JOIN") == "inner \nJOIN"
  {
    JoinPass();
    InnerJoinPass();
  }

  /** The JOIN pass over `inner join` matches only the second word. */
  lemma JoinPass()
    ensures ReplaceWord("inner join", "JOIN") == "inner \nJOIN"
  {
    var s, kw := "inner join", "JOIN";
    NoJoinInInner();
    JoinTail();
    ReplaceFromPrefix(s, kw, 6);
    assert s[..6] == "inner ";
  }

  /** From position 6 on, `inner join` is the one match, replaced by a newline and JOIN. */
  lemma JoinTail()
    ensures ReplaceFrom("inner join", "JOIN", 6) == "\nJOIN"
  {
    var s, kw := "inner join", "JOIN";
    JoinAtSix();
    assert ReplaceFrom(s, kw, 10) == "";
    assert ReplaceFrom(s, kw, 6) == "\n" + kw + "";
  }

  /** No whole-word JOIN starts in `inner `. */
  lemma NoJoinInInner()
    ensures forall q :: 0 <= q < 6 ==> !MatchAt("inner join", "JOIN", q)
  {
    var s, kw := "inner join", "JOIN";
    forall q | 0 <= q < 6 ensures !MatchAt(s, kw, q) {
      if 0 < q < 5 { assert IsWordChar(s[q - 1]) && IsWordChar(s[q]); }
      else { assert Upper(s[q]) != Upper(kw[0]); }
    }
  }

  /** `join` at position 6 of `inner join` is a whole-word JOIN. */
  lemma JoinAtSix()
    ensures MatchAt("inner join", "JOIN", 6)
  {
    var s, kw := "inner join", "JOIN";
    assert Boundary(s, 6) && Boundary(s, 10);
    assert forall j :: 0 <= j < 4 ==> Upper(s[6 + j]) == Upper(kw[j]);
  }

  /** The INNER JOIN pass finds nothing once a newline stands where its space should be. */
  lemma InnerJoinPass()
    ensures ReplaceWord("inner \nJOIN", "INNER JOIN") == "inner \nJOIN"
  {
    var t, kw := "inner \nJOIN", "INNER JOIN";
    forall q | 0 <= q < |t| ensures !MatchAt(t, kw, q) {
      if q + |kw| <= |t| {
        if q == 0 { assert Upper(t[6]) != Upper(kw[6]); }
        else { assert IsWordChar(t[0]) && IsWordChar(t[1]); }
      }
    }
    ReplaceWordNoMatch(t, kw);
  }

  /** Characters before the first match are copied as they are. */
  lemma {:induction false} ReplaceFromPrefix(s: string, kw: string, p: nat)
    requires |kw| > 0 && p <= |s|
    requires forall q :: 0 <= q < p ==> !MatchAt(s, kw, q)
    ensures ReplaceWord(s, kw) == s[..p] + ReplaceFrom(s, kw, p)
  {
    if p > 0 {
      ReplaceFromPrefix(s, kw, p - 1);
      assert s[..p] == s[..p - 1] + [s[p - 1]];
    }
  }

  lemma FoldAppend(a: string, b: string)
    ensures Fold(a + b) == Fold(a) + Fold(b)
  {
  }

  /** Folding never turns whitespace into text or text into whitespace. */
  lemma {:induction false} VisibleFold(s: string)
    ensures Visible(Fold(s)) == Fold(Visible(s))
  {
    if s != [] {
      VisibleFold(s[1..]);
      assert Fold(s)[1..] == Fold(s[1..]);
      FoldAppend(if IsSpace(s[0]) then [] else [s[0]], Visible(s[1..]));
    }
  }

  lemma VisibleFoldAppend(a: string, b: string)
    ensures Visible(Fold(a + b)) == Visible(Fold(a)) + Visible(Fold(b))
  {
    FoldAppend(a, b);
    VisibleAppend(Fold(a), Fold(b));
  }

  /** A match's text folds to the keyword's. */
  lemma MatchFold(s: string, kw: string, p: nat)
    requires MatchAt(s, kw, p)
    ensures Fold(kw) == Fold(s[p..p + |kw|])
  {
  }

  /** At a match the replace writes a newline and the keyword and resumes after the match. */
  lemma ReplaceFromMatch(s: string, kw: string, p: nat)
    requires |kw| > 0 && p < |s| && MatchAt(s, kw, p)
    ensures ReplaceFrom(s, kw, p) == "\n" + kw + ReplaceFrom(s, kw, p + |kw|)
  {
  }

  /** A leading newline adds nothing visible. */
  lemma NewlineInvisible(t: string)
    ensures Visible(Fold("\n" + t)) == Visible(Fold(t))
  {
    VisibleFoldAppend("\n", t);
    assert Fold("\n") == "\n";
    assert Visible("\n") == [];
  }

  /** Replacing one match: the newline is invisible and the keyword folds like the match. */
  lemma ReplaceStepMatch(s: string, kw: string, p: nat)
    requires |kw| > 0 && MatchAt(s, kw, p)
    ensures Visible(Fold(ReplaceFrom(s, kw, p)))
         == Visible(Fold(s[p..p + |kw|])) + Visible(Fold(ReplaceFrom(s, kw, p + |kw|)))
  {
    var rest := ReplaceFrom(s, kw, p + |kw|);
    ReplaceFromMatch(s, kw, p);
    VisibleFoldAppend("\n" + kw, rest);
    NewlineInvisible(kw);
    MatchFold(s, kw, p);
  }

  /** Copying one character that starts no match. */
  lemma ReplaceStepOther(s: string, kw: string, p: nat)
    requires |kw| > 0 && p < |s| && !MatchAt(s, kw, p)
    ensures Visible(Fold(ReplaceFrom(s, kw, p)))
         == Visible(Fold(s[p..p + 1])) + Visible(Fold(ReplaceFrom(s, kw, p + 1)))
  {
    assert s[p..p + 1] == [s[p]];
    assert ReplaceFrom(s, kw, p) == [s[p]] + ReplaceFrom(s, kw, p + 1);
    VisibleFoldAppend([s[p]], ReplaceFrom(s, kw, p + 1));
  }

  /** The folded visible text of a suffix, cut in two. */
  lemma VisibleFoldSplit(s: string, p: nat, q: nat)
    requires p <= q <= |s|
    ensures Visible(Fold(s[p..])) == Visible(Fold(s[p..q])) + Visible(Fold(s[q..]))
  {
    assert s[p..] == s[p..q] + s[q..];
    VisibleFoldAppend(s[p..q], s[q..]);
  }

  /** Where the replace resumes after position `p`. */
  function NextStart(s: string, kw: string, p: nat): nat
  {
    if MatchAt(s, kw, p) then p + |kw| else p + 1
  }

  /** One step of the replace keeps the folded visible text of the part it consumes. */
  lemma KeepsTextStep(s: string, kw: string, p: nat)
    requires |kw| > 0 && p < |s|
    ensures var q := NextStart(s, kw, p);
      && q <= |s|
      && Visible(Fold(ReplaceFrom(s, kw, p))) == Visible(Fold(s[p..q])) + Visible(Fold(ReplaceFrom(s, kw, q)))
      && Visible(Fold(s[p..])) == Visible(Fold(s[p..q])) + Visible(Fold(s[q..]))
  {
    if MatchAt(s, kw, p) {
      MatchStep(s, kw, p);
    } else {
      OtherStep(s, kw, p);
    }
  }

  lemma MatchStep(s: string, kw: string, p: nat)
    requires |kw| > 0 && p < |s| && MatchAt(s, kw, p)
    ensures var q := p + |kw|;
      && q <= |s|
      && Visible(Fold(ReplaceFrom(s, kw, p))) == Visible(Fold(s[p..q])) + Visible(Fold(ReplaceFrom(s, kw, q)))
      && Visible(Fold(s[p..])) == Visible(Fold(s[p..q])) + Visible(Fold(s[q..]))
  {
    ReplaceStepMatch(s, kw, p);
    VisibleFoldSplit(s, p, p + |kw|);
  }

  lemma OtherStep(s: string, kw: string, p: nat)
    requires |kw| > 0 && p < |s| && !MatchAt(s, kw, p)
    ensures var q := p + 1;
      && Visible(Fold(ReplaceFrom(s, kw, p))) == Visible(Fold(s[p..q])) + Visible(Fold(ReplaceFrom(s, kw, q)))
      && Visible(Fold(s[p..])) == Visible(Fold(s[p..q])) + Visible(Fold(s[q..]))
  {
    ReplaceStepOther(s, kw, p);
    VisibleFoldSplit(s, p, p + 1);
  }

  /** A substitution only inserts newlines and changes the case of the matched letters. */
  lemma {:induction false} ReplaceFromKeepsText(s: string, kw: string, p: nat)
    requires |kw| > 0 && p <= |s|
    ensures Visible(Fold(ReplaceFrom(s, kw, p))) == Visible(Fold(s[p..]))
    decreases |s| - p
  {
    if p == |s| {
      assert ReplaceFrom(s, kw, p) == [] && s[p..] == [];
    } else {
      KeepsTextStep(s, kw, p);
      ReplaceFromKeepsText(s, kw, NextStart(s, kw, p));
    }
  }

  /** All substitutions together only insert newlines and change the case of letters. */
  lemma {:induction false} RelocatedKeepsText(s: string, kws: seq<string>)
    requires AllNonEmpty(kws)
    ensures Visible(Fold(Relocated(s, kws))) == Visible(Fold(s))
  {
    if kws != [] {
      RelocatedKeepsText(s, kws[..|kws| - 1]);
      var t := Relocated(s, kws[..|kws| - 1]);
      ReplaceFromKeepsText(t, kws[|kws| - 1], 0);
      assert t[0..] == t;
    }
  }

  // ---------------------------------------------------------------------------------------
  // Properties of the line layout

  /** The kept lines are non-empty and trimmed, hold no newline when the input lines hold none,
      and together keep every non-whitespace character of the input lines. */
  lemma KeptLinesShape(lines: seq<string>)
    ensures var ks := KeptLines(lines);
      && (forall i :: 0 <= i < |ks| ==> ks[i] != [] && !IsSpace(ks[i][0]) && !IsSpace(ks[i][|ks[i]| - 1]))
      && ((forall i :: 0 <= i < |lines| ==> '\n' !in lines[i]) ==> forall i :: 0 <= i < |ks| ==> '\n' !in ks[i])
      && VisibleAll(ks) == VisibleAll(lines)
  {
    KeptTrimmed(lines);
    if forall i :: 0 <= i < |lines| ==> '\n' !in lines[i] {
      KeptNoNewline(lines);
    }
    KeptVisible(lines);
  }

  /** Each kept line is non-empty and trimmed. */
  lemma {:induction false} KeptTrimmed(lines: seq<string>)
    ensures var ks := KeptLines(lines);
      forall i :: 0 <= i < |ks| ==> ks[i] != [] && !IsSpace(ks[i][0]) && !IsSpace(ks[i][|ks[i]| - 1])
  {
    if lines != [] {
      KeptTrimmed(lines[1..]);
      TrimEnds(lines[0]);
      KeptCons(lines);
    }
  }

  /** Lines without newlines keep none after trimming. */
  lemma {:induction false} KeptNoNewline(lines: seq<string>)
    requires forall i :: 0 <= i < |lines| ==> '\n' !in lines[i]
    ensures var ks := KeptLines(lines); forall i :: 0 <= i < |ks| ==> '\n' !in ks[i]
  {
    if lines != [] {
      assert '\n' !in lines[0];
      KeptNoNewline(lines[1..]);
      var a := LeadingSpaces(lines[0]);
      SliceWithout(lines[0], '\n', a, |lines[0]| - TrailingSpaces(lines[0][a..]));
      KeptCons(lines);
    }
  }

  /** The kept lines of a non-empty list: the first line trimmed, if anything is left of it,
      then the kept lines of the rest. */
  lemma KeptCons(lines: seq<string>)
    requires lines != []
    ensures var t, ks, rest := Trim(lines[0]), KeptLines(lines), KeptLines(lines[1..]);
      && (t == [] ==> ks == rest)
      && (t != [] ==> |ks| == |rest| + 1 && ks[0] == t && forall i :: 0 < i < |ks| ==> ks[i] == rest[i - 1])
  {
  }

  /** Trimming and dropping empty lines keeps every non-whitespace character. */
  lemma {:induction false} KeptVisible(lines: seq<string>)
    ensures VisibleAll(KeptLines(lines)) == VisibleAll(lines)
  {
    if lines != [] {
      KeptVisible(lines[1..]);
      var t := Trim(lines[0]);
      TrimVisible(lines[0]);
      if t == [] {
        assert KeptLines(lines) == KeptLines(lines[1..]);
      } else {
        assert KeptLines(lines) == [t] + KeptLines(lines[1..]);
        assert ([t] + KeptLines(lines[1..]))[1..] == KeptLines(lines[1..]);
      }
    }
  }

  /** Trimming, dropping empty lines and indenting with whitespace moves only whitespace. */
  lemma LayoutKeepsText(text: string, unit: string)
    requires IsBlank(unit)
    ensures Visible(Unlines(Indented(KeptLines(Lines(text)), unit))) == Visible(text)
  {
    var ks := KeptLines(Lines(text));
    var outs := Indented(ks, unit);
    forall i | 0 <= i < |ks| ensures Visible(outs[i]) == Visible(ks[i]) {
      VisibleAppend(unit, ks[i]);
      VisibleOfBlank(unit);
    }
    VisibleUnlines(outs);
    VisibleAllPointwise(outs, ks);
    KeptLinesShape(Lines(text));
    VisibleUnlines(Lines(text));
    UnlinesOfLines(text);
  }

  /** formatSQL changes nothing but whitespace and the case of letters. */
  lemma SqlKeepsText(code: string, unit: string)
    requires IsBlank(unit)
    ensures Visible(Fold(SqlFormatted(code, unit))) == Visible(Fold(code))
  {
    KeywordsNonEmpty();
    var t := KeywordsOnNewLines(code);
    LayoutKeepsText(t, unit);
    VisibleFold(SqlFormatted(code, unit));
    VisibleFold(t);
    RelocatedKeepsText(code, Keywords);
  }

  /** Text that is not blank keeps some non-whitespace character through the substitutions. */
  lemma RelocatedNotBlank(code: string)
    requires !IsBlank(code)
    ensures Visible(KeywordsOnNewLines(code)) != []
  {
    KeywordsNonEmpty();
    var t := KeywordsOnNewLines(code);
    VisibleOfBlank(code);
    RelocatedKeepsText(code, Keywords);
    VisibleFold(code);
    VisibleFold(t);
  }

  /** For input that is not blank, every output line is a non-empty trimmed line of the
      rewritten text, the first one as it is and every later one behind one indent unit exactly
      when it starts with AND or OR, whatever follows them. */
  lemma SqlLines(code: string, unit: string)
    requires !IsBlank(code) && '\n' !in unit
    ensures var ks := KeptLines(Lines(KeywordsOnNewLines(code)));
      var outs := Lines(SqlFormatted(code, unit));
      && ks != [] && |outs| == |ks|
      && outs[0] == ks[0]
      && (forall i :: 0 < i < |ks| ==> outs[i] == if IsConnective(ks[i]) then unit + ks[i] else ks[i])
      && (forall i :: 0 <= i < |ks| ==> ks[i] != [] && !IsSpace(ks[i][0]) && !IsSpace(ks[i][|ks[i]| - 1]))
      && (forall i :: 0 <= i < |outs| ==> outs[i] != [])
  {
    RelocatedNotBlank(code);
    LayoutLines(KeywordsOnNewLines(code), unit);
  }

  /** The layout of text with some non-whitespace character: one output line per kept line, the
      first as it is and the others indented exactly when they pass IsConnective. */
  lemma LayoutLines(t: string, unit: string)
    requires Visible(t) != [] && '\n' !in unit
    ensures var ks := KeptLines(Lines(t));
      var outs := Lines(Unlines(Indented(ks, unit)));
      && ks != [] && |outs| == |ks|
      && outs[0] == ks[0]
      && (forall i :: 0 < i < |ks| ==> outs[i] == if IsConnective(ks[i]) then unit + ks[i] else ks[i])
      && (forall i :: 0 <= i < |ks| ==> ks[i] != [] && !IsSpace(ks[i][0]) && !IsSpace(ks[i][|ks[i]| - 1]))
      && (forall i :: 0 <= i < |outs| ==> outs[i] != [])
  {
    var ks := KeptLines(Lines(t));
    KeptNotEmpty(t);
    KeptTrimmed(Lines(t));
    KeptNoNewline(Lines(t));
    IndentedLayout(ks, unit);
  }

  /** Indenting non-empty, newline-free lines and joining them: splitting the result gives the
      indented lines back, the first as it is and the others indented exactly when they pass
      IsConnective, none of them empty. */
  lemma IndentedLayout(ks: seq<string>, unit: string)
    requires '\n' !in unit
    requires forall i :: 0 <= i < |ks| ==> ks[i] != [] && '\n' !in ks[i]
    ensures var outs := Lines(Unlines(Indented(ks, unit)));
      && (ks != [] ==> |outs| == |ks| && outs[0] == ks[0])
      && (ks != [] ==> forall i :: 0 < i < |ks| ==> outs[i] == if IsConnective(ks[i]) then unit + ks[i] else ks[i])
      && (ks != [] ==> forall i :: 0 <= i < |outs| ==> outs[i] != [])
  {
    var outs := Indented(ks, unit);
    if ks != [] {
      IndentedNoNewline(ks, unit);
      LinesOfUnlines(outs);
      forall i | 0 <= i < |outs| ensures outs[i] != [] {
        assert |outs[i]| >= |ks[i]|;
      }
    }
  }


  /** Single-line text in which no keyword matches is given back trimmed: it is the first and
      only line, so nothing is indented. */
  lemma SqlNoKeywords(code: string, unit: string)
    requires !IsBlank(code) && '\n' !in code
    requires forall k, q :: 0 <= k < |Keywords| && 0 <= q < |code| ==> !MatchAt(code, Keywords[k], q)
    ensures SqlFormatted(code, unit) == Trim(code)
  {
    KeywordsNonEmpty();
    RelocatedNoMatch(code, Keywords);
    assert KeywordsOnNewLines(code) == code;
    assert Lines(code) == [code];
    TrimSpec(code);
    var t := Trim(code);
    assert KeptLines([code]) == [t] + KeptLines([]);
    assert Indented([t], unit) == [t];
  }

  /** Text with some non-whitespace character keeps at least one line. */
  lemma KeptNotEmpty(t: string)
    requires Visible(t) != []
    ensures KeptLines(Lines(t)) != []
  {
    KeptLinesShape(Lines(t));
    VisibleUnlines(Lines(t));
    UnlinesOfLines(t);
  }

  /** Indenting lines that hold no newline by a unit that holds none adds none. */
  lemma IndentedNoNewline(ks: seq<string>, unit: string)
    requires '\n' !in unit && forall i :: 0 <= i < |ks| ==> '\n' !in ks[i]
    ensures var outs := Indented(ks, unit); forall i :: 0 <= i < |outs| ==> '\n' !in outs[i]
  {
    var outs := Indented(ks, unit);
    forall i | 0 <= i < |outs| ensures '\n' !in outs[i] {
      if i > 0 && IsConnective(ks[i]) {
        assert outs[i] == unit + ks[i];
      }
    }
  }
}
