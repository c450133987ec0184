/** The worked example of formatSQL (src/utils/formatters.ts:166-191) on concrete text:
    `select * from t where a=1 and b=2` is laid out as three lines. */
module SqlExamples {
  import opened Text
  import opened SqlFormat

  const Sample := "select * from t where a=1 and b=2"
  const AfterSelect := "\nSELECT * from t where a=1 and b=2"
  const AfterFrom := "\nSELECT * \nFROM t where a=1 and b=2"
  const AfterWhere := "\nSELECT * \nFROM t \nWHERE a=1 and b=2"

  /** What a whole-word match of a keyword of two or more characters needs at `p`: a boundary
      there, and the first two characters agreeing once folded. */
  predicate MayMatchAt(s: string, kw: string, p: nat)
    requires |kw| >= 2
  {
    p + 1 < |s| && Boundary(s, p) && Upper(s[p]) == Upper(kw[0]) && Upper(s[p + 1]) == Upper(kw[1])
  }

  /** Where MayMatchAt fails, MatchAt fails. */
  lemma NoMatchBetween(s: string, kw: string, lo: nat, hi: nat)
    requires |kw| >= 2
    requires forall q :: lo <= q < hi ==> !MayMatchAt(s, kw, q)
    ensures forall q :: lo <= q < hi ==> !MatchAt(s, kw, q)
  {
    forall q | lo <= q < hi ensures !MatchAt(s, kw, q) {
      assert !MayMatchAt(s, kw, q);
      if q + |kw| <= |s| {
        assert Upper(s[q + 0]) == Upper(kw[0]) ==> Upper(s[q + 1]) != Upper(kw[1]) || !Boundary(s, q);
      }
    }
  }

  /** The first two characters of `s` from `q` on, folded; a blank stands in past the end. */
  function Head(s: string, q: int): (char, char)
    requires 0 <= q < |s|
  {
    (Upper(s[q]), if q + 1 < |s| then Upper(s[q + 1]) else ' ')
  }

  /** A keyword whose first two letters begin no word of `s` matches nowhere in `s`. */
  lemma NoMatchByHead(s: string, kw: string, heads: set<(char, char)>)
    requires |kw| >= 2 && 'A' <= kw[0] <= 'Z' && (kw[0], Upper(kw[1])) !in heads
    requires forall q :: 0 <= q < |s| && Boundary(s, q) && IsWordChar(s[q]) ==> Head(s, q) in heads
    ensures forall q :: 0 <= q < |s| ==> !MatchAt(s, kw, q)
  {
    forall q | 0 <= q < |s| ensures !MatchAt(s, kw, q) {
      if q + |kw| <= |s| && Boundary(s, q) && Upper(s[q + 0]) == Upper(kw[0]) && Upper(s[q + 1]) == Upper(kw[1]) {
        assert IsWordChar(s[q]);
      }
    }
  }

  /** Where the words of AfterWhere start: `SELECT`, `FROM`, `t`, `WHERE`, `a`, `1`, `and`, `b`
      and `2`. */
  predicate WordStart(q: int)
  {
    q == 1 || q == 11 || q == 16 || q == 19 || q == 25 || q == 27 || q == 29 || q == 33 || q == 35
  }

  /** Every word of AfterWhere starts at a WordStart position. */
  lemma AfterWhereWordStarts()
    ensures forall q :: 0 <= q < |AfterWhere| && Boundary(AfterWhere, q) && IsWordChar(AfterWhere[q]) ==>
      WordStart(q)
  {
  }

  /** The first two characters of the words of AfterWhere up to `t`, folded. */
  lemma WordHeadsLow()
    ensures Head(AfterWhere, 1) == ('S', 'E')
    ensures Head(AfterWhere, 11) == ('F', 'R')
    ensures Head(AfterWhere, 16) == ('T', ' ')
  {
  }

  /** The first two characters of the words of AfterWhere from WHERE on, folded. */
  lemma WordHeadsHigh()
    ensures Head(AfterWhere, 19) == ('W', 'H')
    ensures Head(AfterWhere, 25) == ('A', '=')
    ensures Head(AfterWhere, 27) == ('1', ' ')
    ensures Head(AfterWhere, 29) == ('A', 'N')
    ensures Head(AfterWhere, 33) == ('B', '=')
    ensures Head(AfterWhere, 35) == ('2', ' ')
  {
  }

  /** The folded two-letter beginnings of the words of AfterWhere. */
  const Heads: set<(char, char)> :=
    {('S', 'E'), ('F', 'R'), ('T', ' '), ('W', 'H'), ('A', '='), ('1', ' '), ('A', 'N'), ('B', '='), ('2', ' ')}

  /** Every word of the text after the first three passes begins with one of Heads. */
  lemma AfterWhereHeads()
    ensures forall q :: 0 <= q < |AfterWhere| && Boundary(AfterWhere, q) && IsWordChar(AfterWhere[q]) ==>
      Head(AfterWhere, q) in Heads
  {
    AfterWhereWordStarts();
    WordHeadsLow();
    WordHeadsHigh();
  }

  /** From a whole-word match on, with no match after it, the replace inserts the newline and
      the keyword and copies the rest. */
  lemma MatchThenRest(s: string, kw: string, p: nat)
    requires |kw| > 0 && MatchAt(s, kw, p)
    requires forall q :: p + |kw| <= q < |s| ==> !MatchAt(s, kw, q)
    ensures ReplaceFrom(s, kw, p) == "\n" + kw + s[p + |kw|..]
  {
    ReplaceFromNoMatch(s, kw, p + |kw|);
  }

  /** A keyword that matches as a whole word at `p` and nowhere else is moved onto a new line
      there, and nothing else changes. */
  lemma ReplaceOnce(s: string, kw: string, p: nat)
    requires |kw| > 0 && MatchAt(s, kw, p)
    requires forall q :: 0 <= q < p ==> !MatchAt(s, kw, q)
    requires forall q :: p + |kw| <= q < |s| ==> !MatchAt(s, kw, q)
    ensures ReplaceWord(s, kw) == s[..p] + ("\n" + kw + s[p + |kw|..])
  {
    MatchThenRest(s, kw, p);
    ReplaceFromPrefix(s, kw, p);
  }

  // ---------------------------------------------------------------------------------------
  // The SELECT, FROM and WHERE passes

  /** `select` at the start of the sample is a whole word. */
  lemma SelectAtStart()
    ensures MatchAt(Sample, "SELECT", 0)
  {
    var s, kw := Sample, "SELECT";
    assert Boundary(s, 0) && Boundary(s, 6);
    assert forall j :: 0 <= j < 6 ==> Upper(s[j]) == Upper(kw[j]);
  }

  /** No other whole-word SELECT. */
  lemma NoOtherSelect()
    ensures forall q :: 6 <= q < |Sample| ==> !MatchAt(Sample, "SELECT", q)
  {
    assert forall q :: 6 <= q < |Sample| ==> !MayMatchAt(Sample, "SELECT", q);
    NoMatchBetween(Sample, "SELECT", 6, |Sample|);
  }

  /** The sample after its first word. */
  lemma SampleSlices()
    ensures Sample[..0] == ""
    ensures Sample[6..] == " * from t where a=1 and b=2"
  {
  }

  lemma SelectJoined()
    ensures "" + ("\n" + "SELECT" + " * from t where a=1 and b=2") == AfterSelect
  {
  }

  /** Moving `select` onto a new line gives AfterSelect. */
  lemma SelectPieces(s: string)
    requires s == Sample
    ensures s[..0] + ("\n" + "SELECT" + s[6..]) == AfterSelect
  {
    SampleSlices();
    SelectJoined();
  }

  /** The SELECT pass: the leading `select` becomes a newline and `SELECT`. */
  lemma SelectPass(s: string)
    requires s == Sample
    ensures ReplaceWord(s, "SELECT") == AfterSelect
  {
    SelectAtStart();
    NoOtherSelect();
    ReplaceOnce(s, "SELECT", 0);
    SelectPieces(s);
  }

  /** `from` at position 10 is a whole word. */
  lemma FromAtTen()
    ensures MatchAt(AfterSelect, "FROM", 10)
  {
    var s, kw := AfterSelect, "FROM";
    assert Boundary(s, 10) && Boundary(s, 14);
    assert forall j :: 0 <= j < 4 ==> Upper(s[10 + j]) == Upper(kw[j]);
  }

  /** No other whole-word FROM. */
  lemma NoOtherFrom()
    ensures forall q :: 0 <= q < 10 ==> !MatchAt(AfterSelect, "FROM", q)
    ensures forall q :: 14 <= q < |AfterSelect| ==> !MatchAt(AfterSelect, "FROM", q)
  {
    assert forall q :: 0 <= q < 10 ==> !MayMatchAt(AfterSelect, "FROM", q);
    NoMatchBetween(AfterSelect, "FROM", 0, 10);
    assert forall q :: 14 <= q < |AfterSelect| ==> !MayMatchAt(AfterSelect, "FROM", q);
    NoMatchBetween(AfterSelect, "FROM", 14, |AfterSelect|);
  }

  /** AfterSelect before and after `from`. */
  lemma AfterSelectSlices()
    ensures AfterSelect[..10] == "\nSELECT * "
    ensures AfterSelect[14..] == " t where a=1 and b=2"
  {
  }

  lemma FromJoined()
    ensures "\nSELECT * " + ("\n" + "FROM" + " t where a=1 and b=2") == AfterFrom
  {
  }

  /** Moving `from` onto a new line gives AfterFrom. */
  lemma FromPieces(s: string)
    requires s == AfterSelect
    ensures s[..10] + ("\n" + "FROM" + s[14..]) == AfterFrom
  {
    AfterSelectSlices();
    FromJoined();
  }

  /** The FROM pass: `from` moves onto a new line. */
  lemma FromPass(s: string)
    requires s == AfterSelect
    ensures ReplaceWord(s, "FROM") == AfterFrom
  {
    FromAtTen();
    NoOtherFrom();
    ReplaceOnce(s, "FROM", 10);
    FromPieces(s);
  }

  /** `where` at position 18 is a whole word. */
  lemma WhereAtEighteen()
    ensures MatchAt(AfterFrom, "WHERE", 18)
  {
    var s, kw := AfterFrom, "WHERE";
    assert Boundary(s, 18) && Boundary(s, 23);
    assert forall j :: 0 <= j < 5 ==> Upper(s[18 + j]) == Upper(kw[j]);
  }

  /** No other whole-word WHERE. */
  lemma NoOtherWhere()
    ensures forall q :: 0 <= q < 18 ==> !MatchAt(AfterFrom, "WHERE", q)
    ensures forall q :: 23 <= q < |AfterFrom| ==> !MatchAt(AfterFrom, "WHERE", q)
  {
    assert forall q :: 0 <= q < 18 ==> !MayMatchAt(AfterFrom, "WHERE", q);
    NoMatchBetween(AfterFrom, "WHERE", 0, 18);
    assert forall q :: 23 <= q < |AfterFrom| ==> !MayMatchAt(AfterFrom, "WHERE", q);
    NoMatchBetween(AfterFrom, "WHERE", 23, |AfterFrom|);
  }

  /** AfterFrom before and after `where`. */
  lemma AfterFromSlices()
    ensures AfterFrom[..18] == "\nSELECT * \nFROM t "
    ensures AfterFrom[23..] == " a=1 and b=2"
  {
  }

  lemma WhereJoined()
    ensures "\nSELECT * \nFROM t " + ("\n" + "WHERE" + " a=1 and b=2") == AfterWhere
  {
  }

  /** Moving `where` onto a new line gives AfterWhere. */
  lemma WherePieces(s: string)
    requires s == AfterFrom
    ensures s[..18] + ("\n" + "WHERE" + s[23..]) == AfterWhere
  {
    AfterFromSlices();
    WhereJoined();
  }

  /** The WHERE pass: `where` moves onto a new line. */
  lemma WherePass(s: string)
    requires s == AfterFrom
    ensures ReplaceWord(s, "WHERE") == AfterWhere
  {
    WhereAtEighteen();
    NoOtherWhere();
    ReplaceOnce(s, "WHERE", 18);
    WherePieces(s);
  }

  // ---------------------------------------------------------------------------------------
  // The other nineteen passes

  /** The words starting with A, T and F are `a`, `and`, `t` and `FROM`: none goes on with the
      L of ALTER, the A of TABLE or the U of FUNCTION. */
  /** No keyword after WHERE in the list matches anywhere in AfterWhere: none begins like a
      word of it. */
  lemma LaterKeywordsAbsent()
    ensures forall k, q :: 3 <= k < |Keywords| && 0 <= q < |AfterWhere| ==> !MatchAt(AfterWhere, Keywords[k], q)
  {
    AfterWhereHeads();
    forall k | 3 <= k < |Keywords|
      ensures forall q :: 0 <= q < |AfterWhere| ==> !MatchAt(AfterWhere, Keywords[k], q)
    {
      NoMatchByHead(AfterWhere, Keywords[k], Heads);
    }
  }

  /** Once no remaining keyword matches, the remaining passes change nothing. */
  lemma {:induction false} RelocatedUnchangedAfter(s: string, kws: seq<string>, m: nat, t: string)
    requires AllNonEmpty(kws) && m <= |kws|
    requires Relocated(s, kws[..m]) == t
    requires forall k, q :: m <= k < |kws| && 0 <= q < |t| ==> !MatchAt(t, kws[k], q)
    ensures Relocated(s, kws) == t
  {
    if |kws| == m {
      assert kws[..m] == kws;
    } else {
      var init := kws[..|kws| - 1];
      assert init[..m] == kws[..m];
      RelocatedUnchangedAfter(s, init, m, t);
      ReplaceWordNoMatch(t, kws[|kws| - 1]);
    }
  }

  /** The SELECT pass as the first step of the loop. */
  lemma FirstPass(s: string, kws: seq<string>)
    requires s == Sample && kws == ["SELECT"]
    ensures Relocated(s, kws) == AfterSelect
  {
    assert kws[..0] == [];
    SelectPass(s);
  }

  /** The FROM pass as the second step. */
  lemma FirstTwoPasses(s: string, kws: seq<string>)
    requires s == Sample && kws == ["SELECT", "FROM"]
    ensures Relocated(s, kws) == AfterFrom
  {
    assert kws[..1] == ["SELECT"];
    FirstPass(s, kws[..1]);
    FromPass(Relocated(s, kws[..1]));
  }

  /** The WHERE pass as the third step. */
  lemma FirstThreePasses(s: string, kws: seq<string>)
    requires s == Sample && kws == ["SELECT", "FROM", "WHERE"]
    ensures Relocated(s, kws) == AfterWhere
  {
    assert kws[..2] == ["SELECT", "FROM"];
    FirstTwoPasses(s, kws[..2]);
    WherePass(Relocated(s, kws[..2]));
  }

  /** The keyword loop over the sample: SELECT, FROM and WHERE each move onto a new line and
      nothing else changes. */
  lemma SampleRelocated(s: string)
    requires s == Sample
    ensures KeywordsOnNewLines(s) == AfterWhere
  {
    KeywordsNonEmpty();
    assert Keywords[..3] == ["SELECT", "FROM", "WHERE"];
    FirstThreePasses(s, Keywords[..3]);
    LaterKeywordsAbsent();
    RelocatedUnchangedAfter(s, Keywords, 3, AfterWhere);
  }

  // ---------------------------------------------------------------------------------------
  // The layout

  /** Four newline-free lines joined by newlines split back into those four lines. */
  lemma LinesOfFour(a: string, b: string, c: string, d: string)
    requires '\n' !in a && '\n' !in b && '\n' !in c && '\n' !in d
    ensures Lines(a + "\n" + (b + "\n" + (c + "\n" + d))) == [a, b, c, d]
  {
    assert Lines(d) == [d];
    LinesCons(c, d);
    LinesCons(b, c + "\n" + d);
    LinesCons(a, b + "\n" + (c + "\n" + d));
  }

  /** Three lines joined by newlines. */
  lemma UnlinesOfThree(a: string, b: string, c: string)
    ensures Unlines([a, b, c]) == a + "\n" + (b + "\n" + c)
  {
    assert [a, b, c] == [a] + [b, c];
    UnlinesCons(a, [b, c]);
    assert [b, c] == [b] + [c];
    UnlinesCons(b, [c]);
  }

  /** A blank first line is dropped and the other three are trimmed. */
  lemma KeptOfFour(lines: seq<string>, x: string, y: string, z: string)
    requires |lines| == 4 && Trim(lines[0]) == []
    requires Trim(lines[1]) == x && Trim(lines[2]) == y && Trim(lines[3]) == z
    requires x != [] && y != [] && z != []
    ensures KeptLines(lines) == [x, y, z]
  {
    var r1, r2, r3 := lines[1..], lines[2..], lines[3..];
    assert r1[1..] == r2 && r2[1..] == r3 && r3[1..] == [];
    assert KeptLines(r3) == [z];
    assert KeptLines(r2) == [y] + KeptLines(r3);
    assert KeptLines(r1) == [x] + KeptLines(r2);
  }

  lemma AfterWhereTail()
    ensures "FROM t " + "\n" + "WHERE a=1 and b=2" == "FROM t \nWHERE a=1 and b=2"
  {
  }

  lemma AfterWhereMiddle()
    ensures "SELECT * " + "\n" + "FROM t \nWHERE a=1 and b=2" == "SELECT * \nFROM t \nWHERE a=1 and b=2"
  {
  }

  lemma AfterWhereWhole()
    ensures "\n" + "SELECT * \nFROM t \nWHERE a=1 and b=2" == AfterWhere
  {
  }

  /** AfterWhere is its four lines joined by newlines. */
  lemma AfterWhereLines(t: string)
    requires t == AfterWhere
    ensures Lines(t) == ["", "SELECT * ", "FROM t ", "WHERE a=1 and b=2"]
  {
    AfterWhereTail();
    AfterWhereMiddle();
    AfterWhereWhole();
    assert "" + "\n" == "\n";
    LinesOfFour("", "SELECT * ", "FROM t ", "WHERE a=1 and b=2");
  }

  /** Trimming a single trailing whitespace character off text that starts and ends with
      non-whitespace. */
  lemma TrimOneTrailing(x: string, c: char)
    requires x != [] && !IsSpace(x[0]) && !IsSpace(x[|x| - 1]) && IsSpace(c)
    ensures Trim(x + [c]) == x
  {
    var s := x + [c];
    assert LeadingSpaces(s) == 0 by { assert s[0] == x[0]; }
    assert s[0..] == s;
    assert s[..|s| - 1] == x;
    assert TrailingSpaces(x) == 0;
    assert TrailingSpaces(s) == 1;
  }

  /** The trimmed first two lines of AfterWhere. */
  lemma SampleTrimsHead()
    ensures Trim("") == ""
    ensures Trim("SELECT * ") == "SELECT *"
  {
    assert "SELECT * " == "SELECT *" + [' '];
    TrimOneTrailing("SELECT *", ' ');
  }

  /** The trimmed last two lines of AfterWhere. */
  lemma SampleTrimsTail()
    ensures Trim("FROM t ") == "FROM t"
    ensures Trim("WHERE a=1 and b=2") == "WHERE a=1 and b=2"
  {
    assert "FROM t " == "FROM t" + [' '];
    TrimOneTrailing("FROM t", ' ');
    TrimOfTrimmed("WHERE a=1 and b=2");
  }

  /** FROM and WHERE lines are not indented. */
  lemma SampleNotConnective()
    ensures !IsConnective("FROM t") && !IsConnective("WHERE a=1 and b=2")
  {
    NotConnective("FROM t");
    NotConnective("WHERE a=1 and b=2");
  }

  /** A line whose first letter folds to neither A nor O is not indented. */
  lemma NotConnective(line: string)
    requires line != [] && Upper(line[0]) != 'A' && Upper(line[0]) != 'O'
    ensures !IsConnective(line)
  {
    assert Upper("AND"[0]) == 'A' && Upper("OR"[0]) == 'O';
  }

  /** Four lines, the first blank, laid out: the blank one dropped, the others trimmed and,
      when they start with neither AND nor OR, not indented. */
  lemma LaidOutOfFour(t: string, unit: string, a: string, b: string, c: string, d: string,
                      x: string, y: string, z: string)
    requires Lines(t) == [a, b, c, d]
    requires Trim(a) == [] && Trim(b) == x && Trim(c) == y && Trim(d) == z
    requires x != [] && y != [] && z != [] && !IsConnective(y) && !IsConnective(z)
    ensures Unlines(Indented(KeptLines(Lines(t)), unit)) == x + "\n" + (y + "\n" + z)
  {
    KeptOfFour(Lines(t), x, y, z);
    var kept := [x, y, z];
    assert Indented(kept, unit) == kept;
    UnlinesOfThree(x, y, z);
  }

  lemma SampleOutJoined()
    ensures "SELECT *" + "\n" + ("FROM t" + "\n" + "WHERE a=1 and b=2") == "SELECT *\nFROM t\nWHERE a=1 and b=2"
  {
  }

  /** The layout of AfterWhere: three trimmed lines, none indented. */
  lemma SampleLaidOut(t: string, unit: string)
    requires t == AfterWhere
    ensures Unlines(Indented(KeptLines(Lines(t)), unit)) == "SELECT *\nFROM t\nWHERE a=1 and b=2"
  {
    AfterWhereLines(t);
    SampleTrimsHead();
    SampleTrimsTail();
    SampleNotConnective();
    LaidOutOfFour(t, unit, "", "SELECT * ", "FROM t ", "WHERE a=1 and b=2", "SELECT *", "FROM t", "WHERE a=1 and b=2");
    SampleOutJoined();
  }

  /** formatSQL on `select * from t where a=1 and b=2` gives three lines, SELECT, FROM and
      WHERE, each upper-cased at the start of its line; `and` stays on the WHERE line, since AND
      is no keyword of the list, and no line is indented. */
  lemma SampleFormatted(code: string, unit: string)
    requires code == Sample
    ensures SqlFormatted(code, unit) == "SELECT *\nFROM t\nWHERE a=1 and b=2"
  {
    SampleRelocated(code);
    SampleLaidOut(KeywordsOnNewLines(code), unit);
  }
}
