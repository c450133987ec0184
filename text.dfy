/** The JavaScript string operations the formatters are built from: `trim`, `split('\n')`,
    `join('\n')`, `startsWith` and `repeat`, on strings of Unicode scalar values. */
module Text {
  import opened Types

  /** WhiteSpace and LineTerminator of section 12.2 and 12.3 of ECMA-262: what `trim` strips
      and what the regular-expression class `\s` matches. */
  predicate IsSpace(c: char)
  {
    c == '\t' || c == '\n' || c == '\U{B}' || c == '\U{C}' || c == '\r' || c == ' ' ||
    c == '\U{A0}' || c == '\U{1680}' || ('\U{2000}' <= c <= '\U{200A}') ||
    c == '\U{2028}' || c == '\U{2029}' || c == '\U{202F}' || c == '\U{205F}' ||
    c == '\U{3000}' || c == '\U{FEFF}'
  }

  /** `!s.trim()`: the string is empty or made only of whitespace. */
  predicate IsBlank(s: string)
  {
    forall i :: 0 <= i < |s| ==> IsSpace(s[i])
  }

  /** The non-whitespace characters of `s`, in order. */
  function Visible(s: string): string
  {
    if s == [] then [] else (if IsSpace(s[0]) then [] else [s[0]]) + Visible(s[1..])
  }

  lemma {:induction false} VisibleAppend(a: string, b: string)
    ensures Visible(a + b) == Visible(a) + Visible(b)
  {
    if a == [] {
      assert a + b == b;
    } else {
      assert (a + b)[0] == a[0];
      assert (a + b)[1..] == a[1..] + b;
      VisibleAppend(a[1..], b);
    }
  }

  lemma {:induction false} VisibleOfBlank(s: string)
    ensures IsBlank(s) <==> Visible(s) == []
  {
    if s != [] {
      VisibleOfBlank(s[1..]);
      if IsBlank(s[1..]) && IsSpace(s[0]) {
        forall i | 0 <= i < |s| ensures IsSpace(s[i]) {
          if i > 0 { assert s[i] == s[1..][i - 1]; }
        }
      }
    }
  }

  lemma BlankAppend(a: string, b: string)
    ensures IsBlank(a + b) <==> IsBlank(a) && IsBlank(b)
  {
    if IsBlank(a) && IsBlank(b) {
      forall i | 0 <= i < |a + b| ensures IsSpace((a + b)[i]) {
        if i >= |a| { assert (a + b)[i] == b[i - |a|]; }
      }
    }
    if IsBlank(a + b) {
      forall i | 0 <= i < |a| ensures IsSpace(a[i]) {
        assert (a + b)[i] == a[i];
      }
      forall i | 0 <= i < |b| ensures IsSpace(b[i]) {
        assert (a + b)[|a| + i] == b[i];
      }
    }
  }

  /** How many whitespace characters `s` starts with. */
  function LeadingSpaces(s: string): (n: nat)
    ensures n <= |s|
  {
    if s == [] || !IsSpace(s[0]) then 0 else 1 + LeadingSpaces(s[1..])
  }

  /** The first LeadingSpaces(s) characters are whitespace and the next one is not. */
  lemma {:induction false} LeadingSpacesSpec(s: string)
    ensures var n := LeadingSpaces(s);
      && (forall i :: 0 <= i < n ==> IsSpace(s[i]))
      && (n < |s| ==> !IsSpace(s[n]))
  {
    if s != [] && IsSpace(s[0]) {
      LeadingSpacesSpec(s[1..]);
    }
  }

  /** How many whitespace characters `s` ends with. */
  function TrailingSpaces(s: string): (n: nat)
    ensures n <= |s|
  {
    if s == [] || !IsSpace(s[|s| - 1]) then 0 else 1 + TrailingSpaces(s[..|s| - 1])
  }

  /** The last TrailingSpaces(s) characters are whitespace and the one before them is not. */
  lemma {:induction false} TrailingSpacesSpec(s: string)
    ensures var n := TrailingSpaces(s);
      && (forall i :: |s| - n <= i < |s| ==> IsSpace(s[i]))
      && (n < |s| ==> !IsSpace(s[|s| - 1 - n]))
  {
    if s != [] && IsSpace(s[|s| - 1]) {
      TrailingSpacesSpec(s[..|s| - 1]);
    }
  }

  /** `s.trim()`: `s` without its leading and trailing whitespace. */
  function Trim(s: string): (r: string)
    ensures |r| <= |s|
  {
    var a := LeadingSpaces(s);
    s[a..|s| - TrailingSpaces(s[a..])]
  }

  /** Trimming keeps the longest middle part that neither starts nor ends with whitespace: a
      contiguous slice of `s` with only whitespace around it, empty exactly for blank text, that
      holds every non-whitespace character of `s` and adds no newline. */
  lemma TrimSpec(s: string)
    ensures var r := Trim(s);
      && (exists a, b :: 0 <= a <= b <= |s| && r == s[a..b] && IsBlank(s[..a]) && IsBlank(s[b..]))
      && (IsBlank(s) <==> r == [])
      && (r != [] ==> !IsSpace(r[0]) && !IsSpace(r[|r| - 1]))
      && Visible(r) == Visible(s)
      && ('\n' !in s ==> '\n' !in r)
  {
    var a, b := TrimMiddle(s);
    TrimEmpty(s);
    TrimEnds(s);
    TrimVisible(s);
    SliceWithout(s, '\n', a, b);
  }

  /** Trimming gives the empty string exactly for blank text. */
  lemma TrimEmpty(s: string)
    ensures IsBlank(s) <==> Trim(s) == []
  {
    var a := LeadingSpaces(s);
    LeadingSpacesSpec(s);
    if a < |s| {
      assert !IsSpace(s[a]);
      assert TrailingSpaces(s[a..]) < |s[a..]| by {
        TrailingSpacesSpec(s[a..]);
        assert s[a..][0] == s[a];
      }
    }
  }

  /** A trimmed string that is not empty neither starts nor ends with whitespace. */
  lemma TrimEnds(s: string)
    ensures var r := Trim(s); r != [] ==> !IsSpace(r[0]) && !IsSpace(r[|r| - 1])
  {
    var a := LeadingSpaces(s);
    var t := s[a..];
    var n := TrailingSpaces(t);
    var r := Trim(s);
    if r != [] {
      LeadingSpacesSpec(s);
      TrailingSpacesSpec(t);
      assert r == t[..|t| - n];
      assert r[0] == s[a];
      assert r[|r| - 1] == t[|t| - 1 - n];
    }
  }

  /** Trimming cuts a whitespace prefix and a whitespace suffix off `s` and keeps the rest. */
  lemma TrimMiddle(s: string) returns (a: nat, b: nat)
    ensures a <= b <= |s| && Trim(s) == s[a..b] && IsBlank(s[..a]) && IsBlank(s[b..])
  {
    a := LeadingSpaces(s);
    var t := s[a..];
    var n := TrailingSpaces(t);
    b := |s| - n;
    LeadingSpacesSpec(s);
    TrailingSpacesSpec(t);
    assert IsBlank(s[..a]) by {
      forall i | 0 <= i < a ensures IsSpace(s[..a][i]) {
        assert s[..a][i] == s[i];
      }
    }
    assert IsBlank(s[b..]) by {
      forall i | 0 <= i < n ensures IsSpace(s[b..][i]) {
        assert s[b..][i] == t[|t| - n + i];
      }
    }
  }

  /** Trimming keeps every non-whitespace character. */
  lemma TrimVisible(s: string)
    ensures Visible(Trim(s)) == Visible(s)
  {
    var a, b := TrimMiddle(s);
    TrimmedVisible(s, a, b - a);
  }

  /** Cutting a whitespace prefix of length `a` and a whitespace suffix keeps the non-whitespace
      characters. */
  lemma TrimmedVisible(s: string, a: nat, b: nat)
    requires a + b <= |s|
    requires IsBlank(s[..a]) && IsBlank(s[a + b..])
    ensures Visible(s[a..a + b]) == Visible(s)
  {
    var m := s[a..a + b];
    assert s == s[..a] + (m + s[a + b..]);
    VisibleAppend(s[..a], m + s[a + b..]);
    VisibleAppend(m, s[a + b..]);
    VisibleOfBlank(s[..a]);
    VisibleOfBlank(s[a + b..]);
  }

  /** A character missing from `s` is missing from every slice of it. */
  lemma SliceWithout(s: string, c: char, i: nat, j: nat)
    requires i <= j <= |s|
    ensures c !in s ==> c !in s[i..j]
  {
    if c in s[i..j] {
      var k :| 0 <= k < j - i && s[i..j][k] == c;
      assert s[i + k] == c;
    }
  }

  /** Trimming removes exactly a whitespace prefix from text that ends in non-whitespace. */
  lemma {:induction false} TrimOf(pad: string, s: string)
    requires IsBlank(pad) && s != [] && !IsSpace(s[0]) && !IsSpace(s[|s| - 1])
    ensures Trim(pad + s) == s
  {
    LeadingSpacesOf(pad, s);
    assert (pad + s)[|pad|..] == s;
  }

  /** Text that neither starts nor ends with whitespace is its own trim. */
  lemma TrimOfTrimmed(s: string)
    requires s != [] && !IsSpace(s[0]) && !IsSpace(s[|s| - 1])
    ensures Trim(s) == s
  {
    TrimOf("", s);
    assert "" + s == s;
  }

  lemma {:induction false} LeadingSpacesOf(pad: string, s: string)
    requires IsBlank(pad) && s != [] && !IsSpace(s[0])
    ensures LeadingSpaces(pad + s) == |pad|
  {
    if pad != [] {
      assert (pad + s)[1..] == pad[1..] + s;
      LeadingSpacesOf(pad[1..], s);
    }
  }

  /** `s.startsWith(p)`. */
  predicate StartsWith(s: string, p: string)
  {
    |p| <= |s| && s[..|p|] == p
  }

  /** The index of the first `c` in `s`. */
  function IndexOf(s: string, c: char): (i: nat)
    requires c in s
    ensures i < |s| && s[i] == c && c !in s[..i]
  {
    if s[0] == c then 0 else 1 + IndexOf(s[1..], c)
  }

  /** `s.split('\n')`: the pieces between newlines; never empty, `""` splits to `[""]`. */
  function Lines(s: string): (r: seq<string>)
    ensures |r| >= 1
    ensures forall i :: 0 <= i < |r| ==> '\n' !in r[i]
    decreases |s|
  {
    if '\n' in s then
      var i := IndexOf(s, '\n');
      [s[..i]] + Lines(s[i + 1..])
    else
      [s]
  }

  /** `xs.join('\n')`. */
  function Unlines(xs: seq<string>): string
  {
    if xs == [] then "" else if |xs| == 1 then xs[0] else xs[0] + "\n" + Unlines(xs[1..])
  }

  /** The first `c` is at `k` when `s[k]` is `c` and no earlier character is. */
  lemma IndexOfAt(s: string, c: char, k: nat)
    requires k < |s| && s[k] == c && c !in s[..k]
    ensures IndexOf(s, c) == k
  {
  }

  /** Splitting a line followed by a newline and more text. */
  lemma LinesCons(a: string, b: string)
    requires '\n' !in a
    ensures Lines(a + "\n" + b) == [a] + Lines(b)
  {
    var s := a + "\n" + b;
    assert s[|a|] == '\n';
    assert s[..|a|] == a;
    IndexOfAt(s, '\n', |a|);
    assert s[|a| + 1..] == b;
  }

  /** Joining a line and at least one more. */
  lemma UnlinesCons(x: string, xs: seq<string>)
    requires xs != []
    ensures Unlines([x] + xs) == x + "\n" + Unlines(xs)
  {
    assert ([x] + xs)[1..] == xs;
  }

  /** Joining lines that hold no newline and splitting again gives the lines back. */
  lemma {:induction false} LinesOfUnlines(xs: seq<string>)
    requires xs != []
    requires forall i :: 0 <= i < |xs| ==> '\n' !in xs[i]
    ensures Lines(Unlines(xs)) == xs
  {
    if |xs| == 1 {
      assert Unlines(xs) == xs[0];
    } else {
      var rest := xs[1..];
      assert xs == [xs[0]] + rest;
      UnlinesCons(xs[0], rest);
      LinesCons(xs[0], Unlines(rest));
      LinesOfUnlines(rest);
    }
  }

  /** Splitting on newlines and joining with newlines gives the string back. */
  lemma {:induction false} UnlinesOfLines(s: string)
    ensures Unlines(Lines(s)) == s
    decreases |s|
  {
    if '\n' in s {
      var i := IndexOf(s, '\n');
      var a, b := s[..i], s[i + 1..];
      assert Lines(s) == [a] + Lines(b);
      UnlinesCons(a, Lines(b));
      UnlinesOfLines(b);
      assert s == a + "\n" + b;
    } else {
      assert Lines(s) == [s];
    }
  }

  /** The non-whitespace characters of every line, concatenated. */
  function VisibleAll(xs: seq<string>): string
  {
    if xs == [] then [] else Visible(xs[0]) + VisibleAll(xs[1..])
  }

  /** The newlines `join` inserts are whitespace: only the lines' own characters stay visible. */
  lemma {:induction false} VisibleUnlines(xs: seq<string>)
    ensures Visible(Unlines(xs)) == VisibleAll(xs)
  {
    if |xs| == 1 {
      assert VisibleAll(xs[1..]) == [];
      assert VisibleAll(xs) == Visible(xs[0]) + [];
    } else if |xs| > 1 {
      var rest := Unlines(xs[1..]);
      assert Unlines(xs) == xs[0] + ("\n" + rest);
      VisibleAppend(xs[0], "\n" + rest);
      assert ("\n" + rest)[1..] == rest;
      assert Visible("\n" + rest) == Visible(rest);
      VisibleUnlines(xs[1..]);
    }
  }

  /** Lines that agree in their non-whitespace characters join to texts that do too. */
  lemma {:induction false} VisibleAllPointwise(xs: seq<string>, ys: seq<string>)
    requires |xs| == |ys|
    requires forall i :: 0 <= i < |xs| ==> Visible(xs[i]) == Visible(ys[i])
    ensures VisibleAll(xs) == VisibleAll(ys)
  {
    if xs != [] {
      VisibleAllPointwise(xs[1..], ys[1..]);
    }
  }

  /** `s.repeat(n)`. */
  function Repeat(s: string, n: nat): (r: string)
    ensures |r| == n * |s|
    ensures '\n' !in s ==> '\n' !in r
    ensures IsBlank(s) ==> IsBlank(r)
  {
    if n == 0 then "" else BlankAppend(s, Repeat(s, n - 1)); s + Repeat(s, n - 1)
  }

  /** The indent unit `settings.useTabs ? '\t' : ' '.repeat(settings.tabWidth)`. */
  function IndentUnit(settings: FormatterSettings): (u: string)
    ensures settings.useTabs ==> u == "\t"
    ensures !settings.useTabs ==> |u| == settings.tabWidth && forall i :: 0 <= i < |u| ==> u[i] == ' '
    ensures IsBlank(u) && '\n' !in u
  {
    if settings.useTabs then "\t" else RepeatChar(' ', settings.tabWidth); Repeat(" ", settings.tabWidth)
  }

  /** Copies of a one-character string hold only that character. */
  lemma {:induction false} RepeatChar(c: char, n: nat)
    ensures forall i :: 0 <= i < |Repeat([c], n)| ==> Repeat([c], n)[i] == c
  {
    if n > 0 {
      RepeatChar(c, n - 1);
      assert Repeat([c], n) == [c] + Repeat([c], n - 1);
    }
  }

  /** Any number of copies of a whitespace string is whitespace. */
  lemma RepeatBlank(s: string, n: nat)
    requires IsBlank(s)
    ensures IsBlank(Repeat(s, n)) && Visible(Repeat(s, n)) == []
  {
    VisibleOfBlank(Repeat(s, n));
  }
}
