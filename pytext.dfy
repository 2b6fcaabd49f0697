/**
  The three pieces of Python string handling that the checklist outline
  relies on: `str.strip()` with no argument, `str.split('\n')` and
  `'\n'.join(...)`, together with the facts about them that the outline
  round trip needs.
 */
module PyText {

  /** Python's `str.isspace()` for one character (the Unicode whitespace
      characters that `str.strip()` removes when given no argument). */
  predicate IsSpace(c: char) {
    c in Whitespace
  }

  const Whitespace: set<char> :=
    {'\t', '\n', '\U{0B}', '\U{0C}', '\r', '\U{1C}', '\U{1D}', '\U{1E}', '\U{1F}', ' ',
     '\U{85}', '\U{A0}', '\U{1680}', '\U{2000}', '\U{2001}', '\U{2002}', '\U{2003}',
     '\U{2004}', '\U{2005}', '\U{2006}', '\U{2007}', '\U{2008}', '\U{2009}', '\U{200A}',
     '\U{2028}', '\U{2029}', '\U{202F}', '\U{205F}', '\U{3000}'}

  predicate AllSpace(s: string) {
    forall i :: 0 <= i < |s| ==> IsSpace(s[i])
  }

  /** `s.lstrip()`: what is left after the leading whitespace. */
  function TrimStart(s: string): (r: string)
    ensures |r| <= |s|
  {
    if |s| > 0 && IsSpace(s[0]) then TrimStart(s[1..]) else s
  }

  /** What `lstrip` leaves is a suffix of the string. */
  lemma {:induction false} TrimStartSuffix(s: string)
    ensures TrimStart(s) == s[|s| - |TrimStart(s)|..]
    decreases |s|
  {
    if |s| > 0 && IsSpace(s[0]) {
      TrimStartSuffix(s[1..]);
      assert s[1..][|s| - 1 - |TrimStart(s)|..] == s[|s| - |TrimStart(s)|..];
    }
  }

  /** What `TrimStart` drops is whitespace. */
  lemma {:induction false} TrimStartDropsSpace(s: string)
    ensures AllSpace(s[..|s| - |TrimStart(s)|])
    decreases |s|
  {
    if s != [] && IsSpace(s[0]) {
      TrimStartDropsSpace(s[1..]);
      var k := |s| - |TrimStart(s)|;
      forall i | 0 <= i < k ensures IsSpace(s[i]) {
        if i > 0 { assert s[i] == s[1..][..k - 1][i - 1]; }
      }
    }
  }

  /** `s.rstrip()`: what is left after the trailing whitespace. */
  function TrimEnd(s: string): (r: string)
    ensures |r| <= |s|
  {
    if |s| > 0 && IsSpace(s[|s| - 1]) then TrimEnd(s[..|s| - 1]) else s
  }

  /** What `rstrip` leaves is a prefix of the string. */
  lemma {:induction false} TrimEndPrefix(s: string)
    ensures TrimEnd(s) == s[..|TrimEnd(s)|]
    decreases |s|
  {
    if |s| > 0 && IsSpace(s[|s| - 1]) {
      TrimEndPrefix(s[..|s| - 1]);
      assert s[..|s| - 1][..|TrimEnd(s)|] == s[..|TrimEnd(s)|];
    }
  }

  /** What `TrimEnd` drops is whitespace. */
  lemma {:induction false} TrimEndDropsSpace(s: string)
    ensures AllSpace(s[|TrimEnd(s)|..])
    decreases |s|
  {
    if s != [] && IsSpace(s[|s| - 1]) {
      var p := s[..|s| - 1];
      TrimEndDropsSpace(p);
      var k := |TrimEnd(s)|;
      forall i | k <= i < |s| ensures IsSpace(s[i]) {
        if i < |s| - 1 { assert s[i] == p[k..][i - k]; }
      }
    }
  }

  /** `s.strip()`. */
  function Strip(s: string): (r: string)
    ensures |r| <= |s|
  {
    TrimEnd(TrimStart(s))
  }

  /** A string with no whitespace at either end. */
  predicate Stripped(s: string) {
    |s| == 0 || (!IsSpace(s[0]) && !IsSpace(s[|s| - 1]))
  }

  lemma {:induction false} TrimStartFront(s: string)
    ensures TrimStart(s) == [] || !IsSpace(TrimStart(s)[0])
    decreases |s|
  {
    if s != [] && IsSpace(s[0]) { TrimStartFront(s[1..]); }
  }

  lemma {:induction false} TrimEndBack(s: string)
    ensures TrimEnd(s) == [] || !IsSpace(TrimEnd(s)[|TrimEnd(s)| - 1])
    decreases |s|
  {
    if s != [] && IsSpace(s[|s| - 1]) { TrimEndBack(s[..|s| - 1]); }
  }

  /** The strip of a string has no whitespace at either end. */
  lemma StripIsStripped(s: string)
    ensures Stripped(Strip(s))
  {
    var t := TrimStart(s);
    TrimStartFront(s);
    TrimEndBack(t);
    TrimEndPrefix(t);
  }

  /** `s.split('\n')`: the pieces between line feeds; never empty, and
      `"".split('\n') == [""]`. */
  function Split(s: string): (r: seq<string>)
    ensures |r| >= 1
    ensures forall i :: 0 <= i < |r| ==> '\n' !in r[i]
  {
    if |s| == 0 then [[]]
    else if s[0] == '\n' then [[]] + Split(s[1..])
    else
      var rest := Split(s[1..]);
      [[s[0]] + rest[0]] + rest[1..]
  }

  /** `'\n'.join(lines)`. */
  function Join(lines: seq<string>): (r: string)
    ensures lines == [] ==> r == []
  {
    if |lines| == 0 then []
    else if |lines| == 1 then lines[0]
    else lines[0] + "\n" + Join(lines[1..])
  }

  // ----- strip -----

  /** A string that starts with text loses nothing to `lstrip`. */
  lemma TrimStartAtText(s: string)
    requires s != [] && !IsSpace(s[0])
    ensures TrimStart(s) == s
  {
  }

  /** A string that ends with text loses nothing to `rstrip`. */
  lemma TrimEndAtText(s: string)
    requires s != [] && !IsSpace(s[|s| - 1])
    ensures TrimEnd(s) == s
  {
  }

  /** The empty string strips to itself. */
  lemma StripNothing(s: string)
    requires |s| == 0
    ensures Strip(s) == s
  {
  }

  /** A non-empty string is its front followed by its last character. */
  lemma DropLast(s: string)
    requires s != []
    ensures s == s[..|s| - 1] + [s[|s| - 1]]
  {
  }

  /** A string without whitespace at either end is its own strip. */
  lemma {:induction false} StripOfTrimmed(s: string)
    requires Stripped(s)
    ensures Strip(s) == s
  {
  }

  lemma {:induction false} StripIdempotent(s: string)
    ensures Strip(Strip(s)) == Strip(s)
  {
    StripIsStripped(s);
    StripOfTrimmed(Strip(s));
  }

  /** Every character of `Strip(s)` is a character of `s`. */
  lemma {:induction false} StripChars(s: string, c: char)
    requires c in Strip(s)
    ensures c in s
  {
    var t := TrimStart(s);
    var m := TrimEnd(t);
    var i :| 0 <= i < |m| && m[i] == c;
    TrimEndPrefix(t);
    TrimStartSuffix(s);
    assert t[i] == c;
    assert s[|s| - |t| + i] == c;
  }

  lemma {:induction false} TrimStartAfterSpaces(w: string, x: string)
    requires AllSpace(w)
    ensures TrimStart(w + x) == TrimStart(x)
    decreases |w|
  {
    if w != [] {
      assert IsSpace(w[0]);
      assert (w + x)[0] == w[0];
      assert (w + x)[1..] == w[1..] + x;
      assert TrimStart(w + x) == TrimStart(w[1..] + x);
      assert AllSpace(w[1..]) by {
        forall i | 0 <= i < |w[1..]| ensures IsSpace(w[1..][i]) { assert w[1..][i] == w[i + 1]; }
      }
      TrimStartAfterSpaces(w[1..], x);
    } else {
      assert w + x == x;
    }
  }

  lemma {:induction false} TrimStartBeforeText(x: string, y: string)
    requires !AllSpace(x)
    ensures TrimStart(x + y) == TrimStart(x) + y
    decreases |x|
  {
    assert x != [];
    if IsSpace(x[0]) {
      assert !AllSpace(x[1..]) by {
        var i :| 0 <= i < |x| && !IsSpace(x[i]);
        assert i > 0 && x[1..][i - 1] == x[i];
      }
      assert (x + y)[1..] == x[1..] + y;
      TrimStartBeforeText(x[1..], y);
    }
  }

  /** A leading whitespace character does not change the strip. */
  lemma {:induction false} StripAfterSpace(c: char, x: string)
    requires IsSpace(c)
    ensures Strip([c] + x) == Strip(x)
  {
    var s := [c] + x;
    assert s[0] == c && s[1..] == x;
    assert TrimStart(s) == TrimStart(x);
  }

  /** A trailing whitespace character does not change the strip. */
  lemma {:induction false} StripBeforeSpace(x: string, c: char)
    requires IsSpace(c)
    ensures Strip(x + [c]) == Strip(x)
  {
    if AllSpace(x) {
      AllSpaceStripsToNothing(x, c);
    } else {
      TrimStartBeforeText(x, [c]);
      TrimEndAfterSpace(TrimStart(x), c);
    }
  }

  lemma AllSpaceStripsToNothing(x: string, c: char)
    requires AllSpace(x) && IsSpace(c)
    ensures TrimStart(x + [c]) == [] && TrimStart(x) == []
  {
    TrimStartAfterSpaces(x, [c]);
    TrimStartAfterSpaces(x, []);
    assert x + [] == x;
    assert [c][1..] == [];
  }

  lemma TrimEndAfterSpace(t: string, c: char)
    requires IsSpace(c)
    ensures TrimEnd(t + [c]) == TrimEnd(t)
  {
    var u := t + [c];
    assert u[..|u| - 1] == t;
  }

  // ----- split and join -----

  /** A string without a line feed splits into itself. */
  lemma {:induction false} SplitWithoutNewline(s: string)
    requires '\n' !in s
    ensures Split(s) == [s]
  {
    if s != [] {
      assert '\n' !in s[1..] by {
        forall i | 0 <= i < |s[1..]| ensures s[1..][i] != '\n' { assert s[1..][i] == s[i + 1]; }
      }
      SplitWithoutNewline(s[1..]);
      assert [s[0]] + s[1..] == s;
    }
  }

  /** A line without a line feed followed by one starts a new piece. */
  lemma {:induction false} SplitAfterLine(l: string, y: string)
    requires '\n' !in l
    ensures Split(l + "\n" + y) == [l] + Split(y)
    decreases |l|
  {
    if l == [] {
      assert l + "\n" + y == "\n" + y;
      assert ("\n" + y)[1..] == y;
    } else {
      var s := l + "\n" + y;
      assert s[0] == l[0] && s[1..] == l[1..] + "\n" + y;
      assert '\n' !in l[1..] by {
        forall i | 0 <= i < |l[1..]| ensures l[1..][i] != '\n' { assert l[1..][i] == l[i + 1]; }
      }
      SplitAfterLine(l[1..], y);
      assert [l[0]] + l[1..] == l;
    }
  }

  /** Splitting a joined list of lines gives the lines back, provided no
      line holds a line feed. */
  lemma {:induction false} SplitJoin(lines: seq<string>)
    requires lines != []
    requires forall i :: 0 <= i < |lines| ==> '\n' !in lines[i]
    ensures Split(Join(lines)) == lines
    decreases |lines|
  {
    if |lines| == 1 {
      SplitWithoutNewline(lines[0]);
    } else {
      SplitJoin(lines[1..]);
      SplitAfterLine(lines[0], Join(lines[1..]));
      assert [lines[0]] + lines[1..] == lines;
    }
  }

  /** Appending a line feed to a string opens a new, empty last piece. */
  lemma {:induction false} SplitSnocNewline(x: string)
    ensures Split(x + "\n") == Split(x) + [[]]
    decreases |x|
  {
    var s := x + "\n";
    if x == [] {
      assert s == "\n" && s[1..] == [];
    } else {
      assert s[0] == x[0] && s[1..] == x[1..] + "\n";
      SplitSnocNewline(x[1..]);
    }
  }

  /** Appending any other character extends the last piece. */
  lemma {:induction false} SplitSnoc(x: string, c: char)
    requires c != '\n'
    ensures
      var p := Split(x);
      Split(x + [c]) == p[..|p| - 1] + [p[|p| - 1] + [c]]
    decreases |x|
  {
    var s := x + [c];
    if x == [] {
      assert s == [c] && s[1..] == [];
      assert Split(s[1..]) == [[]];
      assert [c] + [] == [c];
    } else {
      assert s[0] == x[0] && s[1..] == x[1..] + [c];
      SplitSnoc(x[1..], c);
      var q := Split(x[1..]);
      var q' := Split(x[1..] + [c]);
      if x[0] == '\n' {
        assert Split(x) == [[]] + q;
        assert Split(s) == [[]] + q';
      } else {
        assert Split(x) == [[x[0]] + q[0]] + q[1..];
        assert Split(s) == [[x[0]] + q'[0]] + q'[1..];
        if |q| > 1 {
          assert q'[0] == q[0];
          assert q'[1..] == q[1..][..|q| - 2] + [q[|q| - 1] + [c]];
        } else {
          assert q'[0] == q[0] + [c];
          assert [x[0]] + (q[0] + [c]) == ([x[0]] + q[0]) + [c];
        }
      }
    }
  }
}
