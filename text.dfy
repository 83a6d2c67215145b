/** The string operations of Ruby and Python 2 that the programs rely on,
    each with the property that says what it does. */
module Text {

  // ---------------------------------------------------------------------------
  // Digits: `scan(/\d+/)`, `re.findall(r'\d+', ...)`, `to_i`, `int`, `to_s`

  predicate IsDigit(c: char) {
    '0' <= c <= '9'
  }

  predicate AllDigits(s: string) {
    forall i :: 0 <= i < |s| ==> IsDigit(s[i])
  }

  /** Length of the run of digits that starts `s`. */
  function LeadingDigits(s: string): (n: nat)
    ensures n <= |s| && AllDigits(s[..n])
    ensures n < |s| ==> !IsDigit(s[n])
  {
    if s == [] || !IsDigit(s[0]) then 0 else 1 + LeadingDigits(s[1..])
  }

  /** Every maximal run of ASCII digits, left to right (`\d` on a plain
      string matches only 0-9 in both languages). */
  function DigitRuns(s: string): (runs: seq<string>)
    ensures forall i :: 0 <= i < |runs| ==> runs[i] != [] && AllDigits(runs[i])
    decreases |s|
  {
    if s == [] then []
    else if !IsDigit(s[0]) then DigitRuns(s[1..])
    else
      var n := LeadingDigits(s);
      [s[..n]] + DigitRuns(s[n..])
  }

  lemma LeadingDigitsOfSeparated(a: string, c: char, b: string)
    requires !IsDigit(c)
    ensures LeadingDigits(a + [c] + b) == LeadingDigits(a)
  {
    if a != [] && IsDigit(a[0]) {
      assert (a + [c] + b)[1..] == a[1..] + [c] + b;
      LeadingDigitsOfSeparated(a[1..], c, b);
    }
  }

  /** A non-digit separates runs: the runs of `a + [c] + b` are the runs of
      `a` followed by the runs of `b`. */
  lemma {:induction false} DigitRunsSplit(a: string, c: char, b: string)
    requires !IsDigit(c)
    ensures DigitRuns(a + [c] + b) == DigitRuns(a) + DigitRuns(b)
    decreases |a|
  {
    var s := a + [c] + b;
    if a == [] {
      assert s[1..] == b;
    } else if !IsDigit(a[0]) {
      assert s[1..] == a[1..] + [c] + b;
      DigitRunsSplit(a[1..], c, b);
    } else {
      var n := LeadingDigits(s);
      LeadingDigitsOfSeparated(a, c, b);
      assert n == LeadingDigits(a) && 1 <= n <= |a|;
      assert s[..n] == a[..n];
      assert s[n..] == a[n..] + [c] + b;
      DigitRunsSplit(a[n..], c, b);
    }
  }

  /** A whole number written in digits is one run. */
  lemma {:induction false} DigitRunsOfNumber(d: string)
    requires d != [] && AllDigits(d)
    ensures DigitRuns(d) == [d]
  {
    var n := LeadingDigits(d);
    AllDigitsLeading(d);
    assert IsDigit(d[0]) && n == |d|;
    assert d[..n] == d && d[n..] == [];
    assert DigitRuns(d) == [d[..n]] + DigitRuns(d[n..]);
  }

  lemma {:induction false} AllDigitsLeading(d: string)
    requires AllDigits(d)
    ensures LeadingDigits(d) == |d|
    decreases |d|
  {
    if d != [] {
      AllDigitsLeading(d[1..]);
    }
  }

  function DigitValue(c: char): (v: nat)
    requires IsDigit(c)
    ensures v < 10
  {
    c as int - '0' as int
  }

  function DigitChar(v: nat): (c: char)
    requires v < 10
    ensures IsDigit(c) && DigitValue(c) == v
  {
    ('0' as int + v) as char
  }

  /** The number a digit string denotes (`to_i`, `int`); leading zeros allowed. */
  function DigitsValue(s: string): nat
    requires AllDigits(s)
  {
    if s == [] then 0 else 10 * DigitsValue(s[..|s| - 1]) + DigitValue(s[|s| - 1])
  }

  /** Decimal rendering of a natural number (`to_s`, `str`). */
  function NatToString(n: nat): (s: string)
    ensures s != [] && AllDigits(s)
  {
    if n < 10 then [DigitChar(n)] else NatToString(n / 10) + [DigitChar(n % 10)]
  }

  /** Decimal rendering of an integer, with a minus sign when negative. */
  function IntToString(i: int): (s: string)
    ensures s != [] && (i >= 0 <==> IsDigit(s[0]))
  {
    if i >= 0 then NatToString(i) else "-" + NatToString(-i)
  }

  /** Reading back a rendered number gives the number. */
  lemma {:induction false} NatToStringRoundTrip(n: nat)
    ensures DigitsValue(NatToString(n)) == n
  {
    if n >= 10 {
      NatToStringRoundTrip(n / 10);
      var s := NatToString(n);
      assert s[..|s| - 1] == NatToString(n / 10);
    }
  }

  // ---------------------------------------------------------------------------
  // Sequences: Ruby `uniq`

  predicate Distinct<T(==)>(s: seq<T>) {
    forall i, j :: 0 <= i < j < |s| ==> s[i] != s[j]
  }

  /** Ruby `uniq`: the first occurrence of every element, in order. */
  function Uniq<T(==,!new)>(s: seq<T>): (r: seq<T>)
    ensures forall x :: x in r <==> x in s
    ensures Distinct(r)
    ensures |r| <= |s|
  {
    if s == [] then []
    else
      var p := Uniq(s[..|s| - 1]);
      assert forall x :: x in s[..|s| - 1] ==> x in s;
      assert forall x :: x in s ==> x in s[..|s| - 1] || x == s[|s| - 1];
      if s[|s| - 1] in p then p else p + [s[|s| - 1]]
  }

  /** A sequence without repetitions is its own `uniq`. */
  lemma {:induction false} UniqOfDistinct<T(!new)>(s: seq<T>)
    requires Distinct(s)
    ensures Uniq(s) == s
  {
    if s != [] {
      var init := s[..|s| - 1];
      UniqOfDistinct(init);
      assert s[|s| - 1] !in init;
      assert init + [s[|s| - 1]] == s;
    }
  }

  // ---------------------------------------------------------------------------
  // Line and whitespace handling

  /** Ruby `chomp` without argument: drops one trailing "\r\n", "\n" or "\r". */
  function Chomp(s: string): (r: string)
    ensures r == s || (|r| < |s| && r == s[..|r|] && forall k :: |r| <= k < |s| ==> s[k] in {'\n', '\r'})
  {
    if |s| >= 2 && s[|s| - 2..] == "\r\n" then s[..|s| - 2]
    else if |s| >= 1 && (s[|s| - 1] == '\n' || s[|s| - 1] == '\r') then s[..|s| - 1]
    else s
  }

  /** A typed line comes back without its terminator. */
  lemma ChompLine(s: string)
    requires s == [] || (s[|s| - 1] != '\n' && s[|s| - 1] != '\r')
    ensures Chomp(s + "\n") == s && Chomp(s) == s
  {
    var t := s + "\n";
    assert t[..|t| - 1] == s;
    if |t| >= 2 {
      assert t[|t| - 2..] == [s[|s| - 1], '\n'];
    }
  }

  /** Ruby's whitespace for `strip`: NUL, \t, \n, \v, \f, \r and space. */
  const RubyWhitespace: set<char> := {'\U{0}', '\t', '\n', '\U{b}', '\U{c}', '\r', ' '}

  /** Python 2 `str.strip()` whitespace: space, \t, \n, \v, \f, \r. */
  const PythonWhitespace: set<char> := {'\t', '\n', '\U{b}', '\U{c}', '\r', ' '}

  predicate AllIn(s: string, cs: set<char>) {
    forall k :: 0 <= k < |s| ==> s[k] in cs
  }

  /** `s` is `r` with characters of `cs` added on either side. */
  ghost predicate PaddedWith(s: string, r: string, cs: set<char>) {
    exists i :: PaddedAt(s, r, cs, i)
  }

  /** ... with `r` starting at index `i` of `s`. */
  ghost predicate PaddedAt(s: string, r: string, cs: set<char>, i: int) {
    0 <= i <= |s| - |r| && s[i..i + |r|] == r && AllIn(s[..i], cs) && AllIn(s[i + |r|..], cs)
  }

  /** Python `str.strip(chars)` and, with `RubyWhitespace`, Ruby `strip`:
      characters of `cs` dropped from the front, then from the back. */
  function StripChars(s: string, cs: set<char>): (r: string)
    ensures r == [] || (r[0] !in cs && r[|r| - 1] !in cs)
    decreases |s|
  {
    if s != [] && s[0] in cs then StripChars(s[1..], cs) else StripTrailing(s, cs)
  }

  function StripTrailing(s: string, cs: set<char>): (r: string)
    ensures |r| <= |s| && r == s[..|r|]
    ensures r == [] || r[|r| - 1] !in cs
    ensures r != [] ==> r[0] == s[0]
    decreases |s|
  {
    if s != [] && s[|s| - 1] in cs then StripTrailing(s[..|s| - 1], cs) else s
  }

  function RubyStrip(s: string): string {
    StripChars(s, RubyWhitespace)
  }

  function PythonStrip(s: string): string {
    StripChars(s, PythonWhitespace)
  }

  /** What stripping keeps is the middle of `s`, with only characters of
      `cs` cut away on either side. */
  lemma {:induction false} StripCharsPadded(s: string, cs: set<char>)
    ensures PaddedWith(s, StripChars(s, cs), cs)
    decreases |s|
  {
    if s != [] && s[0] in cs {
      StripCharsPadded(s[1..], cs);
      PaddedWithOneMore(s, StripChars(s, cs), cs);
    } else {
      var r := StripTrailing(s, cs);
      StripTrailingPadded(s, cs);
      assert PaddedAt(s, r, cs, 0) by {
        assert s[0..|r|] == r && s[..0] == [];
      }
    }
  }

  lemma PaddedWithOneMore(s: string, r: string, cs: set<char>)
    requires s != [] && s[0] in cs && PaddedWith(s[1..], r, cs)
    ensures PaddedWith(s, r, cs)
  {
    var t := s[1..];
    var i :| PaddedAt(t, r, cs, i);
    assert PaddedAt(s, r, cs, i + 1) by {
      assert s[i + 1..i + 1 + |r|] == r by {
        assert s[i + 1..i + 1 + |r|] == t[i..i + |r|];
      }
      assert AllIn(s[i + 1 + |r|..], cs) by {
        assert s[i + 1 + |r|..] == t[i + |r|..];
      }
      assert AllIn(s[..i + 1], cs) by {
        assert s[..i + 1] == [s[0]] + t[..i];
        AllInConcat([s[0]], t[..i], cs);
      }
    }
  }

  lemma AllInConcat(a: string, b: string, cs: set<char>)
    requires AllIn(a, cs) && AllIn(b, cs)
    ensures AllIn(a + b, cs)
  {
    assert forall k :: 0 <= k < |a + b| ==> (a + b)[k] == if k < |a| then a[k] else b[k - |a|];
  }

  lemma {:induction false} StripTrailingPadded(s: string, cs: set<char>)
    ensures AllIn(s[|StripTrailing(s, cs)|..], cs)
    decreases |s|
  {
    if s != [] && s[|s| - 1] in cs {
      var t := s[..|s| - 1];
      StripTrailingPadded(t, cs);
      var n := |StripTrailing(t, cs)|;
      assert s[n..] == t[n..] + [s[|s| - 1]];
    }
  }

  /** Stripping text that has nothing to strip at either end changes nothing. */
  lemma StripCharsClean(s: string, cs: set<char>)
    requires s == [] || (s[0] !in cs && s[|s| - 1] !in cs)
    ensures StripChars(s, cs) == s
  {
  }

  /** Ruby `tr(chars, '')`: every character of `cs` deleted. */
  function DeleteChars(s: string, cs: set<char>): (r: string)
    ensures forall k :: 0 <= k < |r| ==> r[k] !in cs
    ensures |r| <= |s|
  {
    if s == [] then []
    else if s[0] in cs then DeleteChars(s[1..], cs)
    else [s[0]] + DeleteChars(s[1..], cs)
  }

  /** Deletion works character by character. */
  lemma {:induction false} DeleteCharsConcat(a: string, b: string, cs: set<char>)
    ensures DeleteChars(a + b, cs) == DeleteChars(a, cs) + DeleteChars(b, cs)
    decreases |a|
  {
    if a != [] {
      assert (a + b)[1..] == a[1..] + b;
      DeleteCharsConcat(a[1..], b, cs);
    } else {
      assert a + b == b;
    }
  }

  /** Text without any character of `cs` is kept as it is. */
  lemma {:induction false} DeleteCharsNone(s: string, cs: set<char>)
    requires forall k :: 0 <= k < |s| ==> s[k] !in cs
    ensures DeleteChars(s, cs) == s
    decreases |s|
  {
    if s != [] {
      DeleteCharsNone(s[1..], cs);
    }
  }

  /** Ruby ASCII `upcase` / Python 2 `str.upper`. */
  function UpcaseChar(c: char): char {
    if 'a' <= c <= 'z' then (c as int - 32) as char else c
  }

  function Upcase(s: string): (r: string)
    ensures |r| == |s| && forall k :: 0 <= k < |s| ==> r[k] == UpcaseChar(s[k])
  {
    if s == [] then [] else [UpcaseChar(s[0])] + Upcase(s[1..])
  }

  /** The push and continue prompts accept exactly `y` and `Y`. */
  lemma UpcaseIsY(s: string)
    ensures Upcase(s) == "Y" <==> s == "y" || s == "Y"
  {
    if Upcase(s) == "Y" {
      assert |s| == 1 && UpcaseChar(s[0]) == 'Y';
    }
  }

  // ---------------------------------------------------------------------------
  // Splitting and joining

  /** Every field between occurrences of `c` (no field is dropped). */
  function SplitOn(s: string, c: char): (parts: seq<string>)
    ensures |parts| >= 1
    ensures forall i, k :: 0 <= i < |parts| && 0 <= k < |parts[i]| ==> parts[i][k] != c
  {
    if s == [] then [""]
    else
      var rest := SplitOn(s[1..], c);
      if s[0] == c then [""] + rest else [[s[0]] + rest[0]] + rest[1..]
  }

  function Join(parts: seq<string>, c: char): string {
    if parts == [] then ""
    else if |parts| == 1 then parts[0]
    else parts[0] + [c] + Join(parts[1..], c)
  }

  /** Splitting loses nothing: joining the fields with the separator gives
      the text back. */
  lemma {:induction false} SplitJoinRoundTrip(s: string, c: char)
    ensures Join(SplitOn(s, c), c) == s
    decreases |s|
  {
    if s != [] {
      var rest := SplitOn(s[1..], c);
      SplitJoinRoundTrip(s[1..], c);
      if s[0] == c {
        assert SplitOn(s, c) == [""] + rest;
        assert s == [] + [c] + s[1..];
      } else {
        var parts := SplitOn(s, c);
        assert parts == [[s[0]] + rest[0]] + rest[1..];
        if |rest| == 1 {
          assert s[1..] == rest[0];
        } else {
          assert parts[1..] == rest[1..];
          assert Join(rest, c) == rest[0] + [c] + Join(rest[1..], c);
        }
      }
    }
  }

  /** Text without the separator is one field. */
  lemma {:induction false} SplitOnNoSeparator(s: string, c: char)
    requires c !in s
    ensures SplitOn(s, c) == [s]
    decreases |s|
  {
    if s != [] {
      SplitOnNoSeparator(s[1..], c);
      assert [s[0]] + s[1..] == s;
    }
  }

  /** The first separator ends the first field. */
  lemma {:induction false} SplitOnFirstSeparator(a: string, c: char, b: string)
    requires c !in a
    ensures SplitOn(a + [c] + b, c) == [a] + SplitOn(b, c)
    decreases |a|
  {
    var s := a + [c] + b;
    if a == [] {
      assert s[1..] == b;
    } else {
      assert s[1..] == a[1..] + [c] + b;
      SplitOnFirstSeparator(a[1..], c, b);
      assert [a[0]] + a[1..] == a;
    }
  }

  /** Joining fields that do not contain the separator, and splitting
      again, gives the fields back. */
  lemma {:induction false} JoinSplitRoundTrip(parts: seq<string>, c: char)
    requires parts != []
    requires forall i :: 0 <= i < |parts| ==> c !in parts[i]
    ensures SplitOn(Join(parts, c), c) == parts
    decreases |parts|
  {
    if |parts| == 1 {
      SplitOnNoSeparator(parts[0], c);
    } else {
      JoinSplitRoundTrip(parts[1..], c);
      SplitOnFirstSeparator(parts[0], c, Join(parts[1..], c));
      assert [parts[0]] + parts[1..] == parts;
    }
  }

  function DropTrailingEmpty(parts: seq<string>): (r: seq<string>)
    ensures |r| <= |parts| && r == parts[..|r|]
    ensures r == [] || r[|r| - 1] != ""
    ensures forall k :: |r| <= k < |parts| ==> parts[k] == ""
  {
    if parts == [] then []
    else if parts[|parts| - 1] == "" then DropTrailingEmpty(parts[..|parts| - 1])
    else parts
  }

  /** Ruby `split(/\n/)`: the fields between newlines, trailing empty ones removed. */
  function RubySplitLines(s: string): (lines: seq<string>)
    ensures forall i, k :: 0 <= i < |lines| && 0 <= k < |lines[i]| ==> lines[i][k] != '\n'
    ensures lines == [] || lines[|lines| - 1] != ""
  {
    DropTrailingEmpty(SplitOn(s, '\n'))
  }

  /** Index of the first "\n" or "\r", or |s| when there is none. */
  function LineEnd(s: string): (i: nat)
    ensures i <= |s| && (i < |s| ==> s[i] == '\n' || s[i] == '\r')
    ensures forall k :: 0 <= k < i ==> s[k] != '\n' && s[k] != '\r'
  {
    if s == [] || s[0] == '\n' || s[0] == '\r' then 0 else 1 + LineEnd(s[1..])
  }

  /** Python 2 `str.splitlines()`: lines end at "\n", "\r" or "\r\n"; a final
      terminator does not start an extra empty line. */
  function PythonSplitLines(s: string): (lines: seq<string>)
    ensures forall i, k :: 0 <= i < |lines| && 0 <= k < |lines[i]| ==> lines[i][k] != '\n' && lines[i][k] != '\r'
    decreases |s|
  {
    if s == [] then []
    else
      var i := LineEnd(s);
      if i == |s| then [s]
      else
        var skip := if s[i] == '\r' && i + 1 < |s| && s[i + 1] == '\n' then 2 else 1;
        [s[..i]] + PythonSplitLines(s[i + skip..])
  }

  // ---------------------------------------------------------------------------
  // Substrings

  /** Python `sub in s`. */
  predicate IsSubstring(sub: string, s: string)
    decreases |s|
  {
    (|sub| <= |s| && s[..|sub|] == sub) || (s != [] && IsSubstring(sub, s[1..]))
  }

  lemma {:induction false} SubstringAt(sub: string, s: string, i: nat)
    requires i + |sub| <= |s| && s[i..i + |sub|] == sub
    ensures IsSubstring(sub, s)
    decreases i
  {
    if i > 0 {
      assert s[1..][i - 1..i - 1 + |sub|] == s[i..i + |sub|];
      SubstringAt(sub, s[1..], i - 1);
    }
  }

  lemma {:induction false} SubstringWitness(sub: string, s: string) returns (i: nat)
    requires IsSubstring(sub, s)
    ensures i + |sub| <= |s| && s[i..i + |sub|] == sub
    decreases |s|
  {
    if |sub| <= |s| && s[..|sub|] == sub {
      i := 0;
    } else {
      var j := SubstringWitness(sub, s[1..]);
      i := j + 1;
      assert s[1..][j..j + |sub|] == s[i..i + |sub|];
    }
  }

  predicate OccursAt(sub: string, s: string, i: int) {
    0 <= i <= |s| - |sub| && s[i..i + |sub|] == sub
  }

  /** `sub in s` holds exactly when `sub` occurs at some position of `s`. */
  lemma SubstringIff(sub: string, s: string)
    ensures IsSubstring(sub, s) <==> exists i :: OccursAt(sub, s, i)
  {
    if IsSubstring(sub, s) {
      var i := SubstringWitness(sub, s);
      assert OccursAt(sub, s, i);
    }
    if exists i :: OccursAt(sub, s, i) {
      var i :| OccursAt(sub, s, i);
      SubstringAt(sub, s, i);
    }
  }

  // ---------------------------------------------------------------------------
  // Ruby `sub!(c, '')` and `File.basename`

  function IndexOf(s: string, c: char): (i: nat)
    ensures i <= |s| && (i < |s| ==> s[i] == c)
    ensures forall k :: 0 <= k < i ==> s[k] != c
  {
    if s == [] || s[0] == c then 0 else 1 + IndexOf(s[1..], c)
  }

  /** Ruby `sub(c, '')`: removes the first occurrence of `c` only. */
  function RemoveFirst(s: string, c: char): (r: string)
    ensures c in s ==> |r| == |s| - 1
    ensures c !in s ==> r == s
  {
    var i := IndexOf(s, c);
    if i == |s| then s else s[..i] + s[i + 1..]
  }

  /** One `c` fewer and every other character kept as often. */
  lemma RemoveFirstCounts(s: string, c: char)
    requires c in s
    ensures multiset(RemoveFirst(s, c)) == multiset(s) - multiset{c}
  {
    var i := IndexOf(s, c);
    assert s == s[..i] + [c] + s[i + 1..];
    assert multiset(s) == multiset(s[..i]) + multiset{c} + multiset(s[i + 1..]);
  }

  /** Removing the first quote keeps the text before it untouched. */
  lemma RemoveFirstKeepsPrefix(a: string, c: char, b: string)
    requires c !in a
    ensures RemoveFirst(a + [c] + b, c) == a + b
  {
    var s := a + [c] + b;
    assert s[|a|] == c;
    assert IndexOf(s, c) == |a|;
    assert s[..|a|] == a && s[|a| + 1..] == b;
  }

  function LastIndexOf(s: string, c: char): (i: int)
    ensures -1 <= i < |s| && (i >= 0 ==> s[i] == c)
  {
    if s == [] then -1
    else if s[|s| - 1] == c then |s| - 1
    else LastIndexOf(s[..|s| - 1], c)
  }

  /** No `c` comes after the one `LastIndexOf` finds. */
  lemma {:induction false} LastIndexOfIsLast(s: string, c: char, k: int)
    requires LastIndexOf(s, c) < k < |s|
    ensures s[k] != c
    decreases |s|
  {
    if s[|s| - 1] != c && k < |s| - 1 {
      LastIndexOfIsLast(s[..|s| - 1], c, k);
    }
  }

  /** Ruby `File.basename`: trailing slashes are ignored, then everything up
      to the last slash goes; a path of slashes only is "/". */
  function Basename(p: string): string {
    if p == [] then ""
    else
      var t := StripTrailing(p, {'/'});
      if t == [] then "/" else t[LastIndexOf(t, '/') + 1..]
  }

  /** The last component of a path written as `dir/name`. */
  lemma BasenameOfJoin(dir: string, name: string)
    requires name != [] && '/' !in name
    ensures Basename(dir + "/" + name) == name
  {
    var p := dir + "/" + name;
    assert p[|p| - 1] == name[|name| - 1];
    LastSlashOfJoin(dir, name);
    assert p[|dir| + 1..] == name;
  }

  lemma {:induction false} LastSlashOfJoin(dir: string, name: string)
    requires '/' !in name
    ensures LastIndexOf(dir + "/" + name, '/') == |dir|
    decreases |name|
  {
    var p := dir + "/" + name;
    if name == [] {
      assert p[|p| - 1] == '/';
    } else {
      var init := name[..|name| - 1];
      assert p[..|p| - 1] == dir + "/" + init;
      assert p[|p| - 1] == name[|name| - 1];
      assert '/' !in init by {
        assert forall x :: x in init ==> x in name;
      }
      LastSlashOfJoin(dir, init);
    }
  }

  // ---------------------------------------------------------------------------
  // A Ruby String object, which `sub!` changes in place for every holder

  class MutableString {
    var value: string

    constructor (value: string)
      ensures this.value == value
    {
      this.value := value;
    }
  }
}
