/**
 * The JavaScript string primitives both scripts rely on (`trim`, `toLowerCase`,
 * `includes`, `startsWith`, `split`, `join`, `length`, number formatting and
 * `parseInt`), stated over Dafny strings, i.e. sequences of Unicode scalar values.
 */
module JsString {

  /** LineTerminator of ECMA-262: the characters `.` in a regular expression does not match. */
  predicate IsLineTerminator(c: char) {
    c == '\n' || c == '\r' || c == '\U{2028}' || c == '\U{2029}'
  }

  /**
   * WhiteSpace or LineTerminator of ECMA-262: the characters `String.prototype.trim`
   * removes and the regular-expression class `\s` matches. The space separators are
   * those of Unicode category Zs, U+00A0 (no-break space) among them.
   */
  predicate IsWhitespace(c: char) {
    || IsLineTerminator(c)
    || c == '\t' || c == '\U{000B}' || c == '\U{000C}' || c == '\U{FEFF}'
    || c == ' ' || c == '\U{00A0}' || c == '\U{1680}' || ('\U{2000}' <= c <= '\U{200A}')
    || c == '\U{202F}' || c == '\U{205F}' || c == '\U{3000}'
  }

  const NoBreakSpace: char := '\U{00A0}'

  /** A string with no whitespace at either end. */
  predicate IsTrimmed(s: string) {
    s == [] || (!IsWhitespace(s[0]) && !IsWhitespace(s[|s| - 1]))
  }

  /** `String.prototype.trimStart`: the string without its leading whitespace run. */
  function TrimStart(s: string): (r: string)
    ensures r == [] || !IsWhitespace(r[0])
    decreases |s|
  {
    if s != [] && IsWhitespace(s[0]) then TrimStart(s[1..]) else s
  }

  /** The string without its trailing whitespace run. */
  function TrimEnd(s: string): (r: string)
    ensures r == [] || !IsWhitespace(r[|r| - 1])
    ensures r != [] ==> s != [] && r[0] == s[0]
    decreases |s|
  {
    if s != [] && IsWhitespace(s[|s| - 1]) then TrimEnd(s[..|s| - 1]) else s
  }

  /** `String.prototype.trim`: both whitespace runs cut. */
  function Trim(s: string): (r: string)
    ensures IsTrimmed(r)
  {
    TrimEnd(TrimStart(s))
  }

  /** Trimming a string that has no whitespace at its ends changes nothing. */
  lemma TrimOfTrimmed(s: string)
    requires IsTrimmed(s)
    ensures Trim(s) == s
  {
  }

  /** `trimStart` drops a leading run of whitespace and keeps the rest whole. */
  lemma {:induction false} TrimStartSkipsRun(w: string, rest: string)
    requires forall j :: 0 <= j < |w| ==> IsWhitespace(w[j])
    requires rest == [] || !IsWhitespace(rest[0])
    ensures TrimStart(w + rest) == rest
    decreases |w|
  {
    if w != [] {
      assert (w + rest)[1..] == w[1..] + rest;
      TrimStartSkipsRun(w[1..], rest);
    } else {
      assert w + rest == rest;
    }
  }

  /** `trimStart` keeps a tail of the string. */
  lemma {:induction false} TrimStartIsSuffix(s: string)
    ensures |TrimStart(s)| <= |s| && TrimStart(s) == s[|s| - |TrimStart(s)|..]
    decreases |s|
  {
    if s != [] && IsWhitespace(s[0]) {
      TrimStartIsSuffix(s[1..]);
    }
  }

  /** The trimmed text is empty exactly when the string is all whitespace. */
  lemma {:induction false} TrimEmpty(s: string)
    ensures Trim(s) == [] <==> forall j :: 0 <= j < |s| ==> IsWhitespace(s[j])
    decreases |s|
  {
    if s != [] && IsWhitespace(s[0]) {
      TrimEmpty(s[1..]);
      assert forall j :: 1 <= j < |s| ==> s[j] == s[1..][j - 1];
    } else if s != [] {
      assert TrimStart(s) == s;
      TrimEndKeepsHead(s);
    }
  }

  lemma {:induction false} TrimEndKeepsHead(s: string)
    requires s != [] && !IsWhitespace(s[0])
    ensures TrimEnd(s) != []
    decreases |s|
  {
    if IsWhitespace(s[|s| - 1]) {
      TrimEndKeepsHead(s[..|s| - 1]);
    }
  }

  /** ASCII upper-case letters, the characters `LowerChar` changes. */
  predicate IsUpper(c: char) {
    'A' <= c <= 'Z'
  }

  function LowerChar(c: char): (d: char)
    ensures !IsUpper(d)
    ensures IsUpper(c) ==> d as int == c as int + 32
    ensures !IsUpper(c) ==> d == c
  {
    if IsUpper(c) then (c as int + 32) as char else c
  }

  /** `String.prototype.toLowerCase`, restricted to the ASCII letters. */
  function Lower(s: string): (r: string)
    ensures |r| == |s|
  {
    if s == [] then [] else [LowerChar(s[0])] + Lower(s[1..])
  }

  /** Lower-casing works character by character. */
  lemma {:induction false} LowerPointwise(s: string)
    ensures forall i :: 0 <= i < |s| ==> Lower(s)[i] == LowerChar(s[i])
  {
    if s != [] {
      LowerPointwise(s[1..]);
      assert forall i :: 1 <= i < |s| ==> Lower(s)[i] == Lower(s[1..])[i - 1];
    }
  }

  /** Lower-casing a string with no upper-case letter changes nothing. */
  lemma {:induction false} LowerOfLower(s: string)
    requires forall i :: 0 <= i < |s| ==> !IsUpper(s[i])
    ensures Lower(s) == s
  {
    if s != [] {
      LowerOfLower(s[1..]);
    }
  }

  lemma {:induction false} LowerAppend(a: string, b: string)
    ensures Lower(a + b) == Lower(a) + Lower(b)
  {
    if a == [] {
      assert a + b == b;
    } else {
      assert (a + b)[0] == a[0];
      assert (a + b)[1..] == a[1..] + b;
      LowerAppend(a[1..], b);
    }
  }

  /** `s.startsWith(p)` */
  predicate StartsWith(s: string, p: string) {
    |p| <= |s| && s[..|p|] == p
  }

  /** `s.includes(p)`: `p` occurs in `s` at some position. */
  predicate Contains(s: string, p: string)
    decreases |s|
  {
    StartsWith(s, p) || (s != [] && Contains(s[1..], p))
  }

  /** A pattern without the separator `c` that occurs in neither side does not occur across it. */
  lemma {:induction false} NotContainsAcross(x: string, c: char, y: string, p: string)
    requires !Contains(x, p) && !Contains(y, p) && c !in p
    ensures !Contains(x + [c] + y, p)
    decreases |x|
  {
    var s := x + [c] + y;
    if |p| <= |x| {
      assert s[..|p|] == x[..|p|];
    } else if |p| <= |s| {
      assert s[..|p|][|x|] == c;
      assert p[|x|] in p;
    }
    assert !StartsWith(s, p);
    if x == [] {
      assert s[1..] == y;
    } else {
      assert s[1..] == x[1..] + [c] + y;
      NotContainsAcross(x[1..], c, y, p);
    }
  }

  /** The number of UTF-16 code units of `s`, which is what JavaScript's `length` counts. */
  function JsLength(s: string): (n: nat)
    ensures |s| <= n <= 2 * |s|
  {
    if s == [] then 0 else (if s[0] as int < 0x1_0000 then 1 else 2) + JsLength(s[1..])
  }

  /** `s.split(sep)` for a one-character separator: never empty, one piece more than separators. */
  function Split(s: string, sep: char): (pieces: seq<string>)
    ensures |pieces| >= 1
  {
    if s == [] then [""]
    else
      var rest := Split(s[1..], sep);
      if s[0] == sep then [""] + rest else [[s[0]] + rest[0]] + rest[1..]
  }

  /** `lines.join(sep)` for a one-character separator. */
  function Join(lines: seq<string>, sep: char): string {
    if |lines| == 0 then ""
    else if |lines| == 1 then lines[0]
    else lines[0] + [sep] + Join(lines[1..], sep)
  }

  /** No piece of a split holds the separator. */
  lemma {:induction false} SplitPiecesFree(s: string, sep: char)
    ensures forall i :: 0 <= i < |Split(s, sep)| ==> sep !in Split(s, sep)[i]
  {
    if s != [] {
      SplitPiecesFree(s[1..], sep);
    }
  }

  /** A string without the separator splits into itself alone. */
  lemma {:induction false} SplitNoSeparator(s: string, sep: char)
    requires sep !in s
    ensures Split(s, sep) == [s]
  {
    if s != [] {
      SplitNoSeparator(s[1..], sep);
      assert [s[0]] + s[1..] == s;
    }
  }

  /** The first separator ends the first piece; the rest splits on its own. */
  lemma {:induction false} SplitAtFirst(x: string, sep: char, y: string)
    requires sep !in x
    ensures Split(x + [sep] + y, sep) == [x] + Split(y, sep)
  {
    var s := x + [sep] + y;
    if x == [] {
      assert s == [sep] + y && s[1..] == y;
    } else {
      assert s[1..] == x[1..] + [sep] + y;
      SplitAtFirst(x[1..], sep, y);
      assert [s[0]] + x[1..] == x;
    }
  }

  /** Joining the pieces of a split with the same separator gives the string back. */
  lemma {:induction false} SplitJoin(s: string, sep: char)
    ensures Join(Split(s, sep), sep) == s
  {
    if s != [] {
      var rest := Split(s[1..], sep);
      SplitJoin(s[1..], sep);
      if s[0] == sep {
        assert ([""] + rest)[1..] == rest;
      } else {
        var pieces := [[s[0]] + rest[0]] + rest[1..];
        if |rest| > 1 {
          assert pieces[1..] == rest[1..];
        }
      }
    }
  }

  /** A non-empty pattern without the separator occurs in a lower-cased join only if it occurs in a lower-cased piece. */
  lemma {:induction false} NotContainsJoin(lines: seq<string>, sep: char, p: string)
    requires p != [] && sep !in p && !IsUpper(sep)
    requires forall i :: 0 <= i < |lines| ==> !Contains(Lower(lines[i]), p)
    ensures !Contains(Lower(Join(lines, sep)), p)
  {
    if |lines| == 0 {
      assert Lower(Join(lines, sep)) == [];
    } else if |lines| > 1 {
      NotContainsJoin(lines[1..], sep, p);
      LowerAppend(lines[0] + [sep], Join(lines[1..], sep));
      LowerAppend(lines[0], [sep]);
      assert Lower([sep]) == [sep];
      NotContainsAcross(Lower(lines[0]), sep, Lower(Join(lines[1..], sep)), p);
    }
  }

  predicate IsDigit(c: char) {
    '0' <= c <= '9'
  }

  function DigitValue(c: char): (d: nat)
    requires IsDigit(c)
    ensures d < 10
  {
    c as int - '0' as int
  }

  function DigitChar(d: nat): (c: char)
    requires d < 10
    ensures IsDigit(c) && DigitValue(c) == d
  {
    ('0' as int + d) as char
  }

  /** Decimal rendering of a natural number, as a template literal `${n}` writes it. */
  function NatToString(n: nat): (s: string)
    ensures s != []
    ensures forall i :: 0 <= i < |s| ==> IsDigit(s[i])
  {
    if n < 10 then [DigitChar(n)] else NatToString(n / 10) + [DigitChar(n % 10)]
  }

  /** `parseInt(ds, 10)` on a string of decimal digits. */
  function DecimalValue(ds: string): nat
    requires forall i :: 0 <= i < |ds| ==> IsDigit(ds[i])
  {
    if ds == [] then 0
    else DecimalValue(ds[..|ds| - 1]) * 10 + DigitValue(ds[|ds| - 1])
  }

  /** Parsing the decimal rendering of `n` gives `n` back. */
  lemma {:induction false} DecimalRoundTrip(n: nat)
    ensures DecimalValue(NatToString(n)) == n
  {
    if n >= 10 {
      var s := NatToString(n / 10) + [DigitChar(n % 10)];
      assert s[..|s| - 1] == NatToString(n / 10);
      DecimalRoundTrip(n / 10);
    }
  }
}
