/**
 * The results marker the search handlers look for in the page text: the first match of
 * `/(\d+)\sresults for\s(?:["“])?(.+?)(?:["”])?(?:$|\s)/` (no flags), written out as a
 * scanner that takes the same choices a backtracking matcher takes.
 */
module ResultsMarker {
  import opened Wrappers
  import opened JsString

  const ResultsFor := "results for"

  /** What the handlers use of a match: where it starts, `match[0]`, `match[1]` and `match[2]`. */
  datatype Marker = Marker(start: nat, matched: string, digits: string, capture: string)

  predicate IsOpenQuote(c: char) {
    c == '"' || c == '\U{201C}'
  }

  predicate IsCloseQuote(c: char) {
    c == '"' || c == '\U{201D}'
  }

  /** The end of the run of decimal digits that starts at `i`: `(\d+)` is greedy, and a shorter run leaves a digit where `\s` must match. */
  function DigitRunEnd(s: string, i: nat): (d: nat)
    requires i <= |s|
    ensures i <= d <= |s|
    ensures forall j :: i <= j < d ==> IsDigit(s[j])
    ensures d == |s| || !IsDigit(s[d])
    decreases |s| - i
  {
    if i < |s| && IsDigit(s[i]) then DigitRunEnd(s, i + 1) else i
  }

  /**
   * The lazy capture may stop before position `e`: the rest of the pattern, an optional
   * closing quote and then the end of the text or a whitespace character, matches there.
   */
  predicate CaptureMayEndAt(s: string, e: nat)
    requires e <= |s|
  {
    e == |s| || IsWhitespace(s[e]) || (IsCloseQuote(s[e]) && (e + 1 == |s| || IsWhitespace(s[e + 1])))
  }

  /** The first position from `i` on where the capture may stop. */
  function CaptureEnd(s: string, i: nat): (e: nat)
    requires i <= |s|
    ensures i <= e <= |s|
    ensures CaptureMayEndAt(s, e)
    ensures forall j :: i <= j < e ==> !CaptureMayEndAt(s, j)
    decreases |s| - i
  {
    if CaptureMayEndAt(s, i) then i else CaptureEnd(s, i + 1)
  }

  /**
   * Where the capture starts, given the position right after `results for\s`: after an
   * opening quote if one is there and a character other than a line terminator follows
   * it; otherwise at that position, if it holds such a character; otherwise nowhere.
   */
  function CaptureStart(s: string, q: nat): Option<nat>
    requires q <= |s|
  {
    if q + 1 < |s| && IsOpenQuote(s[q]) && !IsLineTerminator(s[q + 1]) then Some(q + 1)
    else if q < |s| && !IsLineTerminator(s[q]) then Some(q)
    else None
  }

  /** Where the whole match ends, given where the capture stops. */
  function MatchEnd(s: string, e: nat): (m: nat)
    requires e <= |s| && CaptureMayEndAt(s, e)
    ensures e <= m <= |s|
  {
    if e < |s| && IsCloseQuote(s[e]) && (e + 1 == |s| || IsWhitespace(s[e + 1])) then
      (if e + 1 == |s| then e + 1 else e + 2)
    else if e == |s| then e
    else e + 1
  }

  /** The match that starts at position `p`, if there is one. */
  function MatchAt(s: string, p: nat): (r: Option<Marker>)
    requires p <= |s|
    ensures r.Some? ==> r.value.start == p && r.value.digits != [] && r.value.digits <= r.value.matched
    ensures r.Some? ==> r.value.matched <= s[p..]
  {
    var d := DigitRunEnd(s, p);
    var w := d + 1 + |ResultsFor|;
    if d == p || w >= |s| || !IsWhitespace(s[d]) || s[d + 1..w] != ResultsFor || !IsWhitespace(s[w]) then None
    else match CaptureStart(s, w + 1)
      case None => None
      case Some(c) =>
        var e := CaptureEnd(s, c + 1);
        Some(Marker(p, s[p..MatchEnd(s, e)], s[p..d], s[c..e]))
  }

  /** The leftmost match at or after position `p`. */
  function FindMarkerFrom(s: string, p: nat): (r: Option<Marker>)
    requires p <= |s|
    ensures r.Some? ==> p <= r.value.start <= |s| && MatchAt(s, r.value.start) == r
    ensures forall i :: p <= i <= |s| && (r.None? || i < r.value.start) ==> MatchAt(s, i).None?
    decreases |s| - p
  {
    if MatchAt(s, p).Some? then MatchAt(s, p)
    else if p == |s| then None
    else FindMarkerFrom(s, p + 1)
  }

  /** `pageText.match(regex)`: the leftmost match, whose number is a run of digits. */
  function FindMarker(s: string): (r: Option<Marker>)
    ensures r.Some? ==> forall i :: 0 <= i < |r.value.digits| ==> IsDigit(r.value.digits[i])
  {
    var r := FindMarkerFrom(s, 0);
    if r.Some? then MatchShape(s, r.value.start); r else r
  }

  /** `match[2].trim()` */
  function SearchString(m: Marker): (r: string)
    ensures IsTrimmed(r)
  {
    Trim(m.capture)
  }

  /** `parseInt(match[1], 10)` */
  function NumResults(m: Marker): nat
    requires forall i :: 0 <= i < |m.digits| ==> IsDigit(m.digits[i])
  {
    DecimalValue(m.digits)
  }

  /**
   * A match is a non-empty run of digits, and its capture is a non-empty piece of the
   * text that contains no whitespace after its first character.
   */
  lemma MatchShape(s: string, p: nat)
    requires p <= |s| && MatchAt(s, p).Some?
    ensures var m := MatchAt(s, p).value;
      && m.start == p
      && m.digits != []
      && (forall i :: 0 <= i < |m.digits| ==> IsDigit(m.digits[i]))
      && m.capture != []
      && (forall i :: 1 <= i < |m.capture| ==> !IsWhitespace(m.capture[i]))
  {
    var m := MatchAt(s, p).value;
    var d := DigitRunEnd(s, p);
    var c := CaptureStart(s, d + 1 + |ResultsFor| + 1).value;
    var e := CaptureEnd(s, c + 1);
    assert m.capture == s[c..e];
    forall i | 1 <= i < |m.capture|
      ensures !IsWhitespace(m.capture[i])
    {
      assert m.capture[i] == s[c + i];
      assert !CaptureMayEndAt(s, c + i);
    }
  }

  /** The number is the whole run of digits: the match never starts right after a digit. */
  lemma MarkerStartsDigitRun(s: string)
    requires FindMarker(s).Some?
    ensures var p := FindMarker(s).value.start; p == 0 || !IsDigit(s[p - 1])
  {
    var p := FindMarker(s).value.start;
    if p > 0 && IsDigit(s[p - 1]) {
      DigitExtendsMatch(s, p);
      assert false;
    }
  }

  /** A digit in front of a match starts a match of its own. */
  lemma DigitExtendsMatch(s: string, p: nat)
    requires 0 < p <= |s| && IsDigit(s[p - 1]) && MatchAt(s, p).Some?
    ensures MatchAt(s, p - 1).Some?
  {
    assert DigitRunEnd(s, p - 1) == DigitRunEnd(s, p);
  }

  /**
   * The search string has no whitespace in it: the lazy capture stops at the first
   * whitespace character, so a search for several words keeps only the first.
   */
  lemma SearchStringIsOneWord(s: string)
    requires FindMarker(s).Some?
    ensures forall i :: 0 <= i < |SearchString(FindMarker(s).value)| ==> !IsWhitespace(SearchString(FindMarker(s).value)[i])
  {
    MatchShape(s, FindMarker(s).value.start);
    var capture := FindMarker(s).value.capture;
    var rest := capture[1..];
    assert capture == [capture[0]] + rest;
    assert forall i :: 0 <= i < |rest| ==> !IsWhitespace(rest[i]) by {
      forall i | 0 <= i < |rest| ensures !IsWhitespace(rest[i]) {
        assert rest[i] == capture[i + 1];
      }
    }
    if IsWhitespace(capture[0]) {
      TrimStartSkipsRun([capture[0]], rest);
      NoWhitespaceTrimEnd(rest);
    } else {
      NoWhitespaceTrimEnd(capture);
    }
  }

  lemma NoWhitespaceTrimEnd(s: string)
    requires forall i :: 0 <= i < |s| ==> !IsWhitespace(s[i])
    ensures TrimStart(s) == s && TrimEnd(s) == s
  {
  }

  lemma {:induction false} DigitRunEndIs(s: string, i: nat, d: nat)
    requires i <= d <= |s|
    requires forall j :: i <= j < d ==> IsDigit(s[j])
    requires d == |s| || !IsDigit(s[d])
    ensures DigitRunEnd(s, i) == d
    decreases d - i
  {
    if i < d {
      DigitRunEndIs(s, i + 1, d);
    }
  }

  lemma {:induction false} CaptureEndIs(s: string, i: nat, e: nat)
    requires i <= e <= |s|
    requires forall j :: i <= j < e ==> !CaptureMayEndAt(s, j)
    requires CaptureMayEndAt(s, e)
    ensures CaptureEnd(s, i) == e
    decreases e - i
  {
    if i < e {
      CaptureEndIs(s, i + 1, e);
    }
  }

  /** The second and third of four joined strings, read back by position. */
  lemma PieceAt(x: string, y: string, z: string, w: string)
    ensures (x + y + z + w)[|x|..|x| + |y|] == y
    ensures (x + y + z + w)[|x| + |y|..|x| + |y| + |z|] == z
  {
    var s := x + y + z + w;
    assert forall i :: 0 <= i < |y| ==> s[|x| + i] == y[i];
    assert forall i :: 0 <= i < |z| ==> s[|x| + |y| + i] == z[i];
  }

  /**
   * A quoted search phrase of several words leaves only its first word as the search
   * string (for instance, `5 results for "trip to japan"` gives `trip`), with the number
   * of results read from the digits.
   */
  lemma QuotedPhraseKeepsFirstWord(n: string, word: string, more: string)
    requires n != [] && forall i :: 0 <= i < |n| ==> IsDigit(n[i])
    requires word != [] && forall i :: 0 <= i < |word| ==> !IsWhitespace(word[i]) && !IsCloseQuote(word[i])
    ensures var m := FindMarker(n + " " + ResultsFor + " \"" + word + " " + more);
      m.Some? && m.value.start == 0 && m.value.digits == n && SearchString(m.value) == word
  {
    var a := n + " ";
    var b := a + ResultsFor + " \"";
    var s := b + word + " " + more;
    var d := |n|;
    assert s == n + " " + ResultsFor + " \"" + word + " " + more;
    assert s[..d] == n;
    DigitRunEndIs(s, 0, d);
    assert s[d + 1..d + 12] == ResultsFor;
    var c := |b|;
    PieceAt(b, word, " ", more);
    assert s[c - 1] == '"';
    assert CaptureStart(s, c - 1) == Some(c);
    forall j | c + 1 <= j < c + |word|
      ensures !CaptureMayEndAt(s, j)
    {
      assert s[j] == word[j - c];
    }
    CaptureEndIs(s, c + 1, c + |word|);
    var m := MatchAt(s, 0);
    assert m.Some? && m.value.capture == word;
    assert FindMarker(s) == m;
    NoWhitespaceTrimEnd(word);
    assert SearchString(m.value) == word;
  }
}
