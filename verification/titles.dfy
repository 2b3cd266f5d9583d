/**
 * Conversation-title normalisation: every title read from the page is compared as
 * `innerText.trim().replace(/\u00A0/g, '')`.
 */
module Titles {
  import opened JsString

  /** `s.replace(/\u00A0/g, '')`: every no-break space removed, everything else kept in order. */
  function RemoveNoBreakSpaces(s: string): (r: string)
    ensures |r| <= |s|
    ensures NoBreakSpace !in r
  {
    if s == [] then []
    else (if s[0] == NoBreakSpace then [] else [s[0]]) + RemoveNoBreakSpaces(s[1..])
  }

  lemma {:induction false} RemoveNoBreakSpacesAppend(a: string, b: string)
    ensures RemoveNoBreakSpaces(a + b) == RemoveNoBreakSpaces(a) + RemoveNoBreakSpaces(b)
  {
    if a == [] {
      assert a + b == b;
    } else {
      assert (a + b)[0] == a[0];
      assert (a + b)[1..] == a[1..] + b;
      RemoveNoBreakSpacesAppend(a[1..], b);
    }
  }

  lemma {:induction false} RemoveNoBreakSpacesNone(s: string)
    requires NoBreakSpace !in s
    ensures RemoveNoBreakSpaces(s) == s
  {
    if s != [] {
      RemoveNoBreakSpacesNone(s[1..]);
    }
  }

  /** Removing no-break spaces from a trimmed string leaves it trimmed: its end characters are not no-break spaces. */
  lemma RemoveNoBreakSpacesKeepsTrimmed(s: string)
    requires IsTrimmed(s)
    ensures IsTrimmed(RemoveNoBreakSpaces(s))
  {
    if s != [] {
      var n := |s|;
      assert s == s[..n - 1] + [s[n - 1]];
      RemoveNoBreakSpacesAppend(s[..n - 1], [s[n - 1]]);
      assert RemoveNoBreakSpaces([s[n - 1]]) == [s[n - 1]];
    }
  }

  /** The title key used everywhere a title is compared or stored. */
  function NormalizeTitle(s: string): (r: string)
    ensures NoBreakSpace !in r
    ensures IsTrimmed(r)
  {
    RemoveNoBreakSpacesKeepsTrimmed(Trim(s));
    RemoveNoBreakSpaces(Trim(s))
  }

  /** Every title of a list of elements, cleaned, in element order. */
  function Normalized(texts: seq<string>): (r: seq<string>)
    ensures |r| == |texts|
  {
    seq(|texts|, i requires 0 <= i < |texts| => NormalizeTitle(texts[i]))
  }

  /** Normalising a normalised title changes nothing. */
  lemma NormalizeTitleIdempotent(s: string)
    ensures NormalizeTitle(NormalizeTitle(s)) == NormalizeTitle(s)
  {
    var t := NormalizeTitle(s);
    TrimOfTrimmed(t);
    RemoveNoBreakSpacesNone(t);
  }

  /** The `forEach` that pushes each cleaned title of a list of elements, in element order. */
  method CollectTitles(texts: seq<string>) returns (titles: seq<string>)
    ensures titles == Normalized(texts)
  {
    titles := [];
    var i := 0;
    while i < |texts|
      invariant 0 <= i <= |texts|
      invariant |titles| == i
      invariant forall j :: 0 <= j < i ==> titles[j] == NormalizeTitle(texts[j])
    {
      titles := titles + [NormalizeTitle(texts[i])];
      i := i + 1;
    }
  }
}
