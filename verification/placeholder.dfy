/**
 * `isPlaceholderResponse`: does a response text look like loading or "thinking"
 * filler rather than a finished answer?
 */
module Placeholder {
  import opened JsString

  const ShowThinking := "show thinking"
  const StoppedResponse := "you stopped this response"

  /** The indicator list, already lower-case, so `indicator.toLowerCase()` is the indicator itself. */
  const PlaceholderIndicators: seq<string> := [
    "show thinking",
    "loading...",
    "thinking...",
    "generating response...",
    "please wait...",
    "loading",
    "generating",
    "processing",
    "working on it",
    "one moment",
    "you stopped this response",
    "...",
    "wait"
  ]

  /** The text every rule looks at: `text.trim().toLowerCase()`. */
  function CleanText(text: string): string {
    Lower(Trim(text))
  }

  /** `cleanText.replace(/^show thinking\s*\/, '').trim()` for a text that starts with the marker. */
  function AfterShowThinking(clean: string): string
    requires StartsWith(clean, ShowThinking)
  {
    Trim(TrimStart(clean[|ShowThinking|..]))
  }

  /**
   * Some indicator from position `i` of the list on is a prefix of the clean text (a
   * text equal to an indicator starts with it, so the script's separate equality test
   * adds nothing).
   */
  predicate StartsWithIndicatorFrom(clean: string, i: nat)
    decreases |PlaceholderIndicators| - i
  {
    i < |PlaceholderIndicators| &&
      (StartsWith(clean, PlaceholderIndicators[i]) || StartsWithIndicatorFrom(clean, i + 1))
  }

  predicate StartsWithIndicator(clean: string) {
    StartsWithIndicatorFrom(clean, 0)
  }

  /** The classifier, branch for branch; lengths are UTF-16 lengths as in JavaScript. */
  function IsPlaceholderResponse(text: string): (r: bool)
    ensures Trim(text) == "" ==> r
    ensures !r ==> JsLength(CleanText(text)) >= 10 && !Contains(CleanText(text), StoppedResponse)
  {
    if text == "" then true
    else
      var clean := CleanText(text);
      if StartsWith(clean, ShowThinking) && JsLength(AfterShowThinking(clean)) < 50 then true
      else if Contains(clean, StoppedResponse) then true
      else StartsWithIndicator(clean) || JsLength(clean) < 10
  }

  /**
   * The four cases: a text is a placeholder exactly when it is empty, its clean text is
   * shorter than 10, mentions a stopped response, or starts with an indicator.
   */
  lemma PlaceholderCases(text: string)
    ensures IsPlaceholderResponse(text) <==>
      || text == ""
      || JsLength(CleanText(text)) < 10
      || Contains(CleanText(text), StoppedResponse)
      || StartsWithIndicator(CleanText(text))
  {
    var clean := CleanText(text);
    if StartsWith(clean, ShowThinking) {
      assert PlaceholderIndicators[0] == ShowThinking;
      assert StartsWithIndicatorFrom(clean, 0);
    }
  }

  /** The verdict depends on nothing but the trimmed, lower-cased text. */
  lemma PlaceholderDependsOnCleanText(a: string, b: string)
    requires CleanText(a) == CleanText(b)
    ensures IsPlaceholderResponse(a) == IsPlaceholderResponse(b)
  {
    PlaceholderCases(a);
    PlaceholderCases(b);
    assert CleanText("") == "";
  }

  /**
   * Every text whose clean form starts with "show thinking" is a placeholder, however
   * much follows: the indicator list decides it even when the "fewer than 50 characters
   * after the marker" test fails.
   */
  lemma ShowThinkingIsAlwaysPlaceholder(text: string)
    requires StartsWith(CleanText(text), ShowThinking)
    ensures IsPlaceholderResponse(text)
  {
    PlaceholderCases(text);
    assert PlaceholderIndicators[0] == ShowThinking;
    assert StartsWithIndicatorFrom(CleanText(text), 0);
  }

  /** A text that is not a placeholder has a clean form of at least 10 code units, none of them "show thinking" at its start. */
  lemma NonPlaceholderIsSubstantial(text: string)
    requires !IsPlaceholderResponse(text)
    ensures text != "" && Trim(text) != ""
    ensures JsLength(CleanText(text)) >= 10
    ensures !StartsWith(CleanText(text), ShowThinking)
  {
    PlaceholderCases(text);
    if StartsWith(CleanText(text), ShowThinking) {
      ShowThinkingIsAlwaysPlaceholder(text);
    }
  }
}
