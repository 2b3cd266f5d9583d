/**
 * The popup's side of the automation: the file-name sanitiser, the checks the start
 * button runs on the save prefix and the pause, the save prefix it proposes once a
 * search has been verified, and the names it gives the downloaded transcripts.
 */
module Popup {
  import opened Wrappers
  import opened JsString
  import opened Automation

  /** The characters the class `[/\\?%*:|"<>]` matches. */
  predicate IsForbidden(c: char) {
    c == '/' || c == '\\' || c == '?' || c == '%' || c == '*' || c == ':' || c == '|' || c == '"' || c == '<' || c == '>'
  }

  /** `s.replace(/[/\\?%*:|"<>]/g, '_')`: every forbidden character becomes an underscore. */
  function ReplaceForbidden(s: string): (r: string)
    ensures |r| == |s|
    ensures forall i :: 0 <= i < |s| ==> r[i] == if IsForbidden(s[i]) then '_' else s[i]
  {
    if s == [] then [] else [if IsForbidden(s[0]) then '_' else s[0]] + ReplaceForbidden(s[1..])
  }

  /**
   * `s.replace(/\s+/g, '_')`: the leftmost whitespace run, taken whole, becomes one
   * underscore, and the scan goes on after it. The result has no whitespace and no
   * character that is not an underscore or a character of `s`.
   */
  function CollapseWhitespace(s: string): (r: string)
    ensures |r| <= |s|
    ensures forall i :: 0 <= i < |r| ==> !IsWhitespace(r[i])
    ensures forall i :: 0 <= i < |r| ==> r[i] == '_' || r[i] in s
    decreases |s|
  {
    if s == [] then []
    else if IsWhitespace(s[0]) then
      TrimStartIsSuffix(s[1..]);
      var rest := TrimStart(s[1..]);
      var r := "_" + CollapseWhitespace(rest);
      assert forall i :: 1 <= i < |r| ==> r[i] == CollapseWhitespace(rest)[i - 1];
      assert forall c :: c in rest ==> c in s;
      r
    else
      var r := [s[0]] + CollapseWhitespace(s[1..]);
      assert forall i :: 1 <= i < |r| ==> r[i] == CollapseWhitespace(s[1..])[i - 1];
      r
  }

  /** `sanitizeFilename`: forbidden characters, then whitespace runs, then lower case. */
  function SanitizeFilename(title: string): (r: string)
    ensures |r| <= |title|
    ensures forall i :: 0 <= i < |r| ==> !IsForbidden(r[i]) && !IsWhitespace(r[i]) && !IsUpper(r[i])
  {
    var replaced := ReplaceForbidden(title);
    var collapsed := CollapseWhitespace(replaced);
    assert forall i :: 0 <= i < |collapsed| ==> !IsForbidden(collapsed[i]);
    LowerPointwise(collapsed);
    Lower(collapsed)
  }

  /** A run of whitespace followed by a non-whitespace character or the end becomes one underscore. */
  lemma CollapseRun(w: string, rest: string)
    requires w != [] && forall j :: 0 <= j < |w| ==> IsWhitespace(w[j])
    requires rest == [] || !IsWhitespace(rest[0])
    ensures CollapseWhitespace(w + rest) == "_" + CollapseWhitespace(rest)
  {
    var s := w + rest;
    assert s[0] == w[0] && s[1..] == w[1..] + rest;
    TrimStartSkipsRun(w[1..], rest);
    assert CollapseWhitespace(s) == "_" + CollapseWhitespace(TrimStart(s[1..]));
  }

  /** Text without whitespace passes through unchanged. */
  lemma {:induction false} CollapseWord(x: string, rest: string)
    requires forall j :: 0 <= j < |x| ==> !IsWhitespace(x[j])
    ensures CollapseWhitespace(x + rest) == x + CollapseWhitespace(rest)
  {
    if x != [] {
      assert (x + rest)[1..] == x[1..] + rest;
      CollapseWord(x[1..], rest);
    } else {
      assert x + rest == rest;
    }
  }

  /** Sanitising a sanitised name changes nothing: nothing is left for any of the three steps to change. */
  lemma SanitizeIdempotent(title: string)
    ensures SanitizeFilename(SanitizeFilename(title)) == SanitizeFilename(title)
  {
    var r := SanitizeFilename(title);
    assert ReplaceForbidden(r) == r;
    CollapseWord(r, []);
    assert r + [] == r;
    LowerOfLower(r);
  }

  const FallbackPrefix := "gemini_transcripts/"
  const PrefixMissingMessage := "Please enter a Transcript File Prefix before starting automation."
  const PauseInvalidMessage := "Please enter a valid non-negative number for Pause Duration."
  const StartingMessage := "Starting automation..."

  predicate EndsWithSlash(s: string) {
    s != [] && s[|s| - 1] == '/'
  }

  /** The prefix the start button works with: the trimmed input, with `/` appended when it is not empty and lacks one. */
  function SavePrefix(input: string): (r: string)
    ensures r == "" || EndsWithSlash(r)
  {
    var trimmed := Trim(input);
    if trimmed != "" && !EndsWithSlash(trimmed) then trimmed + "/" else trimmed
  }

  /**
   * The prefix is empty exactly when the input is all whitespace; otherwise it is the
   * trimmed input followed by at most one added `/`, and it ends with `/`.
   */
  lemma SavePrefixMeans(input: string)
    ensures SavePrefix(input) == "" <==> Trim(input) == ""
    ensures Trim(input) != "" ==>
      && EndsWithSlash(SavePrefix(input))
      && Trim(input) <= SavePrefix(input)
      && (SavePrefix(input) == Trim(input) <==> EndsWithSlash(Trim(input)))
      && |SavePrefix(input)| <= |Trim(input)| + 1
  {
  }

  /** The slash is appended at most once: the start check leaves a prefix it produced as it is. */
  lemma SavePrefixStable(input: string)
    ensures SavePrefix(SavePrefix(input)) == SavePrefix(input)
  {
    var p := SavePrefix(input);
    assert IsTrimmed(p);
    TrimOfTrimmed(p);
  }

  /** What `parseFloat` of the pause field gives. */
  datatype ParsedNumber = NaN | Number(value: real)

  /** The verdict of the start button: refused with the message shown, or accepted with the prefix and the pause in seconds. */
  datatype StartCheck = Refused(message: string) | Accepted(savePrefix: string, pauseSeconds: real)

  /** The two checks of the start button, the prefix first. */
  function CheckStart(prefixInput: string, pause: ParsedNumber): (r: StartCheck)
    ensures r.Accepted? ==> EndsWithSlash(r.savePrefix) && r.pauseSeconds >= 0.0
  {
    var savePrefix := SavePrefix(prefixInput);
    if savePrefix == "" then Refused(PrefixMissingMessage)
    else if pause.NaN? || pause.value < 0.0 then Refused(PauseInvalidMessage)
    else Accepted(savePrefix, pause.value)
  }

  /**
   * An all-whitespace prefix is refused first; a pause that is not a number or is
   * negative is refused next; anything else, a pause of 0 among it, is accepted.
   */
  lemma CheckStartMeans(prefixInput: string, pause: ParsedNumber)
    ensures CheckStart(prefixInput, pause) == Refused(PrefixMissingMessage) <==> Trim(prefixInput) == ""
    ensures CheckStart(prefixInput, pause) == Refused(PauseInvalidMessage) <==>
      Trim(prefixInput) != "" && (pause.NaN? || pause.value < 0.0)
    ensures CheckStart(prefixInput, pause).Accepted? <==>
      Trim(prefixInput) != "" && pause.Number? && pause.value >= 0.0
    ensures CheckStart(prefixInput, pause).Accepted? ==>
      && CheckStart(prefixInput, pause).savePrefix == SavePrefix(prefixInput)
      && EndsWithSlash(CheckStart(prefixInput, pause).savePrefix)
      && pause == Number(CheckStart(prefixInput, pause).pauseSeconds)
  {
    SavePrefixMeans(prefixInput);
  }

  /** The prefix proposed once a search has been reported. */
  function ProposedPrefix(found: bool, searchString: string): (r: string)
    ensures EndsWithSlash(r)
  {
    if found && searchString != "" then SanitizeFilename(searchString) + "/" else FallbackPrefix
  }

  /**
   * A proposed prefix is a single folder name of safe characters followed by `/`, and the
   * start check takes it as it is.
   */
  lemma ProposedPrefixAccepted(found: bool, searchString: string)
    ensures var p := ProposedPrefix(found, searchString);
      && EndsWithSlash(p)
      && (forall i :: 0 <= i < |p| - 1 ==> !IsForbidden(p[i]) && !IsWhitespace(p[i]))
      && Trim(p) == p
      && SavePrefix(p) == p
  {
    var p := ProposedPrefix(found, searchString);
    assert forall i :: 0 <= i < |p| - 1 ==> !IsForbidden(p[i]) && !IsWhitespace(p[i]);
    TrimOfTrimmed(p);
  }

  /** The download name of one transcript. */
  function DownloadFilename(prefix: string, title: string): (r: string)
    ensures prefix <= r && |r| == |prefix| + |SanitizeFilename(title)| + 4
  {
    prefix + SanitizeFilename(title) + ".txt"
  }

  /**
   * The names of the downloads offered when the automation completes: none when no
   * transcripts came back, else one per transcript, in order, under the trimmed prefix.
   */
  function DownloadFilenames(prefixValue: string, transcripts: Option<seq<CollectedTranscript>>): (names: seq<string>)
    ensures transcripts.None? ==> names == []
    ensures transcripts.Some? ==> |names| == |transcripts.value|
  {
    if transcripts.Some? && |transcripts.value| > 0 then
      seq(|transcripts.value|, i requires 0 <= i < |transcripts.value| =>
        DownloadFilename(Trim(prefixValue), transcripts.value[i].title))
    else []
  }

  /**
   * Download `i` is named after transcript `i`: the trimmed prefix field as typed (no `/`
   * is added to it here), then a name with no slash and no whitespace, then `.txt`.
   */
  lemma DownloadFilenameParts(prefixValue: string, transcripts: seq<CollectedTranscript>, i: nat)
    requires i < |transcripts|
    ensures var name := DownloadFilenames(prefixValue, Some(transcripts))[i];
      var folder := Trim(prefixValue);
      && |folder| + 4 <= |name|
      && name[..|folder|] == folder
      && name[|folder|..|name| - 4] == SanitizeFilename(transcripts[i].title)
      && name[|name| - 4..] == ".txt"
      && (forall j :: |folder| <= j < |name| ==> name[j] != '/' && !IsWhitespace(name[j]))
  {
    var name := DownloadFilenames(prefixValue, Some(transcripts))[i];
    var folder := Trim(prefixValue);
    var file := SanitizeFilename(transcripts[i].title);
    assert name == folder + file + ".txt";
    forall j | |folder| <= j < |name|
      ensures name[j] != '/' && !IsWhitespace(name[j])
    {
      if j < |folder| + |file| {
        assert name[j] == file[j - |folder|];
      }
    }
  }

  const VerifiedPrefix := "Page verified. "
  const VerifiedSuffix := " search results found and matched in conversation list. Ready to extract."
  const UnmatchedMessage := "Page verified, but not all search results matched in conversation list. Automation may not be complete."
  const PatternMissingMessage := "Gemini search page detected, but the search results pattern was not found."

  /** The status line after a search report: the title count when every title matched, else why not. */
  function SearchStatus(found: bool, allTitlesMatched: bool, titleCount: nat): string {
    if !found then PatternMissingMessage
    else if allTitlesMatched then VerifiedPrefix + NatToString(titleCount) + VerifiedSuffix
    else UnmatchedMessage
  }

  /** The popup's input field for the prefix, its status line, and its start button. */
  class PopupPage {
    var savePrefixValue: string
    var resultText: string
    var startDisabled: bool

    constructor(savePrefixValue: string)
      ensures this.savePrefixValue == savePrefixValue && resultText == "" && !startDisabled
    {
      this.savePrefixValue := savePrefixValue;
      resultText := "";
      startDisabled := false;
    }

    /**
     * The `searchResults` handler: it proposes a prefix, replaces the status text, and
     * enables the start button only for a verified page with at least one title, all of
     * them matched in the conversation list.
     */
    method OnSearchResults(found: bool, searchString: string, allTitlesMatched: bool, titleCount: nat)
      modifies this
      ensures savePrefixValue == ProposedPrefix(found, searchString)
      ensures resultText == SearchStatus(found, allTitlesMatched, titleCount)
      ensures startDisabled == if found && allTitlesMatched && titleCount > 0 then false else old(startDisabled)
    {
      resultText := "";
      if found {
        if searchString != "" {
          savePrefixValue := SanitizeFilename(searchString) + "/";
        } else {
          savePrefixValue := FallbackPrefix;
        }
        if allTitlesMatched {
          resultText := VerifiedPrefix + NatToString(titleCount) + VerifiedSuffix;
          if titleCount > 0 {
            startDisabled := false;
          }
        } else {
          resultText := UnmatchedMessage;
        }
      } else {
        resultText := PatternMissingMessage;
        savePrefixValue := FallbackPrefix;
      }
    }

    /** The start button: normalise the prefix, check it, check the pause, then start. */
    method OnStartClicked(pause: ParsedNumber) returns (check: StartCheck)
      modifies this
      ensures check == CheckStart(old(savePrefixValue), pause)
      ensures check.Refused? ==> resultText == check.message && startDisabled == old(startDisabled)
      ensures check.Accepted? ==> resultText == StartingMessage && startDisabled
      ensures savePrefixValue == old(savePrefixValue)
    {
      var savePrefix := Trim(savePrefixValue);
      if savePrefix != "" && !EndsWithSlash(savePrefix) {
        savePrefix := savePrefix + "/";
      }
      if savePrefix == "" {
        resultText := PrefixMissingMessage;
        return Refused(PrefixMissingMessage);
      }
      if pause.NaN? || pause.value < 0.0 {
        resultText := PauseInvalidMessage;
        return Refused(PauseInvalidMessage);
      }
      startDisabled := true;
      resultText := StartingMessage;
      check := Accepted(savePrefix, pause.value);
    }

    /** The names of the downloads, read from the prefix field as it is when the automation completes. */
    function DownloadNames(transcripts: Option<seq<CollectedTranscript>>): seq<string>
      reads this
    {
      DownloadFilenames(savePrefixValue, transcripts)
    }
  }
}
