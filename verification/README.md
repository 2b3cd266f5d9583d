# Gemini session scraper: a verified model of its core

The extension finds the conversations that a Gemini search results page lists. It
scrolls the sidebar conversation list until each of them has been seen. It then opens
them one by one, turns each into a plain-text transcript, and lets the popup download
the transcripts under a folder prefix.

This project models the deterministic core of `content.js` and `popup.js` in Dafny and
proves what that core promises. Every DOM node becomes a small record of strings. Each
page the script reads becomes an input:
- the texts of the `.conversation-title` elements at each scroll attempt;
- the sidebar and the conversation page met for each title;
- the abort flag as the scroll loop reads it.

The modules follow the script's structure.

- `JsString` (`js_string.dfy`) holds the JavaScript string operations the script relies on.
  - `trim` uses ECMAScript's white space and line terminators, U+00A0 among them.
  - `toLowerCase`, `startsWith`, `includes`, `split` and `join` on one character.
  - `length` in UTF-16 code units, and `${n}`.
  - `parseInt` of a digit run, as the exact whole number.
- `Placeholder` (`placeholder.dfy`) is `isPlaceholderResponse`, branch for branch.
- `Titles` (`titles.dfy`) is the title key `innerText.trim().replace(/\u00A0/g, '')`, used everywhere a title is stored or compared.
- `ResponseExtraction` (`response.dfy`) holds `extractActualResponse` with its three strategies and the "after Show thinking" line filter. It also holds `waitForResponseContent` as a poll over snapshots.
- `TranscriptExtraction` (`transcript.dfy`) is `extractTranscript`: numbered prompt/response blocks, from the main element lists or from the fallback lists.
- `ResultsMarker` (`marker.dfy`) holds the results-marker regular expression, written as a scanner that takes the choices a backtracking matcher takes.
- `ListDiscovery` (`scroll.dfy`) holds the bookkeeping of `scrollConversationList`:
  - the cumulative set of seen titles;
  - the two stall counters;
  - the probes that fire at given stall counts;
  - the five ways the loop ends.

  The whole run is specified as a function (`ScrollRun`). The loop method is proved to compute it.
- `Automation` (`automation.dfy`) holds the module-level state of the content script as a class (`ContentScript`), and its message handlers:
  - `processNextConversation`;
  - `searchPageContent`, `startAutomation` and `abortSearch`, for both the first injection and a later one.

  Messages sent to the popup go to an outbox field. The state lives in `let`s inside the block that only the first injection runs. A later injection's handlers therefore assign new globals of the same names, kept in the `laterGlobals` field; nothing reads them. The `scrollConversationList` and `processNextConversation` that a later handler calls are the first injection's, so they work on the first injection's state.
- `Popup` (`popup.dfy`) holds:
  - `sanitizeFilename`;
  - the start button's checks of the save prefix and the pause;
  - the prefix proposed after a search;
  - the download file names.

Where the code and its comments disagree, the model follows the code:

- **A title that is not found produces no transcript.** A title missing from the list, or found without a clickable parent, adds no entry to the collected transcripts. It is only reported to the popup (content.js:766-783).
- **The search string keeps only its first word.** The lazy capture of the results regular expression stops at the first white space. A quoted search of several words therefore yields only its first word, although the comment at content.js:794-796 says spaces are allowed (`ResultsMarker.QuotedPhraseKeepsFirstWord`).
- **`allTitlesMatched` depends on which handler runs.** On an empty title list it is `false` in the first-injection handler (content.js:824-833). It is `true` in the handler of a later injection, since `every` holds on an empty list (content.js:910-912). Both are modelled as written.
- **A later injection does not reset the automation.** The assignments under the "Update automation state variables" comment in a later injection's `searchPageContent` (content.js:914-917) write new globals, not the state `processNextConversation` reads. After a later popup opening, the titles and transcripts the first injection holds stay as they were, and a later start processes those (`Automation.ContentScript.SearchPageContentReinjected`, `Automation.ContentScript.StartAutomationReinjected`).
- **The download prefix is the field as typed.** The start button checks a copy of the prefix with `/` appended (popup.js:134-138), but the download names use the field's trimmed value (popup.js:244, 267). A field reading `notes` gives `notes<name>.txt`, not a folder (`Popup.DownloadFilenameParts`).
- **A completion without titles breaks the popup.** The no-titles completion carries no `transcripts` field (content.js:871), which the model sends as `AutomationComplete(NoTitlesMessage, None)`. The popup's handler reads `request.transcripts.length` in a log call (popup.js:235) before its test at popup.js:241, so it throws and shows no completion text. The downloads agree with the model: `Popup.DownloadFilenames` gives no names for absent transcripts.
- **The indicator list decides every "show thinking" text.** The "fewer than 50 characters after show thinking" branch of `isPlaceholderResponse` never changes the verdict: the indicator list already starts with `show thinking`, so every such text is a placeholder (`Placeholder.ShowThinkingIsAlwaysPlaceholder`).

## Model

| member | source | states |
|---|---|---|
| JsString.Trim | content.js:48 | the result has no white space (ECMAScript white space and line terminators, U+00A0 included) at either end |
| JsString.TrimEmpty | content.js:300 | a trimmed text is empty exactly when every character of the original is white space |
| JsString.LowerPointwise | content.js:48 | lower-casing maps each character on its own, upper-case ASCII letters to their lower-case forms |
| JsString.JsLength | content.js:54 | `length` counts UTF-16 code units: at least one and at most two per character |
| JsString.SplitJoin | content.js:93 | joining the pieces of `split` with the same separator gives the text back |
| JsString.SplitPiecesFree | content.js:93 | no piece of a split contains the separator |
| JsString.SplitAtFirst | content.js:93 | the first separator ends the first piece, and the rest splits on its own |
| JsString.DecimalRoundTrip | content.js:305 | the block number written by `${i + 1}` reads back as `i + 1` |
| Placeholder.IsPlaceholderResponse | content.js:29-68 | a text that is blank once trimmed is a placeholder; a text that is not has a clean form of at least 10 code units that never mentions a stopped response |
| Placeholder.PlaceholderCases | content.js:29-67 | a text is a placeholder exactly when it is empty, its trimmed lower-cased form is shorter than 10 code units, that form contains "you stopped this response", or that form starts with one of the listed indicators |
| Placeholder.PlaceholderDependsOnCleanText | content.js:48 | two texts with the same trimmed lower-cased form get the same verdict |
| Placeholder.ShowThinkingIsAlwaysPlaceholder | content.js:32-67 | every text whose trimmed lower-cased form starts with "show thinking" is a placeholder, whatever follows it |
| Placeholder.NonPlaceholderIsSubstantial | content.js:30-67 | a text that is not a placeholder is non-empty after trimming, has a clean form of at least 10 code units, and does not start with "show thinking" |
| Titles.RemoveNoBreakSpaces | content.js:532 | the result contains no U+00A0 and is no longer than the input |
| Titles.RemoveNoBreakSpacesAppend | content.js:532 | removing U+00A0 from a concatenation removes it from each part |
| Titles.NormalizeTitle | content.js:532 | a cleaned title contains no U+00A0 and has no white space at either end |
| Titles.NormalizeTitleIdempotent | content.js:532 | cleaning a cleaned title changes nothing |
| Titles.CollectTitles | content.js:812-816 | the loop pushes every element's title, cleaned, in element order |
| ResponseExtraction.KeptLines | content.js:97-106 | the filter keeps at most as many lines as it is given |
| ResponseExtraction.KeptLinesClean | content.js:97-106 | every line the filter keeps is non-empty, trimmed and free of "show thinking" in any case |
| ResponseExtraction.KeptLinesInOrder | content.js:97-106 | the kept lines are trimmed input lines, in input order |
| ResponseExtraction.NothingBeforeFirstMarker | content.js:97-106 | nothing before the first marker line survives; the result is what the lines after it give with keeping switched on |
| ResponseExtraction.NoMarkerKeepsNothing | content.js:97-106 | without a marker line nothing is kept |
| ResponseExtraction.KeptLinesAppend | content.js:97-106 | once keeping is on, a later marker line does not reset it: the kept lines of two blocks are the kept lines of each |
| ResponseExtraction.FilterLinesAfterMarker | content.js:93-106 | the loop keeps exactly the lines the filter specifies, each non-empty, trimmed and free of the marker |
| ResponseExtraction.JoinTrimmed | content.js:109 | joining non-empty trimmed lines with newlines gives a non-empty trimmed text |
| ResponseExtraction.LinesAfterShowThinkingClean | content.js:93-110 | a filtered text is non-empty, needs no trimming and never mentions "show thinking"; no text results only when no line was kept |
| ResponseExtraction.MarkerThenAnswer | content.js:93-110 | a marker line followed by one answer line gives exactly the answer line |
| ResponseExtraction.FilterAfterShowThinking | content.js:93-111 | split, filter, join and trim compute the specified filter result |
| ResponseExtraction.FirstIndexFrom | content.js:114-122 | the index found from `i` on holds an element that passes the test, and no element between `i` and it passes; with none found, no element from `i` on passes |
| ResponseExtraction.FirstSubstantialChild | content.js:113-124 | the text chosen is the trimmed text of a child that is longer than 20 code units, free of the marker and not a placeholder, and no earlier child qualifies; a text is chosen exactly when some child qualifies |
| ResponseExtraction.FindSubstantialChild | content.js:113-124 | the loop stops at the first qualifying child |
| ResponseExtraction.MessageContentAnswer | content.js:82-134 | strategy 1's answer is trimmed, and it is the hidden-response notice or free of "show thinking" |
| ResponseExtraction.AnswerFromMessageContent | content.js:82-134 | strategy 1 computes the specified answer for a `message-content` child |
| ResponseExtraction.WholeTextAnswer | content.js:156-189 | strategy 3's answer is trimmed, and it is the hidden-response notice or free of "show thinking" |
| ResponseExtraction.AnswerFromWholeText | content.js:156-189 | strategy 3 computes the specified answer on the element's whole text |
| ResponseExtraction.ActualResponse | content.js:73-190 | a missing element gives `""`, and every answer is trimmed |
| ResponseExtraction.ExtractActualResponse | content.js:73-190 | the strategies tried in order compute `ActualResponse`. A missing element gives `""`. When strategy 1 or 3 answers, the result is the hidden-response notice or a text free of "show thinking" |
| ResponseExtraction.ActualResponseHidesThinking | content.js:126-127 | with a `message-content` child or without a `model-thoughts` child, the answer is the notice or free of "show thinking" |
| ResponseExtraction.ThoughtsAnswerIsReal | content.js:137-154 | strategy 2 answers only with a non-empty text that is not a placeholder; otherwise strategy 3 decides |
| ResponseExtraction.PlainTextUnchanged | content.js:84-133 | a text that never mentions the marker is answered as it stands, trimmed |
| ResponseExtraction.PollText | content.js:207-213 | the text a poll checks is trimmed, and it is blank only when the element's whole text is blank |
| ResponseExtraction.AllOfFirstMeans | content.js:203-220 | the per-element check holds for the first `n` elements exactly when it holds for each of them |
| ResponseExtraction.FailureSpoilsPrefix | content.js:215-219 | one element failing the check spoils every longer prefix |
| ResponseExtraction.SnapshotReadyMeans | content.js:201-225 | a poll succeeds exactly when there is at least one element and none of them reads as a placeholder |
| ResponseExtraction.CheckResponses | content.js:201-220 | the loop, which stops at the first placeholder, answers whether every element is ready |
| ResponseExtraction.WaitForResponseContent | content.js:195-233 | the wait succeeds exactly when some poll finds every element ready |
| TranscriptExtraction.PairBlocks | content.js:254 | a transcript has as many blocks as the longer of the two element lists |
| TranscriptExtraction.TranscriptEmptyIffNoElements | content.js:259-342 | the transcript is empty exactly when no selector finds a prompt or a response |
| TranscriptExtraction.MainListsWin | content.js:259 | the fallback lists matter only when both main lists are empty |
| TranscriptExtraction.BlocksNumbered | content.js:375 | block `i` opens with the header of pair `i + 1`, whose number reads back as `i + 1` |
| TranscriptExtraction.ResponseSlotsSettled | content.js:384-393 | every response slot is the extracted answer, non-empty and not a placeholder, or one of the two notices |
| TranscriptExtraction.RenderResponse | content.js:378-397 | the response half of a pair is the answer, the still-loading notice for a placeholder, or the not-found notice for nothing |
| TranscriptExtraction.RenderPrompt | content.js:348-374 | the prompt half is the bubble paragraph's text, else the element's text, else the not-found notice |
| TranscriptExtraction.AppendBlock | content.js:375-397 | appending a pair's two halves appends that pair's block |
| TranscriptExtraction.AltTranscript | content.js:291-321 | the fallback loop produces the numbered blocks of the fallback lists |
| TranscriptExtraction.MainTranscript | content.js:344-398 | the main loop produces the numbered blocks of the main lists, with notices for the shorter list |
| TranscriptExtraction.Transcript | content.js:235-401 | a page with a prompt or a response in the main lists gives a non-empty transcript |
| TranscriptExtraction.ExtractTranscript | content.js:235-401 | the transcript is that of the main lists if either is non-empty, else that of the fallback lists; it is empty exactly when all four lists are |
| ResultsMarker.DigitRunEnd | content.js:797 | `(\d+)` takes the whole run of digits |
| ResultsMarker.CaptureEnd | content.js:797 | the lazy capture stops at the first position where an optional closing quote and then the end or a white space follow |
| ResultsMarker.MatchAt | content.js:797 | a match found at `p` starts at `p`, is a prefix of the text from `p`, and opens with its non-empty number |
| ResultsMarker.FindMarkerFrom | content.js:798 | the match found is a match, and no earlier position starts one |
| ResultsMarker.FindMarker | content.js:798 | the number of results a match carries is a run of decimal digits |
| ResultsMarker.MatchShape | content.js:797 | a match has a non-empty number and a non-empty capture with no white space after its first character |
| ResultsMarker.MarkerStartsDigitRun | content.js:797-798 | the leftmost match never starts right after a digit, so its number is the whole digit run |
| ResultsMarker.DigitExtendsMatch | content.js:797 | a digit in front of a match starts a match of its own |
| ResultsMarker.SearchString | content.js:806 | the search string has no white space at either end |
| ResultsMarker.SearchStringIsOneWord | content.js:806 | the search string `match[2].trim()` contains no white space |
| ResultsMarker.QuotedPhraseKeepsFirstWord | content.js:794-806 | `<n> results for "<word> <more>"` matches at the start; the number is read from `<n>` and the search string is `<word>` alone |
| ListDiscovery.AllSeenMeans | content.js:554 | the `every` check holds exactly when each required title is in the set |
| ListDiscovery.SeeAllAdds | content.js:531-535 | adding the re-scanned titles keeps the old set as a prefix, adds exactly the cleaned titles, and adds none twice |
| ListDiscovery.SeenIsEveryRenderedTitle | content.js:438 | after `n` iterations the set holds each title re-scanned so far, once, and nothing else |
| ListDiscovery.SeenGrows | content.js:534 | the set only grows: an earlier set is a prefix of every later one |
| ListDiscovery.TitleStallIsRun | content.js:561-567 | the title stall count is at least `m` exactly when the last visible title, or its absence, has stayed the same for the last `m` iterations; a change resets it to 0 |
| ListDiscovery.ItemStallIsRun | content.js:573-630 | the item stall count is at least `m` exactly when the item count has stayed the same for the last `m` iterations; a change resets it to 0 |
| ListDiscovery.FirstIteration | content.js:440-453 | the first iteration is never an item stall, since the previous count starts at -1; it is a title stall when no title is visible, since the last title starts as `null` |
| ListDiscovery.ItemStallBound | content.js:573-630 | after `n` iterations the item stall count is below `n` |
| ListDiscovery.ProbesFireLate | content.js:578-616 | every probe fires at an attempt already made; "load more" fires no earlier than attempt 21, the alternative scroll no earlier than attempt 76 |
| ListDiscovery.AddRenderedTitles | content.js:531-535 | the inner loop adds the re-scanned titles as specified |
| ListDiscovery.FirstExit | content.js:454 | the count of iterations found is one after which the loop is over |
| ListDiscovery.FirstExitIsFirst | content.js:454 | the loop goes on after every smaller count |
| ListDiscovery.FoundIffAllSeen | content.js:554-558 | a run stops for "all found" exactly when every required title has been seen |
| ListDiscovery.ScrollStep | content.js:455-630 | one attempt leaves the state `StateAfter` gives for one more iteration, or takes the first `break` that applies with the titles and probes gathered up to there, and that `break` ends the run |
| ListDiscovery.ScrollLoop | content.js:454-631 | the loop stops at the first count of iterations after which it is over, with the state `StoppedWith` describes for that stop |
| ListDiscovery.ScrollConversationList | content.js:409-642 | the method returns `ScrollRun`: the titles and the abort flag of the run that stops at the first exit |
| ListDiscovery.ScrollRun | content.js:409-642 | a run makes at most 15000 attempts and returns no titles when it was aborted |
| ListDiscovery.ScrollRunMeans | content.js:443-641 | a run makes between 1 and 15000 attempts. It stops at the first check after which the loop is over, and after one attempt when nothing is required. It stops for "all found" exactly when every required title is seen. It returns `[]` when the abort flag is up at the end, and otherwise every title seen |
| Automation.FirstMatchMeans | content.js:675-684 | the element used is the first whose cleaned text equals the title; there is none exactly when no element's text does |
| Automation.FindTitleElement | content.js:670-684 | the loop stops at the first matching element |
| Automation.OutcomeOf | content.js:686-693 | a title is found only when some sidebar text cleans to it, and collected only when such an entry sits in a conversation item |
| Automation.OutcomeOfMeans | content.js:686-693 | a title is not in the list exactly when no cleaned sidebar text equals it; otherwise the first match decides whether it is collected |
| Automation.StepMessages | content.js:688-781 | one title sends one or two messages; the first is a not-found report exactly when the title is not in the list, the last exactly when it is not collected |
| Automation.StepMessagesReport | content.js:688-780 | a title that is found is announced with its position counted from 1, and a title that is not collected is reported with the reason |
| Automation.AbortNotice | content.js:633-636 | a `searchAborted` message is sent exactly when the run was aborted |
| Automation.ContentScript.CollectedWithinIndex | content.js:747-762 | there are never more collected transcripts than titles passed |
| Automation.ContentScript.constructor | content.js:12-17 | the state starts empty, with the pause at 500 and the abort flag down |
| Automation.ContentScript.ProcessNextConversation | content.js:650-784 | processing runs to the end of the titles. It appends, in title order, one transcript per title found inside a conversation item, and the progress and not-found messages of each title, then the completion message carrying every transcript collected. The titles, the prefix and the pause are unchanged |
| Automation.ContentScript.ProcessTitle | content.js:666-783 | one title advances the index by exactly one, and adds that title's transcripts and messages |
| Automation.ContentScript.OpenTitle | content.js:686-764 | a title found with its conversation item is announced, then collected |
| Automation.ContentScript.ReportTitleMissing | content.js:766-783 | a title without a parent is announced, then reported; a title not in the list is only reported; neither adds a transcript |
| Automation.ContentScript.CollectCurrent | content.js:743-762 | the transcript of the opened page is pushed with its title, the index advances, and the collected transcripts stay in title order |
| Automation.ContentScript.SkipCurrent | content.js:770-781 | the index advances and nothing is collected |
| Automation.ContentScript.StartAutomation | content.js:860-872 | the prefix and the pause are kept, absent, empty or zero ones replaced by `''` and 500. With no titles only the no-titles message is sent; otherwise every title is processed. The globals of a later injection are left unchanged |
| Automation.ContentScript.StartAutomationReinjected | content.js:931-935 | the prefix and the pause go to new globals, leaving the first injection's unchanged; processing of the first injection's titles starts whatever they are, so an empty list completes at once |
| Automation.ContentScript.AbortSearch | content.js:873-876 | the abort flag goes up and nothing else changes |
| Automation.ContentScript.AbortSearchReinjected | content.js:936-939 | a new abort global goes up; the flag the scroll loop reads does not change |
| Automation.ContentScript.ResetAutomation | content.js:835-837 | the title list is replaced, the transcripts emptied, the index reset |
| Automation.ContentScript.SearchPageContent | content.js:790-859 | without a marker only `found: false` is reported and nothing else changes. With one, the cleaned result titles become the titles to process, the list is scrolled for them, and the match, its number, the search string, both title lists and the match verdict are reported; the verdict is false for no titles |
| Automation.ContentScript.SearchFound | content.js:805-850 | as the marker branch above |
| Automation.ContentScript.SearchPageContentReinjected | content.js:886-929 | the list is scrolled with or without a marker, with no titles when there is none, and the verdict is true for no titles. The titles, an empty transcript list, index 0 and a lowered abort flag go to new globals; the first injection's titles, index and transcripts do not change |
| Automation.ContentScript.RescanAndReport | content.js:908-928 | scrolls for the titles with the first injection's scroll, assigns the titles, an empty transcript list and index 0 to new globals, and reports whether every one was seen |
| Automation.ContentScript.Scroll | content.js:414-636 | the abort flag is cleared first and left as the loop last read it; `searchAborted` is sent exactly when the run was aborted |
| Popup.ReplaceForbidden | popup.js:6 | each forbidden character (slash, backslash, `?`, `%`, `*`, `:`, vertical bar, double quote, `<`, `>`) becomes `_`, every other character is kept, and the length is kept |
| Popup.CollapseWhitespace | popup.js:7 | the result has no white space and no character other than `_` and characters of the input |
| Popup.CollapseRun | popup.js:7 | a whole run of white space becomes a single `_` |
| Popup.CollapseWord | popup.js:7 | text without white space passes through unchanged |
| Popup.SanitizeFilename | popup.js:3-9 | the name contains no forbidden character, no white space and no ASCII upper-case letter; it is no longer than the title because the lowering is modelled as ASCII-only (see `JsString.Lower` under "## Left out") |
| Popup.SanitizeIdempotent | popup.js:3-9 | sanitising a sanitised name changes nothing |
| Popup.SavePrefix | popup.js:134-138 | the prefix is empty or ends with `/` |
| Popup.SavePrefixMeans | popup.js:134-138 | the prefix is empty exactly when the input is all white space; otherwise it ends with `/`, which is appended only when the trimmed input lacks it |
| Popup.SavePrefixStable | popup.js:136-138 | the slash is appended at most once: a prefix already checked passes the check unchanged |
| Popup.CheckStart | popup.js:132-152 | an accepted start has a prefix ending in `/` and a pause that is not negative |
| Popup.CheckStartMeans | popup.js:134-152 | an all-white-space prefix is refused first; then a pause that is not a number or is negative; anything else, a pause of 0 included, is accepted with a prefix ending in `/` |
| Popup.ProposedPrefix | popup.js:198-224 | a proposed prefix always ends with `/` |
| Popup.ProposedPrefixAccepted | popup.js:198-224 | a proposed prefix is one folder name of safe characters followed by `/`, and the start check accepts it unchanged |
| Popup.DownloadFilename | popup.js:267 | a download name starts with the prefix and is four characters (`.txt`) longer than the prefix and the sanitised title together |
| Popup.DownloadFilenames | popup.js:241-267 | one name per transcript, none when no transcripts came back |
| Popup.DownloadFilenameParts | popup.js:244-267 | download `i` is the prefix field, trimmed and with no `/` added, then transcript `i`'s sanitised title with no slash or white space, then `.txt` |
| Popup.PopupPage.OnSearchResults | popup.js:190-225 | the prefix field is set to the sanitised search string followed by `/`, or to `gemini_transcripts/` when nothing was found or the search string is empty. The status line reports the title count when every title matched, the mismatch otherwise, or the missing pattern. The start button is enabled when the page was verified with at least one title, all matched, and otherwise keeps its state |
| Popup.PopupPage.OnStartClicked | popup.js:132-158 | the handler returns the verdict of the two checks and shows its message. Only an accepted start disables the button |

## Left out

- Browser APIs are not modelled: DOM queries, `click`, `scrollIntoView`, the synthetic wheel event, `scrollTop` arithmetic and `history.back`. What the script reads from the page is an input; what it sends to the popup goes to an outbox.
- Script injection and tab queries are not modelled (popup.js:87-124, 160-184), nor downloads and object URLs (popup.js:247-361). They are calls into the browser.
- The `searchProgress` messages (content.js:540-550) and the `logToPageConsole` listener (content.js:944-948) are not modelled. They only report progress or log.
- Timers and waits are not modelled: `setTimeout` sleeps, `Date.now()`, and the 200 ms × 20 wait for conversation content (content.js:705-736).
  - `waitForResponseContent` is modelled as a finite sequence of polls.
  - Its result is unused by the caller (content.js:727), so processing does not depend on it.
- The effects of the "load more" and alternative-scroll probes (content.js:580-615) are not modelled. The model records when they fire, and what the page shows afterwards is an input.
- The early return when no scrollable element exists (content.js:426-429) is not modelled, because `document.documentElement` always exists.
- Concurrency is not modelled. The abort flag is set by another message handler, so it is an input read at each loop-top check.
- Automation.ContentScript.ProcessNextConversation: the script calls itself without `await`, and another `startAutomation` message could start a second chain. The model runs one chain to its end, in order.
- Automation.ContentScript.StartAutomationReinjected: every popup opening injects the script again (popup.js:98-110), and each injection registers a listener while the first stays registered. A message therefore reaches the first injection's handler and every later one's, which run concurrently. After a second opening a start runs `StartAutomation` and this handler together, two `processNextConversation` chains over one `currentIndex` (content.js:868, 935) that can repeat or skip titles. The model gives each handler on its own and does not model that interleaving.
- Automation.ContentScript.SearchPageContentReinjected: for the same reason a later search message also runs `SearchPageContent`, whose scroll runs beside this one; the model gives each handler on its own. Which scroll sets the abort flag last, and the order of the two reports, are not modelled.
- Automation.ContentScript.RescanAndReport: runs its scroll alone; the concurrent scroll of the first injection's handler over the same flag is not modelled.
- Automation.ContentScript.StartAutomation: stores `globalSavePrefix` and `pauseDurationMs`, but the script never reads them except to log them (content.js:864), so they have no effect.
- JsString.Lower: lower-cases ASCII letters only. The case mappings of other scripts, some of which also change the length, are not modelled. Verdicts can therefore differ from the script's: JavaScript lower-cases U+212A KELVIN SIGN to `k`, so `"WOR\u212AING ON IT"` starts with the indicator "working on it" there but with no indicator in the model, and a line such as `SHOW THIN\u212AING` is a marker there but not here.
- ResultsMarker.NumResults: the exact whole number of the digit run. `parseInt` returns a double, which is rounded above 2^53 and is `Infinity` for a run of about 309 digits or more (content.js:843); that is not modelled.
- Popup.CheckStart: takes the pause as `parseFloat`'s result. Parsing the text and converting seconds to milliseconds (popup.js:146, 168) are floating point and are not modelled.
- The popup's initial page scan and its own regular expression (popup.js:60-126) are not modelled: the regular expression's quote characters are damaged by a wrong text encoding. Button visibility, the `hidden` class the handlers add and remove (popup.js:211, 217, 223, 230, 238), the status styling (popup.js:28-57) and the status texts of the `processingTitle` and `automationComplete` handlers are not modelled either.
- The literal example `"Trip/Plans: Japan?"` → `"trip_plans__japan_"` is not evaluated on the literal. It follows from `Popup.ReplaceForbidden`, `Popup.CollapseRun`, `Popup.CollapseWord` and `JsString.LowerPointwise`.
- Two downloads that sanitise to the same file name are not detected; neither does the script.
