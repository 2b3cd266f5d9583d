/**
 * The content script's module-level state and the handlers that change it:
 * `processNextConversation`, and the `searchPageContent`, `startAutomation` and
 * `abortSearch` messages, in the first-injection and the re-injection variants.
 * Messages sent to the popup are recorded in an outbox.
 */
module Automation {
  import opened Wrappers
  import opened JsString
  import opened Titles
  import opened TranscriptExtraction
  import opened ListDiscovery
  import opened ResultsMarker

  const AllProcessedMessage := "All search result conversations processed. Transcripts ready for download."
  const NoTitlesMessage := "No search result titles were found to process for automation."
  const ParentMissingReason := "Clickable parent element not found for this title."
  const NotInListReason := "Title text not found in the conversation list."
  const DefaultPauseMs := 500

  /** A `.conversation-title` element: its text, and whether it sits inside a `[data-test-id="conversation"]` item. */
  datatype SidebarEntry = SidebarEntry(text: string, inConversationItem: bool)

  /** What processing one title meets: the sidebar, and the conversation page once it has loaded after the click. */
  datatype Visit = Visit(sidebar: seq<SidebarEntry>, conversation: ConversationPage)

  datatype CollectedTranscript = CollectedTranscript(title: string, content: string)

  /** The messages the script sends to the popup; fields a message does not carry are `None`. */
  datatype Message =
    | ProcessingTitle(title: string, current: nat, total: nat)
    | TitleNotFoundInList(title: string, reason: string)
    | AutomationComplete(message: string, transcripts: Option<seq<CollectedTranscript>>)
    | SearchAborted
    | SearchResults(
        found: bool,
        matched: Option<string>,
        numResults: Option<nat>,
        searchString: string,
        titles: Option<seq<string>>,
        conversationTitles: Option<seq<string>>,
        allTitlesMatched: Option<bool>)

  /**
   * The window properties a later injection's handlers create. The state of the first
   * injection is block-scoped, so the same names assigned from a later injection make new
   * globals (`None` until first assigned). Nothing reads them.
   */
  datatype LaterGlobals = LaterGlobals(
    titlesToProcess: Option<seq<string>>,
    currentIndex: Option<nat>,
    collectedTranscripts: Option<seq<CollectedTranscript>>,
    globalSavePrefix: Option<string>,
    pauseDurationMs: Option<int>,
    isSearchAborted: Option<bool>)

  const NoLaterGlobals := LaterGlobals(None, None, None, None, None, None)

  /** The first sidebar entry at or after `i` whose normalised text is `target`. */
  function FirstMatchFrom(sidebar: seq<SidebarEntry>, target: string, i: nat): (r: Option<nat>)
    requires i <= |sidebar|
    ensures r.Some? ==> i <= r.value < |sidebar|
    decreases |sidebar| - i
  {
    if i == |sidebar| then None
    else if NormalizeTitle(sidebar[i].text) == target then Some(i)
    else FirstMatchFrom(sidebar, target, i + 1)
  }

  /** The search finds the first entry from `i` on whose normalised text is the target, and only when there is one. */
  lemma {:induction false} FirstMatchFromMeans(sidebar: seq<SidebarEntry>, target: string, i: nat)
    requires i <= |sidebar|
    ensures var r := FirstMatchFrom(sidebar, target, i);
      && (r.Some? ==> NormalizeTitle(sidebar[r.value].text) == target)
      && (forall j :: i <= j < |sidebar| && (r.None? || j < r.value) ==> NormalizeTitle(sidebar[j].text) != target)
    decreases |sidebar| - i
  {
    if i < |sidebar| && NormalizeTitle(sidebar[i].text) != target {
      FirstMatchFromMeans(sidebar, target, i + 1);
    }
  }

  function FirstMatch(sidebar: seq<SidebarEntry>, target: string): (r: Option<nat>)
    ensures r.Some? ==> r.value < |sidebar|
  {
    FirstMatchFrom(sidebar, target, 0)
  }

  /**
   * The title element the script clicks is the first sidebar entry whose normalised
   * text equals the title, and there is none exactly when no entry's text matches.
   */
  lemma FirstMatchMeans(sidebar: seq<SidebarEntry>, target: string)
    ensures var r := FirstMatch(sidebar, target);
      && (r.Some? ==> NormalizeTitle(sidebar[r.value].text) == target)
      && (forall j :: 0 <= j < |sidebar| && (r.None? || j < r.value) ==> NormalizeTitle(sidebar[j].text) != target)
  {
    FirstMatchFromMeans(sidebar, target, 0);
  }

  /** The `for ... of` over the sidebar that stops at the first entry whose text matches. */
  method FindTitleElement(sidebar: seq<SidebarEntry>, target: string) returns (foundElement: Option<nat>)
    ensures foundElement == FirstMatch(sidebar, target)
  {
    foundElement := None;
    var i := 0;
    while i < |sidebar|
      invariant 0 <= i <= |sidebar|
      invariant FirstMatchFrom(sidebar, target, i) == FirstMatch(sidebar, target)
    {
      var cleanedElementText := NormalizeTitle(sidebar[i].text);
      if cleanedElementText == target {
        foundElement := Some(i);
        return;
      }
      i := i + 1;
    }
  }

  datatype TitleOutcome = Collect | ParentMissing | NotInList

  /** What happens to a title: found with its conversation item, found without one, or not found. */
  function OutcomeOf(visit: Visit, target: string): (r: TitleOutcome)
    ensures r != NotInList ==>
      exists i :: 0 <= i < |visit.sidebar| && NormalizeTitle(visit.sidebar[i].text) == target
    ensures r == Collect ==>
      exists i :: 0 <= i < |visit.sidebar| && NormalizeTitle(visit.sidebar[i].text) == target && visit.sidebar[i].inConversationItem
  {
    FirstMatchFromMeans(visit.sidebar, target, 0);
    match FirstMatch(visit.sidebar, target)
    case None => NotInList
    case Some(i) => if visit.sidebar[i].inConversationItem then Collect else ParentMissing
  }

  /**
   * A title is not in the list exactly when no sidebar entry's normalised text is the
   * title; otherwise its fate is decided by the first entry that matches.
   */
  lemma OutcomeOfMeans(visit: Visit, target: string)
    ensures OutcomeOf(visit, target) == NotInList <==>
      forall j :: 0 <= j < |visit.sidebar| ==> NormalizeTitle(visit.sidebar[j].text) != target
    ensures OutcomeOf(visit, target) != NotInList ==>
      exists i :: 0 <= i < |visit.sidebar| && NormalizeTitle(visit.sidebar[i].text) == target &&
        (forall j :: 0 <= j < i ==> NormalizeTitle(visit.sidebar[j].text) != target) &&
        (OutcomeOf(visit, target) == Collect <==> visit.sidebar[i].inConversationItem)
  {
    FirstMatchMeans(visit.sidebar, target);
  }

  /**
   * Every title is reported: a title that was found is announced with its position
   * counted from 1, and one that is not collected is reported with the reason.
   */
  lemma StepMessagesReport(outcome: TitleOutcome, target: string, index: nat, total: nat)
    ensures var sent := StepMessages(outcome, target, index, total);
      && (sent[0] == ProcessingTitle(target, index + 1, total) <==> outcome != NotInList)
      && (outcome != Collect <==> TitleNotFoundInList(target, ParentMissingReason) in sent || TitleNotFoundInList(target, NotInListReason) in sent)
  {
  }

  /** The messages one step sends for title number `index` (counted from 0) of `total`. */
  function StepMessages(outcome: TitleOutcome, target: string, index: nat, total: nat): (r: seq<Message>)
    ensures 1 <= |r| <= 2
    ensures r[0].TitleNotFoundInList? <==> outcome == NotInList
    ensures r[|r| - 1].TitleNotFoundInList? <==> outcome != Collect
  {
    match outcome
    case Collect => [ProcessingTitle(target, index + 1, total)]
    case ParentMissing => [ProcessingTitle(target, index + 1, total), TitleNotFoundInList(target, ParentMissingReason)]
    case NotInList => [TitleNotFoundInList(target, NotInListReason)]
  }

  /** The transcripts collected for titles `lo` up to `hi`, given what processing each title meets. */
  function CollectedBetween(titles: seq<string>, visit: nat -> Visit, lo: nat, hi: nat): seq<CollectedTranscript>
    requires hi <= |titles|
    decreases hi - lo
  {
    if hi <= lo then []
    else CollectedFor(OutcomeOf(visit(lo), titles[lo]), titles[lo], visit(lo).conversation) + CollectedBetween(titles, visit, lo + 1, hi)
  }

  /** The transcript one title contributes: one when it was found inside a conversation item, else none. */
  function CollectedFor(outcome: TitleOutcome, target: string, page: ConversationPage): seq<CollectedTranscript> {
    if outcome == Collect then [CollectedTranscript(target, Transcript(page))] else []
  }

  /** The messages sent while processing titles `lo` up to `hi`. */
  function MessagesBetween(titles: seq<string>, visit: nat -> Visit, lo: nat, hi: nat): seq<Message>
    requires hi <= |titles|
    decreases hi - lo
  {
    if hi <= lo then []
    else StepMessages(OutcomeOf(visit(lo), titles[lo]), titles[lo], lo, |titles|) + MessagesBetween(titles, visit, lo + 1, hi)
  }

  /** `a || b` on an optional string: an absent or empty value gives way to the default. */
  function OrElseString(value: Option<string>, default: string): string {
    if value.Some? && value.value != "" then value.value else default
  }

  /** `a || b` on an optional number: an absent value or 0 gives way to the default. */
  function OrElseNumber(value: Option<int>, default: int): int {
    if value.Some? && value.value != 0 then value.value else default
  }

  /** `list.every(t => other.includes(t))` */
  predicate AllIn(titles: seq<string>, list: seq<string>) {
    forall t :: t in titles ==> t in list
  }

  lemma AppendAssociative<T>(a: seq<T>, b: seq<T>, c: seq<T>)
    ensures a + b + c == a + (b + c)
  {
  }

  /** Title `i` contributes its transcripts ahead of the later titles'. */
  lemma CollectedStep(titles: seq<string>, visit: nat -> Visit, i: nat, before: seq<CollectedTranscript>, after: seq<CollectedTranscript>)
    requires i < |titles|
    requires after == before + CollectedFor(OutcomeOf(visit(i), titles[i]), titles[i], visit(i).conversation)
    ensures after + CollectedBetween(titles, visit, i + 1, |titles|) == before + CollectedBetween(titles, visit, i, |titles|)
  {
    AppendAssociative(before, CollectedFor(OutcomeOf(visit(i), titles[i]), titles[i], visit(i).conversation), CollectedBetween(titles, visit, i + 1, |titles|));
  }

  /** Title `i` sends its messages ahead of the later titles'. */
  lemma MessagesStep(titles: seq<string>, visit: nat -> Visit, i: nat, before: seq<Message>, after: seq<Message>)
    requires i < |titles|
    requires after == before + StepMessages(OutcomeOf(visit(i), titles[i]), titles[i], i, |titles|)
    ensures after + MessagesBetween(titles, visit, i + 1, |titles|) == before + MessagesBetween(titles, visit, i, |titles|)
  {
    AppendAssociative(before, StepMessages(OutcomeOf(visit(i), titles[i]), titles[i], i, |titles|), MessagesBetween(titles, visit, i + 1, |titles|));
  }

  /** Strictly increasing indices all below `n` are at most `n` in number. */
  lemma {:induction false} IncreasingBelow(xs: seq<nat>, n: nat)
    requires forall k :: 0 <= k < |xs| ==> xs[k] < n
    requires forall k, l :: 0 <= k < l < |xs| ==> xs[k] < xs[l]
    ensures |xs| <= n
  {
    if xs != [] {
      var last := xs[|xs| - 1];
      IncreasingBelow(xs[..|xs| - 1], last);
    }
  }

  /**
   * `from` gives, for each collected transcript, the index of the title it was collected
   * for: a title below `bound`, in strictly increasing order.
   */
  ghost predicate CollectedInOrder(collected: seq<CollectedTranscript>, from: seq<nat>, titles: seq<string>, bound: nat) {
    && |from| == |collected|
    && (forall k :: 0 <= k < |from| ==> from[k] < bound && from[k] < |titles| && collected[k].title == titles[from[k]])
    && (forall k, l :: 0 <= k < l < |from| ==> from[k] < from[l])
  }

  /** Passing title `bound` keeps the order, whether or not a transcript is collected for it. */
  lemma CollectedInOrderStep(collected: seq<CollectedTranscript>, from: seq<nat>, titles: seq<string>, bound: nat, t: CollectedTranscript)
    requires CollectedInOrder(collected, from, titles, bound) && bound < |titles|
    ensures CollectedInOrder(collected, from, titles, bound + 1)
    ensures t.title == titles[bound] ==> CollectedInOrder(collected + [t], from + [bound], titles, bound + 1)
  {
  }

  /** The `searchAborted` message a scroll that was aborted sends. */
  function AbortNotice(run: ScrollResult): (sent: seq<Message>)
    ensures sent != [] <==> run.wasAborted
  {
    if run.wasAborted then [SearchAborted] else []
  }

  class ContentScript {
    var titlesToProcess: seq<string>
    var currentIndex: nat
    var collectedTranscripts: seq<CollectedTranscript>
    var globalSavePrefix: string
    var pauseDurationMs: int
    var isSearchAborted: bool
    /** The messages sent so far, oldest first. */
    var outbox: seq<Message>
    /** What the handlers of a later injection assign; the state above never changes through them. */
    var laterGlobals: LaterGlobals
    /** For each collected transcript, the index of the title it was collected for. */
    ghost var collectedFrom: seq<nat>

    /**
     * The index never passes the end of the title list, and the collected transcripts
     * belong to titles already passed, in increasing title order.
     */
    ghost predicate Valid()
      reads this
    {
      && currentIndex <= |titlesToProcess|
      && CollectedInOrder(collectedTranscripts, collectedFrom, titlesToProcess, currentIndex)
    }

    /** In a valid state there are never more transcripts than titles passed. */
    lemma CollectedWithinIndex()
      requires Valid()
      ensures |collectedTranscripts| <= currentIndex
    {
      IncreasingBelow(collectedFrom, currentIndex);
    }

    constructor()
      ensures Valid()
      ensures titlesToProcess == [] && currentIndex == 0 && collectedTranscripts == []
      ensures globalSavePrefix == "" && pauseDurationMs == DefaultPauseMs && !isSearchAborted
      ensures outbox == [] && laterGlobals == NoLaterGlobals
    {
      titlesToProcess := [];
      currentIndex := 0;
      collectedTranscripts := [];
      globalSavePrefix := "";
      pauseDurationMs := DefaultPauseMs;
      isSearchAborted := false;
      outbox := [];
      laterGlobals := NoLaterGlobals;
      collectedFrom := [];
    }

    /**
     * `processNextConversation`: once every title is passed, report completion with the
     * transcripts collected; otherwise process the current title, meeting
     * `visit(currentIndex)`, move on by one and call itself again.
     */
    method ProcessNextConversation(visit: nat -> Visit)
      requires Valid()
      modifies this
      ensures Valid()
      ensures titlesToProcess == old(titlesToProcess) && currentIndex == |titlesToProcess|
      ensures globalSavePrefix == old(globalSavePrefix) && pauseDurationMs == old(pauseDurationMs)
      ensures laterGlobals == old(laterGlobals)
      ensures isSearchAborted == old(isSearchAborted)
      ensures collectedTranscripts ==
        old(collectedTranscripts) + CollectedBetween(titlesToProcess, visit, old(currentIndex), |titlesToProcess|)
      ensures outbox ==
        old(outbox) + MessagesBetween(titlesToProcess, visit, old(currentIndex), |titlesToProcess|) +
        [AutomationComplete(AllProcessedMessage, Some(collectedTranscripts))]
      decreases |titlesToProcess| - currentIndex
    {
      if currentIndex >= |titlesToProcess| {
        Send(AutomationComplete(AllProcessedMessage, Some(collectedTranscripts)));
        return;
      }
      ghost var i, c0, o0 := currentIndex, collectedTranscripts, outbox;
      ProcessTitle(visit(currentIndex));
      CollectedStep(titlesToProcess, visit, i, c0, collectedTranscripts);
      MessagesStep(titlesToProcess, visit, i, o0, outbox);
      ProcessNextConversation(visit);
    }

    /** One title of `processNextConversation`: look it up in the list, then open it or report it missing. */
    method ProcessTitle(visit: Visit)
      requires Valid() && currentIndex < |titlesToProcess|
      modifies this
      ensures Valid()
      ensures titlesToProcess == old(titlesToProcess)
      ensures globalSavePrefix == old(globalSavePrefix) && pauseDurationMs == old(pauseDurationMs)
      ensures laterGlobals == old(laterGlobals)
      ensures isSearchAborted == old(isSearchAborted)
      ensures currentIndex == old(currentIndex) + 1
      ensures collectedTranscripts == old(collectedTranscripts) + CollectedFor(OutcomeOf(visit, titlesToProcess[old(currentIndex)]), titlesToProcess[old(currentIndex)], visit.conversation)
      ensures outbox == old(outbox) + StepMessages(OutcomeOf(visit, titlesToProcess[old(currentIndex)]), titlesToProcess[old(currentIndex)], old(currentIndex), |titlesToProcess|)
    {
      var targetTitle := titlesToProcess[currentIndex];
      var foundElement := FindTitleElement(visit.sidebar, targetTitle);
      if foundElement.Some? {
        if visit.sidebar[foundElement.value].inConversationItem {
          assert OutcomeOf(visit, targetTitle) == Collect;
          OpenTitle(visit.conversation);
        } else {
          assert OutcomeOf(visit, targetTitle) == ParentMissing;
          ReportTitleMissing(ParentMissing);
        }
      } else {
        assert OutcomeOf(visit, targetTitle) == NotInList;
        ReportTitleMissing(NotInList);
      }
    }

    /** A title found in the list inside a conversation item: report progress, then collect its transcript. */
    method OpenTitle(page: ConversationPage)
      requires Valid() && currentIndex < |titlesToProcess|
      modifies this
      ensures Valid()
      ensures titlesToProcess == old(titlesToProcess) && currentIndex == old(currentIndex) + 1
      ensures globalSavePrefix == old(globalSavePrefix) && pauseDurationMs == old(pauseDurationMs)
      ensures laterGlobals == old(laterGlobals)
      ensures isSearchAborted == old(isSearchAborted)
      ensures collectedTranscripts == old(collectedTranscripts) + CollectedFor(Collect, titlesToProcess[old(currentIndex)], page)
      ensures outbox == old(outbox) + StepMessages(Collect, titlesToProcess[old(currentIndex)], old(currentIndex), |titlesToProcess|)
    {
      Send(ProcessingTitle(titlesToProcess[currentIndex], currentIndex + 1, |titlesToProcess|));
      CollectCurrent(page);
    }

    /**
     * A title that yields no transcript: when found without a clickable parent, report
     * progress and then the missing parent; when not in the list at all, report that.
     */
    method ReportTitleMissing(outcome: TitleOutcome)
      requires Valid() && currentIndex < |titlesToProcess| && outcome != Collect
      modifies this
      ensures Valid()
      ensures titlesToProcess == old(titlesToProcess) && currentIndex == old(currentIndex) + 1
      ensures globalSavePrefix == old(globalSavePrefix) && pauseDurationMs == old(pauseDurationMs)
      ensures laterGlobals == old(laterGlobals)
      ensures isSearchAborted == old(isSearchAborted)
      ensures collectedTranscripts == old(collectedTranscripts)
      ensures outbox == old(outbox) + StepMessages(outcome, titlesToProcess[old(currentIndex)], old(currentIndex), |titlesToProcess|)
    {
      var targetTitle := titlesToProcess[currentIndex];
      if outcome == ParentMissing {
        ghost var sent := outbox;
        var processing := ProcessingTitle(targetTitle, currentIndex + 1, |titlesToProcess|);
        var notFound := TitleNotFoundInList(targetTitle, ParentMissingReason);
        AppendAssociative(sent, [processing], [notFound]);
        Send(processing);
        Send(notFound);
      } else {
        Send(TitleNotFoundInList(targetTitle, NotInListReason));
      }
      SkipCurrent();
    }

    /** `chrome.runtime.sendMessage` */
    method Send(m: Message)
      modifies this
      ensures outbox == old(outbox) + [m]
      ensures titlesToProcess == old(titlesToProcess) && currentIndex == old(currentIndex)
      ensures collectedTranscripts == old(collectedTranscripts) && collectedFrom == old(collectedFrom)
      ensures globalSavePrefix == old(globalSavePrefix) && pauseDurationMs == old(pauseDurationMs)
      ensures laterGlobals == old(laterGlobals)
      ensures isSearchAborted == old(isSearchAborted)
    {
      outbox := outbox + [m];
    }

    /** `currentIndex++` for a title that yields no transcript. */
    method SkipCurrent()
      requires Valid() && currentIndex < |titlesToProcess|
      modifies this
      ensures Valid()
      ensures currentIndex == old(currentIndex) + 1
      ensures titlesToProcess == old(titlesToProcess) && outbox == old(outbox)
      ensures collectedTranscripts == old(collectedTranscripts)
      ensures globalSavePrefix == old(globalSavePrefix) && pauseDurationMs == old(pauseDurationMs)
      ensures laterGlobals == old(laterGlobals)
      ensures isSearchAborted == old(isSearchAborted)
    {
      CollectedInOrderStep(collectedTranscripts, collectedFrom, titlesToProcess, currentIndex, CollectedTranscript("", ""));
      currentIndex := currentIndex + 1;
    }

    /** Extract the transcript of the opened conversation, push it with its title, and move on. */
    method CollectCurrent(page: ConversationPage)
      requires Valid() && currentIndex < |titlesToProcess|
      modifies this
      ensures Valid()
      ensures titlesToProcess == old(titlesToProcess) && currentIndex == old(currentIndex) + 1
      ensures collectedTranscripts == old(collectedTranscripts) + CollectedFor(Collect, titlesToProcess[old(currentIndex)], page)
      ensures globalSavePrefix == old(globalSavePrefix) && pauseDurationMs == old(pauseDurationMs)
      ensures laterGlobals == old(laterGlobals)
      ensures isSearchAborted == old(isSearchAborted) && outbox == old(outbox)
    {
      var transcriptContent := ExtractTranscript(page);
      var t := CollectedTranscript(titlesToProcess[currentIndex], transcriptContent);
      assert [t] == CollectedFor(Collect, titlesToProcess[currentIndex], page);
      CollectedInOrderStep(collectedTranscripts, collectedFrom, titlesToProcess, currentIndex, t);
      collectedTranscripts := collectedTranscripts + [t];
      collectedFrom := collectedFrom + [currentIndex];
      currentIndex := currentIndex + 1;
    }

    /**
     * The `startAutomation` handler of the first injection: keep the save prefix and the
     * pause (`|| ''` and `|| 500`), then start processing if there are titles, or report
     * that there are none.
     */
    method StartAutomation(savePrefix: Option<string>, pauseDuration: Option<int>, visit: nat -> Visit)
      requires Valid()
      modifies this
      ensures Valid()
      ensures globalSavePrefix == OrElseString(savePrefix, "")
      ensures pauseDurationMs == OrElseNumber(pauseDuration, DefaultPauseMs)
      ensures old(titlesToProcess) == [] ==>
        && outbox == old(outbox) + [AutomationComplete(NoTitlesMessage, None)]
        && collectedTranscripts == old(collectedTranscripts) && currentIndex == old(currentIndex)
      ensures old(titlesToProcess) != [] ==>
        && currentIndex == |titlesToProcess|
        && collectedTranscripts ==
          old(collectedTranscripts) + CollectedBetween(titlesToProcess, visit, old(currentIndex), |titlesToProcess|)
        && outbox ==
          old(outbox) + MessagesBetween(titlesToProcess, visit, old(currentIndex), |titlesToProcess|) +
          [AutomationComplete(AllProcessedMessage, Some(collectedTranscripts))]
      ensures titlesToProcess == old(titlesToProcess) && isSearchAborted == old(isSearchAborted)
      ensures laterGlobals == old(laterGlobals)
    {
      globalSavePrefix := OrElseString(savePrefix, "");
      pauseDurationMs := OrElseNumber(pauseDuration, DefaultPauseMs);
      if |titlesToProcess| > 0 {
        ProcessNextConversation(visit);
      } else {
        outbox := outbox + [AutomationComplete(NoTitlesMessage, None)];
      }
    }

    /**
     * The `startAutomation` handler of a later injection. Its prefix and pause go to new
     * globals, and it calls the first injection's `processNextConversation`, which works on
     * the first injection's state whatever the titles.
     */
    method StartAutomationReinjected(savePrefix: Option<string>, pauseDuration: Option<int>, visit: nat -> Visit)
      requires Valid()
      modifies this
      ensures Valid()
      ensures laterGlobals == old(laterGlobals).(globalSavePrefix := Some(OrElseString(savePrefix, "")),
                                                 pauseDurationMs := Some(OrElseNumber(pauseDuration, DefaultPauseMs)))
      ensures globalSavePrefix == old(globalSavePrefix) && pauseDurationMs == old(pauseDurationMs)
      ensures currentIndex == |titlesToProcess|
      ensures collectedTranscripts ==
        old(collectedTranscripts) + CollectedBetween(titlesToProcess, visit, old(currentIndex), |titlesToProcess|)
      ensures outbox ==
        old(outbox) + MessagesBetween(titlesToProcess, visit, old(currentIndex), |titlesToProcess|) +
        [AutomationComplete(AllProcessedMessage, Some(collectedTranscripts))]
      ensures titlesToProcess == old(titlesToProcess) && isSearchAborted == old(isSearchAborted)
    {
      laterGlobals := laterGlobals.(globalSavePrefix := Some(OrElseString(savePrefix, "")));
      laterGlobals := laterGlobals.(pauseDurationMs := Some(OrElseNumber(pauseDuration, DefaultPauseMs)));
      ProcessNextConversation(visit);
    }

    /** The `abortSearch` handler. */
    method AbortSearch()
      modifies this
      ensures isSearchAborted
      ensures titlesToProcess == old(titlesToProcess) && currentIndex == old(currentIndex)
      ensures collectedTranscripts == old(collectedTranscripts) && collectedFrom == old(collectedFrom)
      ensures globalSavePrefix == old(globalSavePrefix) && pauseDurationMs == old(pauseDurationMs)
      ensures laterGlobals == old(laterGlobals)
      ensures outbox == old(outbox)
    {
      isSearchAborted := true;
    }

    /** The `abortSearch` handler of a later injection: it raises a new global, not the flag the scroll loop reads. */
    method AbortSearchReinjected()
      modifies this`laterGlobals
      ensures laterGlobals == old(laterGlobals).(isSearchAborted := Some(true))
    {
      laterGlobals := laterGlobals.(isSearchAborted := Some(true));
    }

    /** Start over with a new list of titles. */
    method ResetAutomation(titles: seq<string>)
      modifies this
      ensures Valid()
      ensures titlesToProcess == titles && collectedTranscripts == [] && currentIndex == 0
      ensures globalSavePrefix == old(globalSavePrefix) && pauseDurationMs == old(pauseDurationMs)
      ensures laterGlobals == old(laterGlobals)
      ensures isSearchAborted == old(isSearchAborted) && outbox == old(outbox)
    {
      titlesToProcess := titles;
      collectedTranscripts := [];
      currentIndex := 0;
      collectedFrom := [];
    }

    /**
     * The `searchPageContent` handler of the first injection. Without a results marker it
     * only reports that none was found; with one it cleans the search-result titles, scrolls
     * the conversation list for them, starts the automation over with them, and reports.
     */
    method SearchPageContent(pageText: string, resultTitleTexts: seq<string>,
                             observe: nat -> ScrollObservation, aborted: nat -> bool)
      modifies this
      ensures FindMarker(pageText).None? ==>
        && outbox == old(outbox) + [SearchResults(false, None, None, "", None, None, None)]
        && titlesToProcess == old(titlesToProcess) && currentIndex == old(currentIndex)
        && collectedTranscripts == old(collectedTranscripts) && collectedFrom == old(collectedFrom)
        && isSearchAborted == old(isSearchAborted)
      ensures FindMarker(pageText).Some? ==>
        var m := FindMarker(pageText).value;
        var titles := Normalized(resultTitleTexts);
        var run := ScrollRun(titles, observe, aborted);
        && Valid()
        && titlesToProcess == titles && collectedTranscripts == [] && currentIndex == 0
        && isSearchAborted == run.wasAborted
        && outbox == old(outbox) + AbortNotice(run) +
          [SearchResults(true, Some(m.matched), Some(NumResults(m)), SearchString(m),
            Some(titles), Some(run.titles), Some(titles != [] && AllIn(titles, run.titles)))]
      ensures globalSavePrefix == old(globalSavePrefix) && pauseDurationMs == old(pauseDurationMs)
      ensures laterGlobals == old(laterGlobals)
    {
      var marker := FindMarker(pageText);
      if marker.None? {
        outbox := outbox + [SearchResults(false, None, None, "", None, None, None)];
        return;
      }
      SearchFound(marker.value, resultTitleTexts, observe, aborted);
    }

    /**
     * The first injection's handling of a page with results marker `m`: clean the
     * search-result titles, scroll the conversation list for them, check that every one
     * was seen there, start the automation over with them, and report.
     */
    method SearchFound(m: Marker, resultTitleTexts: seq<string>, observe: nat -> ScrollObservation, aborted: nat -> bool)
      requires forall i :: 0 <= i < |m.digits| ==> IsDigit(m.digits[i])
      modifies this
      ensures var titles := Normalized(resultTitleTexts);
        var run := ScrollRun(titles, observe, aborted);
        && Valid()
        && titlesToProcess == titles && collectedTranscripts == [] && currentIndex == 0
        && isSearchAborted == run.wasAborted
        && outbox == old(outbox) + AbortNotice(run) +
          [SearchResults(true, Some(m.matched), Some(NumResults(m)), SearchString(m),
            Some(titles), Some(run.titles), Some(titles != [] && AllIn(titles, run.titles)))]
      ensures globalSavePrefix == old(globalSavePrefix) && pauseDurationMs == old(pauseDurationMs)
      ensures laterGlobals == old(laterGlobals)
    {
      var searchString := SearchString(m);
      var titlesFromSearchResults := CollectTitles(resultTitleTexts);
      var conversationTitlesFromList := Scroll(titlesFromSearchResults, observe, aborted);
      var allTitlesMatchedInConversationList := false;
      if |titlesFromSearchResults| > 0 {
        allTitlesMatchedInConversationList := AllIn(titlesFromSearchResults, conversationTitlesFromList);
      }
      ResetAutomation(titlesFromSearchResults);
      outbox := outbox + [SearchResults(true, Some(m.matched), Some(NumResults(m)), searchString,
        Some(titlesFromSearchResults), Some(conversationTitlesFromList), Some(allTitlesMatchedInConversationList))];
    }

    /**
     * The `searchPageContent` handler of a later injection: it lowers the abort global of
     * its own, scrolls with the first injection's `scrollConversationList` whether or not a
     * marker was found (with no titles when none was), and reports every title matched
     * even when there are none.
     */
    method SearchPageContentReinjected(pageText: string, resultTitleTexts: seq<string>,
                                       observe: nat -> ScrollObservation, aborted: nat -> bool)
      modifies this`isSearchAborted, this`outbox, this`laterGlobals
      ensures var marker := FindMarker(pageText);
        var titles := if marker.Some? then Normalized(resultTitleTexts) else [];
        var run := ScrollRun(titles, observe, aborted);
        && isSearchAborted == run.wasAborted
        && laterGlobals == old(laterGlobals).(isSearchAborted := Some(false), titlesToProcess := Some(titles),
                                              collectedTranscripts := Some([]), currentIndex := Some(0))
        && outbox == old(outbox) + AbortNotice(run) +
          [SearchResults(marker.Some?, None, None, if marker.Some? then SearchString(marker.value) else "",
            Some(titles), Some(run.titles), Some(AllIn(titles, run.titles)))]
    {
      laterGlobals := laterGlobals.(isSearchAborted := Some(false));
      var marker := FindMarker(pageText);
      var titlesFromSearchResults: seq<string> := [];
      var searchString := "";
      if marker.Some? {
        searchString := SearchString(marker.value);
        titlesFromSearchResults := CollectTitles(resultTitleTexts);
      }
      RescanAndReport(marker.Some?, searchString, titlesFromSearchResults, observe, aborted);
    }

    /**
     * The rest of a later injection's `searchPageContent`: scroll the conversation list for
     * `titles`, check that every one was seen there, assign the titles, an empty transcript
     * list and index 0 to new globals, and report. The first injection's state, which
     * processing reads, keeps its titles and transcripts.
     */
    method RescanAndReport(found: bool, searchString: string, titles: seq<string>,
                           observe: nat -> ScrollObservation, aborted: nat -> bool)
      modifies this`isSearchAborted, this`outbox, this`laterGlobals
      ensures var run := ScrollRun(titles, observe, aborted);
        && isSearchAborted == run.wasAborted
        && laterGlobals == old(laterGlobals).(titlesToProcess := Some(titles), collectedTranscripts := Some([]),
                                              currentIndex := Some(0))
        && outbox == old(outbox) + AbortNotice(run) +
          [SearchResults(found, None, None, searchString, Some(titles), Some(run.titles), Some(AllIn(titles, run.titles)))]
    {
      var conversationTitlesFromList := Scroll(titles, observe, aborted);
      var allTitlesMatched := AllIn(titles, conversationTitlesFromList);
      laterGlobals := laterGlobals.(titlesToProcess := Some(titles), collectedTranscripts := Some([]), currentIndex := Some(0));
      outbox := outbox + [SearchResults(found, None, None, searchString,
        Some(titles), Some(conversationTitlesFromList), Some(allTitlesMatched))];
    }

    /**
     * `scrollConversationList` run from a handler: it clears the abort flag first, leaves
     * the flag as it last read it, and sends `searchAborted` when it returns early.
     */
    method Scroll(required: seq<string>, observe: nat -> ScrollObservation, aborted: nat -> bool)
      returns (titles: seq<string>)
      modifies this`isSearchAborted, this`outbox
      ensures titles == ScrollRun(required, observe, aborted).titles
      ensures isSearchAborted == ScrollRun(required, observe, aborted).wasAborted
      ensures outbox == old(outbox) + AbortNotice(ScrollRun(required, observe, aborted))
    {
      isSearchAborted := false;
      var result := ScrollConversationList(required, observe, aborted);
      titles := result.titles;
      isSearchAborted := result.wasAborted;
      if isSearchAborted {
        outbox := outbox + [SearchAborted];
      }
    }
  }
}
