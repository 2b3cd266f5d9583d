/**
 * Reading the answer out of a `model-response` element: `extractActualResponse`
 * with its "Show thinking" line filter, and the readiness poll `waitForResponseContent`.
 *
 * An element is given by the texts the script reads from it: the `message-content`
 * child (its text and the texts of its `p`, `div` and `span` descendants in document
 * order), the `model-thoughts` child's text, and the element's own text.
 */
module ResponseExtraction {
  import opened Wrappers
  import opened JsString
  import opened Placeholder

  datatype MessageContent = MessageContent(text: string, childTexts: seq<string>)

  datatype ResponseNode = ResponseNode(
    messageContent: Option<MessageContent>,
    thoughts: Option<string>,
    text: string)

  const HiddenResponse := "[" + HiddenResponseText + "]"
  const HiddenResponseText := "Response hidden behind \"Show thinking\" - could not extract actual content"

  /** The notice starts and ends with a bracket, so it needs no trimming. */
  lemma HiddenResponseTrimmed()
    ensures IsTrimmed(HiddenResponse)
  {
    assert HiddenResponse[0] == '[';
    assert HiddenResponse[|HiddenResponse| - 1] == ']';
  }

  /** `text.toLowerCase().includes('show thinking')` */
  predicate MentionsShowThinking(text: string) {
    Contains(Lower(text), ShowThinking)
  }

  /**
   * The lines the filter keeps from `lines` once `afterMarker` says whether a marker
   * line has been passed: each line is trimmed, a line mentioning "show thinking" is
   * dropped and switches keeping on, other non-empty lines are kept once it is on.
   */
  function KeptLines(lines: seq<string>, afterMarker: bool): (r: seq<string>)
    ensures |r| <= |lines|
    decreases |lines|
  {
    if lines == [] then []
    else
      var line := Trim(lines[0]);
      if MentionsShowThinking(line) then KeptLines(lines[1..], true)
      else if afterMarker && line != "" then [line] + KeptLines(lines[1..], afterMarker)
      else KeptLines(lines[1..], afterMarker)
  }

  /** Every kept line is non-empty, trimmed and free of the marker. */
  lemma {:induction false} KeptLinesClean(lines: seq<string>, afterMarker: bool)
    ensures forall i :: 0 <= i < |KeptLines(lines, afterMarker)| ==>
      var l := KeptLines(lines, afterMarker)[i];
      l != "" && IsTrimmed(l) && !MentionsShowThinking(l)
    decreases |lines|
  {
    if lines != [] {
      KeptLinesClean(lines[1..], true);
      KeptLinesClean(lines[1..], afterMarker);
    }
  }

  /** `sub` is `full` with some elements left out, the rest in their order. */
  predicate IsSubsequence(sub: seq<string>, full: seq<string>)
    decreases |full|
  {
    if sub == [] then true
    else if full == [] then false
    else (sub[0] == full[0] && IsSubsequence(sub[1..], full[1..])) || IsSubsequence(sub, full[1..])
  }

  function TrimAll(lines: seq<string>): (r: seq<string>)
    ensures |r| == |lines|
    ensures forall i :: 0 <= i < |lines| ==> r[i] == Trim(lines[i])
  {
    if lines == [] then [] else [Trim(lines[0])] + TrimAll(lines[1..])
  }

  /** The kept lines are trimmed input lines in input order. */
  lemma {:induction false} KeptLinesInOrder(lines: seq<string>, afterMarker: bool)
    ensures IsSubsequence(KeptLines(lines, afterMarker), TrimAll(lines))
    decreases |lines|
  {
    if lines != [] {
      var kept := KeptLines(lines, afterMarker);
      var full := TrimAll(lines);
      assert full[1..] == TrimAll(lines[1..]);
      var line := Trim(lines[0]);
      if MentionsShowThinking(line) {
        KeptLinesInOrder(lines[1..], true);
        SubsequenceOfTail(kept, full);
      } else if afterMarker && line != "" {
        KeptLinesInOrder(lines[1..], afterMarker);
        assert kept[1..] == KeptLines(lines[1..], afterMarker);
      } else {
        KeptLinesInOrder(lines[1..], afterMarker);
        SubsequenceOfTail(kept, full);
      }
    }
  }

  lemma SubsequenceOfTail(sub: seq<string>, full: seq<string>)
    requires full != [] && IsSubsequence(sub, full[1..])
    ensures IsSubsequence(sub, full)
  {
  }

  /** Before the first marker line nothing is kept: the result is what follows that line, with keeping on. */
  lemma {:induction false} NothingBeforeFirstMarker(lines: seq<string>, m: nat)
    requires m < |lines| && MentionsShowThinking(Trim(lines[m]))
    requires forall j :: 0 <= j < m ==> !MentionsShowThinking(Trim(lines[j]))
    ensures KeptLines(lines, false) == KeptLines(lines[m + 1..], true)
    decreases m
  {
    if m > 0 {
      assert lines[1..][m - 1] == lines[m];
      assert lines[1..][m..] == lines[m + 1..];
      NothingBeforeFirstMarker(lines[1..], m - 1);
    }
  }

  /** Without a marker line nothing is kept at all. */
  lemma {:induction false} NoMarkerKeepsNothing(lines: seq<string>)
    requires forall j :: 0 <= j < |lines| ==> !MentionsShowThinking(Trim(lines[j]))
    ensures KeptLines(lines, false) == []
    decreases |lines|
  {
    if lines != [] {
      NoMarkerKeepsNothing(lines[1..]);
    }
  }

  /** Once keeping is on a later marker does not reset it: the kept lines of two blocks are concatenated. */
  lemma {:induction false} KeptLinesAppend(a: seq<string>, b: seq<string>)
    ensures KeptLines(a + b, true) == KeptLines(a, true) + KeptLines(b, true)
    decreases |a|
  {
    if a == [] {
      assert a + b == b;
    } else {
      assert (a + b)[0] == a[0];
      assert (a + b)[1..] == a[1..] + b;
      KeptLinesAppend(a[1..], b);
    }
  }

  /** The filter loop over `lines`, as the script runs it. */
  method FilterLinesAfterMarker(lines: seq<string>) returns (actualLines: seq<string>)
    ensures actualLines == KeptLines(lines, false)
    ensures forall i :: 0 <= i < |actualLines| ==>
      actualLines[i] != "" && IsTrimmed(actualLines[i]) && !MentionsShowThinking(actualLines[i])
  {
    actualLines := [];
    var foundActualContent := false;
    var i := 0;
    while i < |lines|
      invariant 0 <= i <= |lines|
      invariant actualLines + KeptLines(lines[i..], foundActualContent) == KeptLines(lines, false)
    {
      assert lines[i..][0] == lines[i];
      assert lines[i..][1..] == lines[i + 1..];
      var trimmedLine := Trim(lines[i]);
      if MentionsShowThinking(trimmedLine) {
        foundActualContent := true;
      } else if foundActualContent && JsLength(trimmedLine) > 0 {
        actualLines := actualLines + [trimmedLine];
      }
      i := i + 1;
    }
    assert lines[i..] == [];
    KeptLinesClean(lines, false);
  }

  /** The result of the line filter on a text: the kept lines joined by newlines and trimmed, or nothing if none is kept. */
  function LinesAfterShowThinking(text: string): Option<string> {
    var kept := KeptLines(Split(text, '\n'), false);
    if kept == [] then None else Some(Trim(Join(kept, '\n')))
  }

  /** Joining non-empty trimmed lines gives a non-empty trimmed text. */
  lemma {:induction false} JoinTrimmed(lines: seq<string>)
    requires lines != []
    requires forall i :: 0 <= i < |lines| ==> lines[i] != "" && IsTrimmed(lines[i])
    ensures Join(lines, '\n') != "" && IsTrimmed(Join(lines, '\n'))
  {
    if |lines| > 1 {
      JoinTrimmed(lines[1..]);
      var rest := Join(lines[1..], '\n');
      var j := lines[0] + ['\n'] + rest;
      assert j[0] == lines[0][0];
      assert j[|j| - 1] == rest[|rest| - 1];
    }
  }

  /** The text the filter produces never mentions "show thinking", is non-empty and needs no further trimming. */
  lemma LinesAfterShowThinkingClean(text: string)
    ensures match LinesAfterShowThinking(text)
      case Some(r) => r != "" && IsTrimmed(r) && !MentionsShowThinking(r) &&
        r == Join(KeptLines(Split(text, '\n'), false), '\n')
      case None => KeptLines(Split(text, '\n'), false) == []
  {
    var kept := KeptLines(Split(text, '\n'), false);
    if kept != [] {
      KeptLinesClean(Split(text, '\n'), false);
      JoinTrimmed(kept);
      TrimOfTrimmed(Join(kept, '\n'));
      assert '\n' !in ShowThinking;
      NotContainsJoin(kept, '\n', ShowThinking);
    }
  }

  /**
   * A marker line followed by one answer line gives the answer line: for instance
   * `Show thinking` and then `Here is your answer: 42` gives `Here is your answer: 42`.
   */
  lemma MarkerThenAnswer(marker: string, answer: string)
    requires '\n' !in marker && '\n' !in answer
    requires MentionsShowThinking(Trim(marker))
    requires answer != "" && IsTrimmed(answer) && !MentionsShowThinking(answer)
    ensures LinesAfterShowThinking(marker + "\n" + answer) == Some(answer)
  {
    SplitAtFirst(marker, '\n', answer);
    SplitNoSeparator(answer, '\n');
    TrimOfTrimmed(answer);
    var lines := [marker, answer];
    assert Split(marker + "\n" + answer, '\n') == lines;
    assert lines[0] == marker && lines[1..] == [answer];
    assert KeptLines(lines, false) == KeptLines([answer], true);
    assert [answer][0] == answer && [answer][1..] == [];
    assert KeptLines([answer], true) == [answer] + KeptLines([], true);
  }

  /** The line filter as the script runs it: split on newlines, filter, join and trim. */
  method FilterAfterShowThinking(text: string) returns (r: Option<string>)
    ensures r == LinesAfterShowThinking(text)
  {
    var lines := Split(text, '\n');
    var actualLines := FilterLinesAfterMarker(lines);
    if |actualLines| > 0 {
      r := Some(Trim(Join(actualLines, '\n')));
    } else {
      r := None;
    }
  }

  /** A child text the first strategy accepts: more than 20 code units once trimmed, no marker, not a placeholder. */
  predicate IsSubstantialChild(text: string) {
    text != "" && JsLength(text) > 20 && !MentionsShowThinking(text) && !IsPlaceholderResponse(text)
  }

  /** A child element the first strategy accepts, judged on its trimmed text. */
  predicate IsSubstantialElement(child: string) {
    IsSubstantialChild(Trim(child))
  }

  /** The first index at or after `i` whose element satisfies `p`, if any. */
  function FirstIndexFrom(xs: seq<string>, p: string -> bool, i: nat): (r: Option<nat>)
    requires i <= |xs|
    ensures r.Some? ==> i <= r.value < |xs| && p(xs[r.value])
    ensures forall j :: i <= j < |xs| && (r.None? || j < r.value) ==> !p(xs[j])
    decreases |xs| - i
  {
    if i == |xs| then None
    else if p(xs[i]) then Some(i)
    else FirstIndexFrom(xs, p, i + 1)
  }

  /**
   * The trimmed text of the first substantial child, if any: the result is some child's
   * trimmed text that qualifies while no earlier child's does, and there is a result
   * exactly when some child qualifies.
   */
  function FirstSubstantialChild(children: seq<string>): (r: Option<string>)
    ensures r.Some? ==> IsSubstantialChild(r.value)
    ensures r.Some? ==> exists i :: 0 <= i < |children| && r.value == Trim(children[i]) &&
                                    forall j :: 0 <= j < i ==> !IsSubstantialChild(Trim(children[j]))
    ensures r.Some? <==> exists i :: 0 <= i < |children| && IsSubstantialChild(Trim(children[i]))
  {
    match FirstIndexFrom(children, IsSubstantialElement, 0)
    case Some(k) => Some(Trim(children[k]))
    case None => None
  }

  /** The `for ... of` over the child elements that stops at the first substantial one. */
  method FindSubstantialChild(children: seq<string>) returns (found: Option<string>)
    ensures found == FirstSubstantialChild(children)
  {
    found := None;
    var i := 0;
    while i < |children|
      invariant 0 <= i <= |children|
      invariant FirstIndexFrom(children, IsSubstantialElement, 0) == FirstIndexFrom(children, IsSubstantialElement, i)
    {
      var elementText := Trim(children[i]);
      if IsSubstantialChild(elementText) {
        found := Some(elementText);
        return;
      }
      i := i + 1;
    }
  }

  /** Strategy 1, on a `message-content` child. */
  function MessageContentAnswer(mc: MessageContent): (r: string)
    ensures IsTrimmed(r)
    ensures r == HiddenResponse || !MentionsShowThinking(r)
  {
    var responseText := Trim(mc.text);
    LinesAfterShowThinkingClean(responseText);
    HiddenResponseTrimmed();
    if !MentionsShowThinking(responseText) then responseText
    else
      match LinesAfterShowThinking(responseText)
      case Some(joined) => joined
      case None =>
        var fallback := match FirstSubstantialChild(mc.childTexts)
          case Some(child) => child
          case None => responseText;
        if MentionsShowThinking(fallback) then HiddenResponse else fallback
  }

  /** Strategy 2's candidate: the element's text with the thoughts' text cut off its front when it is there. */
  function AfterThoughts(text: string, thoughts: string): string {
    var allText := Trim(text);
    var thoughtsText := Trim(thoughts);
    if StartsWith(allText, thoughtsText) then Trim(allText[|thoughtsText|..]) else allText
  }

  /** Strategy 3, on the element's whole text. */
  function WholeTextAnswer(text: string): (r: string)
    ensures IsTrimmed(r)
    ensures r == HiddenResponse || !MentionsShowThinking(r)
  {
    var allText := Trim(text);
    LinesAfterShowThinkingClean(allText);
    HiddenResponseTrimmed();
    if !MentionsShowThinking(allText) then allText
    else
      match LinesAfterShowThinking(allText)
      case Some(joined) => joined
      case None => HiddenResponse
  }

  /** `extractActualResponse`: the three strategies in order; a missing element gives the empty text. */
  function ActualResponse(node: Option<ResponseNode>): (r: string)
    ensures node.None? ==> r == ""
    ensures IsTrimmed(r)
  {
    match node
    case None => ""
    case Some(n) =>
      if n.messageContent.Some? then MessageContentAnswer(n.messageContent.value)
      else if n.thoughts.Some? && AfterThoughts(n.text, n.thoughts.value) != "" &&
              !IsPlaceholderResponse(AfterThoughts(n.text, n.thoughts.value))
      then AfterThoughts(n.text, n.thoughts.value)
      else WholeTextAnswer(n.text)
  }

  /**
   * Strategies 1 and 3 never hand back a text that mentions "show thinking": they give
   * the filtered lines, a child that does not mention it, or the hidden-response notice.
   */
  lemma ActualResponseHidesThinking(node: Option<ResponseNode>)
    requires node.Some? ==> node.value.messageContent.Some? || node.value.thoughts.None?
    ensures ActualResponse(node) == HiddenResponse || !MentionsShowThinking(ActualResponse(node))
  {
    if node.Some? {
      var n := node.value;
      if n.messageContent.Some? {
        LinesAfterShowThinkingClean(Trim(n.messageContent.value.text));
      } else {
        LinesAfterShowThinkingClean(Trim(n.text));
      }
    }
  }

  /** Strategy 2 only answers with a non-empty text that is not a placeholder; otherwise strategy 3 decides. */
  lemma ThoughtsAnswerIsReal(n: ResponseNode)
    requires n.messageContent.None?
    ensures ActualResponse(Some(n)) == WholeTextAnswer(n.text) ||
      (n.thoughts.Some? && ActualResponse(Some(n)) == AfterThoughts(n.text, n.thoughts.value) &&
       ActualResponse(Some(n)) != "" && !IsPlaceholderResponse(ActualResponse(Some(n))))
  {
  }

  /** A text with no marker in it is answered as it stands, trimmed, by strategies 1 and 3. */
  lemma PlainTextUnchanged(node: ResponseNode)
    requires node.messageContent.Some? ==> !MentionsShowThinking(Trim(node.messageContent.value.text))
    requires node.messageContent.None? ==> node.thoughts.None? && !MentionsShowThinking(Trim(node.text))
    ensures ActualResponse(Some(node)) ==
      (if node.messageContent.Some? then Trim(node.messageContent.value.text) else Trim(node.text))
  {
  }

  /** Strategy 1 as the script runs it. */
  method AnswerFromMessageContent(mc: MessageContent) returns (responseText: string)
    ensures responseText == MessageContentAnswer(mc)
  {
    responseText := Trim(mc.text);
    if MentionsShowThinking(responseText) {
      var joined := FilterAfterShowThinking(responseText);
      if joined.Some? {
        responseText := joined.value;
      } else {
        var child := FindSubstantialChild(mc.childTexts);
        if child.Some? {
          responseText := child.value;
        }
        if MentionsShowThinking(responseText) {
          responseText := HiddenResponse;
        }
      }
    }
  }

  /** Strategy 3 as the script runs it. */
  method AnswerFromWholeText(text: string) returns (allText: string)
    ensures allText == WholeTextAnswer(text)
  {
    allText := Trim(text);
    if MentionsShowThinking(allText) {
      var joined := FilterAfterShowThinking(allText);
      if joined.Some? {
        allText := joined.value;
      } else {
        allText := HiddenResponse;
      }
    }
  }

  /** `extractActualResponse`: the strategies tried in order. */
  method ExtractActualResponse(node: Option<ResponseNode>) returns (r: string)
    ensures r == ActualResponse(node)
    ensures node.None? ==> r == ""
    ensures node.Some? && (node.value.messageContent.Some? || node.value.thoughts.None?) ==>
      r == HiddenResponse || !MentionsShowThinking(r)
  {
    if node.None? {
      return "";
    }
    if node.value.messageContent.Some? || node.value.thoughts.None? {
      ActualResponseHidesThinking(node);
    }
    var n := node.value;
    if n.messageContent.Some? {
      r := AnswerFromMessageContent(n.messageContent.value);
      return;
    }
    if n.thoughts.Some? {
      var allText := Trim(n.text);
      var thoughtsText := Trim(n.thoughts.value);
      if StartsWith(allText, thoughtsText) {
        allText := Trim(allText[|thoughtsText|..]);
      }
      assert allText == AfterThoughts(n.text, n.thoughts.value);
      if allText != "" && !IsPlaceholderResponse(allText) {
        return allText;
      }
    }
    r := AnswerFromWholeText(n.text);
  }

  /** The text a readiness poll reads: the `message-content` text when it has any, else the element's text. */
  function PollText(n: ResponseNode): (r: string)
    ensures IsTrimmed(r)
    ensures r == "" ==> Trim(n.text) == ""
  {
    if n.messageContent.Some? && Trim(n.messageContent.value.text) != "" then Trim(n.messageContent.value.text)
    else Trim(n.text)
  }

  /** A polled element is ready when the text the poll reads from it is not a placeholder. */
  predicate IsReady(n: ResponseNode) {
    !IsPlaceholderResponse(PollText(n))
  }

  /** `ok` holds for each of the first `n` elements. */
  predicate AllOfFirst(snapshot: seq<ResponseNode>, n: nat, ok: ResponseNode -> bool)
    requires n <= |snapshot|
  {
    n == 0 || (AllOfFirst(snapshot, n - 1, ok) && ok(snapshot[n - 1]))
  }

  /** One poll succeeds when there is at least one element and every element is ready. */
  predicate SnapshotReady(snapshot: seq<ResponseNode>) {
    |snapshot| > 0 && AllOfFirst(snapshot, |snapshot|, IsReady)
  }

  /** `AllOfFirst` is the bounded universal it stands for. */
  lemma {:induction false} AllOfFirstMeans(snapshot: seq<ResponseNode>, n: nat, ok: ResponseNode -> bool)
    requires n <= |snapshot|
    ensures AllOfFirst(snapshot, n, ok) <==> forall i :: 0 <= i < n ==> ok(snapshot[i])
  {
    if n > 0 {
      AllOfFirstMeans(snapshot, n - 1, ok);
    }
  }

  /** One element failing `ok` spoils every longer prefix. */
  lemma {:induction false} FailureSpoilsPrefix(snapshot: seq<ResponseNode>, n: nat, i: nat, ok: ResponseNode -> bool)
    requires i < n <= |snapshot| && !ok(snapshot[i])
    ensures !AllOfFirst(snapshot, n, ok)
  {
    if i < n - 1 {
      FailureSpoilsPrefix(snapshot, n - 1, i, ok);
    }
  }

  /** A poll is ready exactly when it has elements and none of them shows a placeholder. */
  lemma SnapshotReadyMeans(snapshot: seq<ResponseNode>)
    ensures SnapshotReady(snapshot) <==>
      |snapshot| > 0 && forall i :: 0 <= i < |snapshot| ==> !IsPlaceholderResponse(PollText(snapshot[i]))
  {
    AllOfFirstMeans(snapshot, |snapshot|, IsReady);
    assert forall i :: 0 <= i < |snapshot| ==> (IsReady(snapshot[i]) <==> !IsPlaceholderResponse(PollText(snapshot[i])));
  }

  /** One poll: the `for` loop over the elements that stops at the first placeholder. */
  method CheckResponses(responseElements: seq<ResponseNode>) returns (hasValidResponses: bool)
    ensures hasValidResponses <==> AllOfFirst(responseElements, |responseElements|, IsReady)
  {
    hasValidResponses := true;
    var i := 0;
    while i < |responseElements|
      invariant 0 <= i <= |responseElements|
      invariant forall j :: 0 <= j < i ==> IsReady(responseElements[j])
    {
      var responseText := PollText(responseElements[i]);
      if IsPlaceholderResponse(responseText) {
        hasValidResponses := false;
        FailureSpoilsPrefix(responseElements, |responseElements|, i, IsReady);
        return;
      }
      i := i + 1;
    }
    AllOfFirstMeans(responseElements, |responseElements|, IsReady);
  }

  /**
   * `waitForResponseContent`: `polls` are the element states seen at the successive
   * polls that start before the time limit. The result is true exactly when one of
   * them is ready.
   */
  method WaitForResponseContent(polls: seq<seq<ResponseNode>>) returns (ready: bool)
    ensures ready <==> exists k :: 0 <= k < |polls| && SnapshotReady(polls[k])
  {
    var k := 0;
    while k < |polls|
      invariant 0 <= k <= |polls|
      invariant forall j :: 0 <= j < k ==> !SnapshotReady(polls[j])
    {
      var responseElements := polls[k];
      var hasValidResponses := CheckResponses(responseElements);
      if hasValidResponses && |responseElements| > 0 {
        return true;
      }
      k := k + 1;
    }
    return false;
  }
}
