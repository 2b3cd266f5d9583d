/**
 * `extractTranscript`: the open conversation rendered as numbered prompt/response
 * blocks, pairing the i-th prompt element with the i-th response element.
 */
module TranscriptExtraction {
  import opened Wrappers
  import opened JsString
  import opened Placeholder
  import opened ResponseExtraction

  /**
   * A `user-query` element: the text of its `.user-query-bubble-with-background
   * .query-text p` descendant when it has one, and its whole text.
   */
  datatype PromptNode = PromptNode(bubbleText: Option<string>, text: string)

  /**
   * The page: the `user-query` and `model-response` elements, and the texts and
   * elements the fallback selector lists match (only looked at when the first two
   * lists are both empty).
   */
  datatype ConversationPage = ConversationPage(
    prompts: seq<PromptNode>,
    responses: seq<ResponseNode>,
    altPrompts: seq<string>,
    altResponses: seq<ResponseNode>)

  const PromptNotFound := "[Prompt not found]"
  const ResponseNotFound := "[Response not found]"
  const ResponseLoading := "[Response still loading - contains placeholder text]"

  function Max(a: nat, b: nat): nat {
    if a < b then b else a
  }

  /** A prompt element's text: the bubble paragraph if it has text, else the whole element, else the notice. */
  function PromptText(p: PromptNode): string {
    if p.bubbleText.Some? && Trim(p.bubbleText.value) != "" then Trim(p.bubbleText.value)
    else if Trim(p.text) != "" then Trim(p.text)
    else PromptNotFound
  }

  /** A fallback prompt element's text, or the notice when it has none. */
  function AltPromptText(text: string): string {
    if Trim(text) != "" then Trim(text) else PromptNotFound
  }

  /** What the transcript shows for a response element, given the text extracted from it. */
  function ResponseSlot(extracted: string): string {
    if extracted != "" && !IsPlaceholderResponse(extracted) then extracted
    else if extracted != "" then ResponseLoading
    else ResponseNotFound
  }

  function PromptHeader(n: nat): string {
    "--- PROMPT " + NatToString(n) + " ---\n"
  }

  function ResponseHeader(n: nat): string {
    "--- RESPONSE " + NatToString(n) + " ---\n"
  }

  /** Pair number `n` (counted from 1) as the script appends it. */
  function Block(n: nat, prompt: string, response: string): string {
    PromptHeader(n) + prompt + "\n\n" + ResponseHeader(n) + response + "\n\n"
  }

  /** The concatenation of `parts` in order. */
  function Concat(parts: seq<string>): string {
    if parts == [] then "" else Concat(parts[..|parts| - 1]) + parts[|parts| - 1]
  }

  /**
   * The blocks of a transcript: one per index up to the longer list, each numbered from
   * 1, with the notice in place of a prompt or response the shorter list lacks.
   */
  function PairBlocks(prompts: seq<string>, responses: seq<string>): (blocks: seq<string>)
    ensures |blocks| == Max(|prompts|, |responses|)
  {
    seq(Max(|prompts|, |responses|), i requires 0 <= i =>
      Block(i + 1,
        if i < |prompts| then prompts[i] else PromptNotFound,
        if i < |responses| then responses[i] else ResponseNotFound))
  }

  function PromptTexts(prompts: seq<PromptNode>): (r: seq<string>)
    ensures |r| == |prompts|
  {
    seq(|prompts|, i requires 0 <= i < |prompts| => PromptText(prompts[i]))
  }

  function AltPromptTexts(texts: seq<string>): (r: seq<string>)
    ensures |r| == |texts|
  {
    seq(|texts|, i requires 0 <= i < |texts| => AltPromptText(texts[i]))
  }

  function ResponseSlots(responses: seq<ResponseNode>): (r: seq<string>)
    ensures |r| == |responses|
  {
    seq(|responses|, i requires 0 <= i < |responses| => ResponseSlot(ActualResponse(Some(responses[i]))))
  }

  /** The transcript of a page: the main element lists if either is non-empty, else the fallback lists. */
  function Transcript(page: ConversationPage): (r: string)
    ensures |page.prompts| > 0 || |page.responses| > 0 ==> r != ""
  {
    if |page.prompts| > 0 || |page.responses| > 0 then
      PairBlocksNonEmpty(PromptTexts(page.prompts), ResponseSlots(page.responses));
      Concat(PairBlocks(PromptTexts(page.prompts), ResponseSlots(page.responses)))
    else if |page.altPrompts| > 0 || |page.altResponses| > 0 then
      Concat(PairBlocks(AltPromptTexts(page.altPrompts), ResponseSlots(page.altResponses)))
    else ""
  }

  lemma {:induction false} ConcatNonEmpty(parts: seq<string>)
    requires parts != [] && parts[|parts| - 1] != ""
    ensures Concat(parts) != ""
  {
  }

  /** A transcript with at least one pair is not empty: every block opens with its header. */
  lemma PairBlocksNonEmpty(prompts: seq<string>, responses: seq<string>)
    requires |prompts| > 0 || |responses| > 0
    ensures Concat(PairBlocks(prompts, responses)) != ""
  {
    var blocks := PairBlocks(prompts, responses);
    assert blocks[|blocks| - 1][0] == '-';
    ConcatNonEmpty(blocks);
  }

  /** The transcript is empty exactly when the page has none of the four kinds of element. */
  lemma TranscriptEmptyIffNoElements(page: ConversationPage)
    ensures Transcript(page) == "" <==>
      page.prompts == [] && page.responses == [] && page.altPrompts == [] && page.altResponses == []
  {
    if |page.prompts| > 0 || |page.responses| > 0 {
      PairBlocksNonEmpty(PromptTexts(page.prompts), ResponseSlots(page.responses));
    } else if |page.altPrompts| > 0 || |page.altResponses| > 0 {
      PairBlocksNonEmpty(AltPromptTexts(page.altPrompts), ResponseSlots(page.altResponses));
    }
  }

  /** The fallback lists only matter when both main lists are empty. */
  lemma MainListsWin(page: ConversationPage, altPrompts: seq<string>, altResponses: seq<ResponseNode>)
    requires |page.prompts| > 0 || |page.responses| > 0
    ensures Transcript(page) == Transcript(page.(altPrompts := altPrompts, altResponses := altResponses))
  {
  }

  /**
   * Block `i` of a transcript opens with the header of pair `i + 1`, whose number reads
   * back as `i + 1`.
   */
  lemma BlocksNumbered(prompts: seq<string>, responses: seq<string>, i: nat)
    requires i < Max(|prompts|, |responses|)
    ensures StartsWith(PairBlocks(prompts, responses)[i], PromptHeader(i + 1))
    ensures DecimalValue(NatToString(i + 1)) == i + 1
  {
    var b := PairBlocks(prompts, responses)[i];
    assert b[..|PromptHeader(i + 1)|] == PromptHeader(i + 1);
    DecimalRoundTrip(i + 1);
  }

  /** Every response slot of a transcript is a real answer or one of the two notices. */
  lemma ResponseSlotsSettled(responses: seq<ResponseNode>, i: nat)
    requires i < |responses|
    ensures var slot := ResponseSlots(responses)[i];
      (slot != "" && !IsPlaceholderResponse(slot) && slot == ActualResponse(Some(responses[i]))) ||
      slot == ResponseLoading || slot == ResponseNotFound
  {
  }

  /** The response half of one pair: extract, then keep the text, or show a notice. */
  method RenderResponse(node: ResponseNode) returns (responseText: string)
    ensures responseText == ResponseSlot(ActualResponse(Some(node)))
  {
    responseText := ResponseNotFound;
    var extractedText := ExtractActualResponse(Some(node));
    if extractedText != "" && !IsPlaceholderResponse(extractedText) {
      responseText := extractedText;
    } else if extractedText != "" {
      responseText := ResponseLoading;
    }
  }

  /** The prompt half of one pair from the main list. */
  method RenderPrompt(p: PromptNode) returns (promptText: string)
    ensures promptText == PromptText(p)
  {
    promptText := PromptNotFound;
    var found := false;
    if p.bubbleText.Some? && Trim(p.bubbleText.value) != "" {
      promptText := Trim(p.bubbleText.value);
      found := true;
    }
    if !found {
      var allText := Trim(p.text);
      if allText != "" {
        promptText := allText;
      }
    }
  }

  /** Appending a pair's two halves one after the other appends its block. */
  lemma AppendBlock(parts: seq<string>, i: nat, prompt: string, response: string)
    requires i < |parts| && parts[i] == Block(i + 1, prompt, response)
    ensures Concat(parts[..i + 1]) ==
      Concat(parts[..i]) + PromptHeader(i + 1) + prompt + "\n\n" + ResponseHeader(i + 1) + response + "\n\n"
  {
    assert parts[..i + 1][..i] == parts[..i];
  }

  /** The loop over the fallback lists. */
  method AltTranscript(page: ConversationPage) returns (transcript: string)
    ensures transcript == Concat(PairBlocks(AltPromptTexts(page.altPrompts), ResponseSlots(page.altResponses)))
  {
    ghost var prompts := AltPromptTexts(page.altPrompts);
    ghost var slots := ResponseSlots(page.altResponses);
    ghost var blocks := PairBlocks(prompts, slots);
    transcript := "";
    var maxAltPairs := Max(|page.altPrompts|, |page.altResponses|);
    for i := 0 to maxAltPairs
      invariant transcript == Concat(blocks[..i])
    {
      var promptText := PromptNotFound;
      if i < |page.altPrompts| {
        var allText := Trim(page.altPrompts[i]);
        if allText != "" {
          promptText := allText;
        }
        assert promptText == prompts[i];
      }
      transcript := transcript + PromptHeader(i + 1) + promptText + "\n\n";
      var responseText := ResponseNotFound;
      if i < |page.altResponses| {
        responseText := RenderResponse(page.altResponses[i]);
        assert responseText == slots[i];
      }
      assert blocks[i] == Block(i + 1, promptText, responseText);
      AppendBlock(blocks, i, promptText, responseText);
      transcript := transcript + ResponseHeader(i + 1) + responseText + "\n\n";
    }
    assert blocks[..maxAltPairs] == blocks;
  }

  /** The loop over the main lists. */
  method MainTranscript(page: ConversationPage) returns (transcript: string)
    ensures transcript == Concat(PairBlocks(PromptTexts(page.prompts), ResponseSlots(page.responses)))
  {
    ghost var prompts := PromptTexts(page.prompts);
    ghost var slots := ResponseSlots(page.responses);
    ghost var blocks := PairBlocks(prompts, slots);
    transcript := "";
    var maxPairs := Max(|page.prompts|, |page.responses|);
    for i := 0 to maxPairs
      invariant transcript == Concat(blocks[..i])
    {
      var promptText := PromptNotFound;
      if i < |page.prompts| {
        promptText := RenderPrompt(page.prompts[i]);
        assert promptText == prompts[i];
      }
      transcript := transcript + PromptHeader(i + 1) + promptText + "\n\n";
      var responseText := ResponseNotFound;
      if i < |page.responses| {
        responseText := RenderResponse(page.responses[i]);
        assert responseText == slots[i];
      }
      assert blocks[i] == Block(i + 1, promptText, responseText);
      AppendBlock(blocks, i, promptText, responseText);
      transcript := transcript + ResponseHeader(i + 1) + responseText + "\n\n";
    }
    assert blocks[..maxPairs] == blocks;
  }

  /** `extractTranscript`: the fallback loop runs only when both main lists are empty; the main loop then adds nothing. */
  method ExtractTranscript(page: ConversationPage) returns (transcript: string)
    ensures transcript == Transcript(page)
    ensures transcript == "" <==>
      page.prompts == [] && page.responses == [] && page.altPrompts == [] && page.altResponses == []
  {
    TranscriptEmptyIffNoElements(page);
    transcript := "";
    var maxPairs := Max(|page.prompts|, |page.responses|);
    if maxPairs == 0 {
      if |page.altPrompts| > 0 || |page.altResponses| > 0 {
        transcript := AltTranscript(page);
      }
      return;
    }
    transcript := MainTranscript(page);
  }
}
