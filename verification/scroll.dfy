/**
 * The bookkeeping of `scrollConversationList`: which titles have been seen, when the
 * loop stops, and at which stall counts the "load more" and "alternative scroll"
 * probes fire. What the page shows at each iteration is an input.
 */
module ListDiscovery {
  import opened Wrappers
  import opened Titles

  const MaxScrollAttempts: nat := 15000
  const TitleStallLimit: nat := 100
  const ItemStallLimit: nat := 200

  /**
   * What iteration `k` of the loop reads from the page: the `.conversation-title` texts
   * captured right after scrolling, the ones re-scanned after the wait, and the number
   * of `[data-test-id="conversation"]` items.
   */
  datatype ScrollObservation = ScrollObservation(
    visibleTitles: seq<string>,
    renderedTitles: seq<string>,
    itemCount: nat)

  datatype StopReason = AllRequiredFound | LastTitleStalled | ItemCountStalled | AttemptLimit | AbortRequested

  /** A probe the loop fires, with the attempt number it fired at. */
  datatype Probe = LoadMore(attempt: nat) | AlternativeScroll(attempt: nat)

  /** The loop's variables between iterations. */
  datatype ScrollState = ScrollState(
    seen: seq<string>,
    lastVisible: Option<string>,
    titleStall: nat,
    previousItemCount: int,
    itemStall: nat,
    probes: seq<Probe>)

  /** `Set.add`, keeping the set as its insertion-ordered list. */
  function AddTitle(seen: seq<string>, title: string): seq<string> {
    if title in seen then seen else seen + [title]
  }

  /** The `forEach` that adds each re-scanned title, normalised, to the cumulative set. */
  function SeeAll(seen: seq<string>, rendered: seq<string>): seq<string>
    decreases |rendered|
  {
    if rendered == [] then seen else SeeAll(AddTitle(seen, NormalizeTitle(rendered[0])), rendered[1..])
  }

  /** The normalised last visible title, or `null` when none is visible. */
  function LastVisible(obs: ScrollObservation): Option<string> {
    if |obs.visibleTitles| > 0 then Some(NormalizeTitle(obs.visibleTitles[|obs.visibleTitles| - 1])) else None
  }

  predicate FiresLoadMore(itemStall: nat) {
    itemStall > 10 && itemStall % 10 == 0
  }

  predicate FiresAlternativeScroll(itemStall: nat) {
    itemStall > 50 && itemStall % 25 == 0
  }

  /** The probes of one iteration, given its item-stall count, in the order they run. */
  function ProbesAt(itemStall: nat, attempt: nat): seq<Probe> {
    (if FiresLoadMore(itemStall) then [LoadMore(attempt)] else []) +
    (if FiresAlternativeScroll(itemStall) then [AlternativeScroll(attempt)] else [])
  }

  const InitialState := ScrollState([], None, 0, -1, 0, [])

  /** The cumulative set after `n` iterations. */
  function SeenAfter(observe: nat -> ScrollObservation, n: nat): seq<string> {
    if n == 0 then [] else SeeAll(SeenAfter(observe, n - 1), observe(n - 1).renderedTitles)
  }

  /** `lastVisibleTitle` after `n` iterations: `null` at first, then the last one read. */
  function VisibleAfter(observe: nat -> ScrollObservation, n: nat): Option<string> {
    if n == 0 then None else LastVisible(observe(n - 1))
  }

  /** `lastVisibleUnchangedCount` after `n` iterations. */
  function TitleStallAfter(observe: nat -> ScrollObservation, n: nat): nat {
    if n == 0 then 0
    else if VisibleAfter(observe, n) == VisibleAfter(observe, n - 1) then TitleStallAfter(observe, n - 1) + 1
    else 0
  }

  /** `previousItemCount` after `n` iterations: -1 at first, then the last count read. */
  function CountAfter(observe: nat -> ScrollObservation, n: nat): int {
    if n == 0 then -1 else observe(n - 1).itemCount
  }

  /** `noNewItemsCount` after `n` iterations. */
  function ItemStallAfter(observe: nat -> ScrollObservation, n: nat): nat {
    if n == 0 then 0
    else if CountAfter(observe, n) == CountAfter(observe, n - 1) then ItemStallAfter(observe, n - 1) + 1
    else 0
  }

  /** The probes fired during the first `n` iterations, in order. */
  function ProbesAfter(observe: nat -> ScrollObservation, n: nat): seq<Probe> {
    if n == 0 then [] else ProbesAfter(observe, n - 1) + ProbesAt(ItemStallAfter(observe, n), n)
  }

  /** The loop's variables after `n` full iterations. */
  function StateAfter(observe: nat -> ScrollObservation, n: nat): ScrollState {
    ScrollState(SeenAfter(observe, n), VisibleAfter(observe, n), TitleStallAfter(observe, n),
      CountAfter(observe, n), ItemStallAfter(observe, n), ProbesAfter(observe, n))
  }

  /** `requiredTitles.every(t => allTitlesSeen.has(t))`, checked from the front. */
  predicate AllSeen(required: seq<string>, seen: seq<string>) {
    required == [] || (required[0] in seen && AllSeen(required[1..], seen))
  }

  lemma {:induction false} AllSeenMeans(required: seq<string>, seen: seq<string>)
    ensures AllSeen(required, seen) <==> forall t :: t in required ==> t in seen
  {
    if required != [] {
      AllSeenMeans(required[1..], seen);
      assert forall t :: t in required ==> t == required[0] || t in required[1..];
    }
  }

  /** Whether iteration `n` ends in one of the three `break`s, checked in the script's order. */
  function BreakAt(required: seq<string>, observe: nat -> ScrollObservation, n: nat): Option<StopReason> {
    if AllSeen(required, SeenAfter(observe, n)) then Some(AllRequiredFound)
    else if TitleStallAfter(observe, n) >= TitleStallLimit then Some(LastTitleStalled)
    else if ItemStallAfter(observe, n) >= ItemStallLimit then Some(ItemCountStalled)
    else None
  }

  /**
   * The abort flag as the script reads it after `k` iterations. The function resets it
   * before the first check, so it reads `false` there.
   */
  predicate AbortFlag(aborted: nat -> bool, k: nat) {
    k > 0 && aborted(k)
  }

  /** Whether the loop is over once `k` iterations are done, and why. */
  function ExitAt(required: seq<string>, observe: nat -> ScrollObservation, aborted: nat -> bool, k: nat): Option<StopReason> {
    if k > 0 && BreakAt(required, observe, k).Some? then BreakAt(required, observe, k)
    else if k >= MaxScrollAttempts then Some(AttemptLimit)
    else if AbortFlag(aborted, k) then Some(AbortRequested)
    else None
  }

  /** No title occurs twice. */
  predicate Distinct(titles: seq<string>) {
    forall i, j :: 0 <= i < j < |titles| ==> titles[i] != titles[j]
  }

  /** Adding re-scanned titles keeps what was there, adds exactly the normalised titles, and adds none twice. */
  lemma {:induction false} SeeAllAdds(seen: seq<string>, rendered: seq<string>)
    ensures seen <= SeeAll(seen, rendered)
    ensures forall t :: t in SeeAll(seen, rendered) <==> t in seen || t in Normalized(rendered)
    ensures Distinct(seen) ==> Distinct(SeeAll(seen, rendered))
    decreases |rendered|
  {
    if rendered != [] {
      var next := AddTitle(seen, NormalizeTitle(rendered[0]));
      SeeAllAdds(next, rendered[1..]);
      assert Normalized(rendered) == [NormalizeTitle(rendered[0])] + Normalized(rendered[1..]);
    }
  }

  /** Every normalised title re-scanned in the first `n` iterations, in scan order, repeats included. */
  function RenderedUpTo(observe: nat -> ScrollObservation, n: nat): seq<string> {
    if n == 0 then [] else RenderedUpTo(observe, n - 1) + Normalized(observe(n - 1).renderedTitles)
  }

  /** The cumulative set holds each title re-scanned so far, once, and nothing else. */
  lemma {:induction false} SeenIsEveryRenderedTitle(observe: nat -> ScrollObservation, n: nat)
    ensures forall t :: t in SeenAfter(observe, n) <==> t in RenderedUpTo(observe, n)
    ensures Distinct(SeenAfter(observe, n))
  {
    if n > 0 {
      SeenIsEveryRenderedTitle(observe, n - 1);
      var prev := SeenAfter(observe, n - 1);
      var raw := observe(n - 1).renderedTitles;
      assert SeenAfter(observe, n) == SeeAll(prev, raw);
      assert RenderedUpTo(observe, n) == RenderedUpTo(observe, n - 1) + Normalized(raw);
      SeeAllAdds(prev, raw);
      forall t
        ensures t in SeenAfter(observe, n) <==> t in RenderedUpTo(observe, n)
      {
      }
    }
  }

  /** The cumulative set only grows: an earlier one is a prefix of every later one. */
  lemma {:induction false} SeenGrows(observe: nat -> ScrollObservation, j: nat, k: nat)
    requires j <= k
    ensures SeenAfter(observe, j) <= SeenAfter(observe, k)
    decreases k
  {
    if j < k {
      SeenGrows(observe, j, k - 1);
      assert SeenAfter(observe, k) == SeeAll(SeenAfter(observe, k - 1), observe(k - 1).renderedTitles);
      SeeAllAdds(SeenAfter(observe, k - 1), observe(k - 1).renderedTitles);
    }
  }

  /**
   * The title stall count is at least `m` exactly when the last visible title (or its
   * absence) has been the same for the last `m` iterations.
   */
  lemma {:induction false} TitleStallIsRun(observe: nat -> ScrollObservation, n: nat, m: nat)
    ensures TitleStallAfter(observe, n) >= m <==>
      m <= n && forall j: nat :: n - m <= j <= n ==> VisibleAfter(observe, j) == VisibleAfter(observe, n)
  {
    if n == 0 || m == 0 {
    } else if VisibleAfter(observe, n) == VisibleAfter(observe, n - 1) {
      TitleStallIsRun(observe, n - 1, m - 1);
    } else {
      assert n - m <= n - 1 <= n;
    }
  }

  /** The item stall count is at least `m` exactly when the item count has been the same for the last `m` iterations. */
  lemma {:induction false} ItemStallIsRun(observe: nat -> ScrollObservation, n: nat, m: nat)
    ensures ItemStallAfter(observe, n) >= m <==>
      m <= n && forall j: nat :: n - m <= j <= n ==> CountAfter(observe, j) == CountAfter(observe, n)
  {
    if n == 0 || m == 0 {
    } else if CountAfter(observe, n) == CountAfter(observe, n - 1) {
      assert ItemStallAfter(observe, n) == ItemStallAfter(observe, n - 1) + 1;
      ItemStallIsRun(observe, n - 1, m - 1);
    } else {
      assert ItemStallAfter(observe, n) == 0;
      assert n - m <= n - 1 <= n;
    }
  }

  /**
   * The first iteration never counts as an item stall, since the previous count starts at
   * -1; but it does count as a title stall when no title is visible, since the last title
   * starts as `null`.
   */
  lemma FirstIteration(observe: nat -> ScrollObservation)
    ensures ItemStallAfter(observe, 1) == 0
    ensures TitleStallAfter(observe, 1) == if observe(0).visibleTitles == [] then 1 else 0
  {
  }

  /** After `n` iterations the item stall count is below `n`. */
  lemma {:induction false} ItemStallBound(observe: nat -> ScrollObservation, n: nat)
    requires n > 0
    ensures ItemStallAfter(observe, n) < n
  {
    if n > 1 {
      ItemStallBound(observe, n - 1);
    }
  }

  /**
   * Every probe fires at an attempt already made; "load more" not before attempt 21 and
   * the alternative scroll not before attempt 76.
   */
  lemma {:induction false} ProbesFireLate(observe: nat -> ScrollObservation, n: nat)
    ensures forall p :: p in ProbesAfter(observe, n) ==>
      1 <= p.attempt <= n &&
      (p.LoadMore? ==> p.attempt >= 21) &&
      (p.AlternativeScroll? ==> p.attempt >= 76)
  {
    if n > 0 {
      ProbesFireLate(observe, n - 1);
      ItemStallBound(observe, n);
    }
  }

  /** The inner `forEach` over the re-scanned title elements. */
  method AddRenderedTitles(seen: seq<string>, rendered: seq<string>) returns (allTitlesSeen: seq<string>)
    ensures allTitlesSeen == SeeAll(seen, rendered)
  {
    allTitlesSeen := seen;
    var j := 0;
    while j < |rendered|
      invariant 0 <= j <= |rendered|
      invariant SeeAll(allTitlesSeen, rendered[j..]) == SeeAll(seen, rendered)
    {
      var cleanedTitle := NormalizeTitle(rendered[j]);
      assert rendered[j..][1..] == rendered[j + 1..];
      allTitlesSeen := AddTitle(allTitlesSeen, cleanedTitle);
      j := j + 1;
    }
  }

  /**
   * The body of the loop for attempt number `attempt`: the state it leaves when it runs to
   * the end, or the `break` it takes, with the titles and probes gathered up to there.
   */
  method ScrollStep(required: seq<string>, observe: nat -> ScrollObservation, ghost aborted: nat -> bool,
                    attempt: nat, s: ScrollState)
    returns (next: ScrollState, stop: Option<StopReason>)
    requires 1 <= attempt <= MaxScrollAttempts && s == StateAfter(observe, attempt - 1)
    ensures stop.None? ==> BreakAt(required, observe, attempt).None? && next == StateAfter(observe, attempt)
    ensures stop.Some? ==> StoppedWith(observe, attempt, stop.value, next)
    ensures stop.Some? ==> FirstExit(Exits(required, observe, aborted), attempt, MaxScrollAttempts) == (attempt, stop.value)
  {
    var obs := observe(attempt - 1);
    var allTitlesSeen := AddRenderedTitles(s.seen, obs.renderedTitles);
    assert allTitlesSeen == SeenAfter(observe, attempt);
    var currentLastVisible := LastVisible(obs);
    var currentItemCount := obs.itemCount;
    var lastVisibleTitle := s.lastVisible;
    var lastVisibleUnchangedCount := s.titleStall;
    var noNewItemsCount := s.itemStall;
    var probes := s.probes;
    next := s.(seen := allTitlesSeen);
    stop := None;

    if AllSeen(required, allTitlesSeen) {
      stop := Some(AllRequiredFound);
      assert StoppedWith(observe, attempt, AllRequiredFound, next);
      BreakStops(required, observe, aborted, attempt);
      return;
    }

    if currentLastVisible == lastVisibleTitle {
      lastVisibleUnchangedCount := lastVisibleUnchangedCount + 1;
    } else {
      lastVisibleUnchangedCount := 0;
      lastVisibleTitle := currentLastVisible;
    }
    assert lastVisibleTitle == VisibleAfter(observe, attempt);
    assert lastVisibleUnchangedCount == TitleStallAfter(observe, attempt);
    next := next.(lastVisible := lastVisibleTitle, titleStall := lastVisibleUnchangedCount);
    if lastVisibleUnchangedCount >= TitleStallLimit {
      stop := Some(LastTitleStalled);
      assert StoppedWith(observe, attempt, LastTitleStalled, next);
      BreakStops(required, observe, aborted, attempt);
      return;
    }

    if currentItemCount == s.previousItemCount {
      noNewItemsCount := noNewItemsCount + 1;
      if FiresLoadMore(noNewItemsCount) {
        probes := probes + [LoadMore(attempt)];
      }
      if FiresAlternativeScroll(noNewItemsCount) {
        probes := probes + [AlternativeScroll(attempt)];
      }
      assert noNewItemsCount == ItemStallAfter(observe, attempt);
      assert probes == ProbesAfter(observe, attempt);
      next := next.(itemStall := noNewItemsCount, probes := probes);
      if noNewItemsCount >= ItemStallLimit {
        stop := Some(ItemCountStalled);
        assert StoppedWith(observe, attempt, ItemCountStalled, next);
        BreakStops(required, observe, aborted, attempt);
        return;
      }
    } else {
      noNewItemsCount := 0;
      assert probes == ProbesAfter(observe, attempt);
      next := next.(itemStall := noNewItemsCount, probes := probes);
    }
    next := next.(previousItemCount := currentItemCount);
    assert BreakAt(required, observe, attempt).None?;
  }

  /** What `scrollConversationList` returns, with the count of iterations, why it stopped and the probes fired. */
  datatype ScrollResult = ScrollResult(
    titles: seq<string>,
    wasAborted: bool,
    attempts: nat,
    reason: StopReason,
    probes: seq<Probe>)

  /**
   * The loop's variables when the run stops after `k` iterations for `reason`. A `break`
   * leaves the updates that come after it in the body undone: the all-found check comes
   * right after the titles are added, the title-stall check before the item count is
   * read, and the item-stall check before `previousItemCount` is updated.
   */
  function StateAtStop(observe: nat -> ScrollObservation, k: nat, reason: StopReason): ScrollState {
    if k == 0 then InitialState
    else match reason
      case AllRequiredFound =>
        StateAfter(observe, k - 1).(seen := SeenAfter(observe, k))
      case LastTitleStalled =>
        StateAfter(observe, k - 1).(seen := SeenAfter(observe, k), lastVisible := VisibleAfter(observe, k),
          titleStall := TitleStallAfter(observe, k))
      case ItemCountStalled =>
        StateAfter(observe, k).(previousItemCount := CountAfter(observe, k - 1))
      case _ => StateAfter(observe, k)
  }

  /** `state` is what the loop's variables hold when the run stops after `k` iterations for `reason`. */
  predicate StoppedWith(observe: nat -> ScrollObservation, k: nat, reason: StopReason, state: ScrollState) {
    state == StateAtStop(observe, k, reason)
  }

  /**
   * The result of a run that stops after `k` iterations for `reason`: the titles seen,
   * or none when the post-loop check finds the abort flag up, and the probes fired.
   */
  function ResultAt(observe: nat -> ScrollObservation, aborted: nat -> bool, k: nat, reason: StopReason): ScrollResult {
    var wasAborted := AbortFlag(aborted, k);
    var state := StateAtStop(observe, k, reason);
    ScrollResult(if wasAborted then [] else state.seen, wasAborted, k, reason, state.probes)
  }

  /**
   * The first count of iterations from `k` on after which `exit` ends the loop, and why.
   * `exit(bound)` is known to end it, so the search stops there at the latest.
   */
  function FirstExit(exit: nat -> Option<StopReason>, k: nat, bound: nat): (r: (nat, StopReason))
    requires k <= bound && exit(bound).Some?
    ensures k <= r.0 <= bound && exit(r.0) == Some(r.1)
    decreases bound - k
  {
    if exit(k).Some? then (k, exit(k).value) else FirstExit(exit, k + 1, bound)
  }

  /** The search passes over every count at which `exit` lets the loop go on. */
  lemma {:induction false} FirstExitIsFirst(exit: nat -> Option<StopReason>, k: nat, bound: nat, m: nat)
    requires k <= bound && exit(bound).Some?
    requires k <= m < FirstExit(exit, k, bound).0
    ensures exit(m).None?
    decreases bound - k
  {
    if m > k {
      FirstExitIsFirst(exit, k + 1, bound, m);
    }
  }

  /** The loop's exit test as a function of the count of iterations done. */
  function Exits(required: seq<string>, observe: nat -> ScrollObservation, aborted: nat -> bool): (exit: nat -> Option<StopReason>)
    ensures exit(MaxScrollAttempts).Some?
  {
    (k: nat) => ExitAt(required, observe, aborted, k)
  }

  /** The whole run of `scrollConversationList`: stop at the first count at which the loop is over. */
  function ScrollRun(required: seq<string>, observe: nat -> ScrollObservation, aborted: nat -> bool): (r: ScrollResult)
    ensures r.attempts <= MaxScrollAttempts
    ensures r.wasAborted ==> r.titles == []
  {
    var stop := FirstExit(Exits(required, observe, aborted), 0, MaxScrollAttempts);
    ResultAt(observe, aborted, stop.0, stop.1)
  }

  /**
   * The run stops at the first check after which the loop is over, at most after the
   * attempt limit, and at once when nothing is required. It stops for `AllRequiredFound`
   * exactly when every required title has been seen, and returns the titles seen unless
   * the abort flag was up at the end.
   */
  lemma ScrollRunMeans(required: seq<string>, observe: nat -> ScrollObservation, aborted: nat -> bool)
    ensures var r := ScrollRun(required, observe, aborted);
      && 1 <= r.attempts <= MaxScrollAttempts
      && ExitAt(required, observe, aborted, r.attempts) == Some(r.reason)
      && (forall m :: 0 <= m < r.attempts ==> ExitAt(required, observe, aborted, m).None?)
      && (r.reason == AllRequiredFound <==> AllSeen(required, SeenAfter(observe, r.attempts)))
      && (required == [] ==> r.attempts == 1)
      && r.wasAborted == aborted(r.attempts)
      && r.titles == (if r.wasAborted then [] else SeenAfter(observe, r.attempts))
  {
    var exit := Exits(required, observe, aborted);
    var stop := FirstExit(exit, 0, MaxScrollAttempts);
    var n := stop.0;
    forall m | 0 <= m < n
      ensures ExitAt(required, observe, aborted, m).None?
    {
      FirstExitIsFirst(exit, 0, MaxScrollAttempts, m);
      assert exit(m).None?;
    }
    assert exit(0).None?;
    assert ExitAt(required, observe, aborted, n) == Some(stop.1);
    FoundIffAllSeen(required, observe, aborted, n, stop.1);
    StopKeepsSeen(observe, n, stop.1);
    if required == [] {
      assert exit(1).Some?;
    }
  }

  /** A run over after `k > 0` iterations stops for `AllRequiredFound` exactly when every required title is seen. */
  lemma FoundIffAllSeen(required: seq<string>, observe: nat -> ScrollObservation, aborted: nat -> bool, k: nat, reason: StopReason)
    requires k > 0 && ExitAt(required, observe, aborted, k) == Some(reason)
    ensures reason == AllRequiredFound <==> AllSeen(required, SeenAfter(observe, k))
  {
  }

  /** Whichever check stops the run, the titles of its last iteration have been added. */
  lemma StopKeepsSeen(observe: nat -> ScrollObservation, k: nat, reason: StopReason)
    ensures StateAtStop(observe, k, reason).seen == SeenAfter(observe, k)
  {
  }

  /**
   * `scrollConversationList`: runs until the first iteration after which the loop is over,
   * and returns every title seen, or nothing when the search was aborted.
   */
  method ScrollConversationList(required: seq<string>, observe: nat -> ScrollObservation, aborted: nat -> bool)
    returns (result: ScrollResult)
    ensures result == ScrollRun(required, observe, aborted)
  {
    var scrollAttempt, state, reason := ScrollLoop(required, observe, aborted);
    var wasAborted := AbortFlag(aborted, scrollAttempt);
    var titles := if wasAborted then [] else state.seen;
    result := ScrollResult(titles, wasAborted, scrollAttempt, reason, state.probes);
  }

  /**
   * The loop of `scrollConversationList`: the count of iterations it ran and why it
   * stopped, which is where the run stops, and the variables it left.
   */
  method ScrollLoop(required: seq<string>, observe: nat -> ScrollObservation, aborted: nat -> bool)
    returns (scrollAttempt: nat, state: ScrollState, reason: StopReason)
    ensures FirstExit(Exits(required, observe, aborted), 0, MaxScrollAttempts) == (scrollAttempt, reason)
    ensures StoppedWith(observe, scrollAttempt, reason, state)
  {
    state := InitialState;
    scrollAttempt := 0;
    var stop := None;
    while scrollAttempt < MaxScrollAttempts && !AbortFlag(aborted, scrollAttempt)
      invariant scrollAttempt <= MaxScrollAttempts && stop.None?
      invariant state == StateAfter(observe, scrollAttempt)
      invariant scrollAttempt > 0 ==> BreakAt(required, observe, scrollAttempt).None?
      invariant FirstExit(Exits(required, observe, aborted), scrollAttempt, MaxScrollAttempts) ==
        FirstExit(Exits(required, observe, aborted), 0, MaxScrollAttempts)
    {
      GoesOn(required, observe, aborted, scrollAttempt);
      state, stop := ScrollStep(required, observe, aborted, scrollAttempt + 1, state);
      scrollAttempt := scrollAttempt + 1;
      if stop.Some? {
        break;
      }
    }
    if stop.Some? {
      reason := stop.value;
    } else {
      reason := if scrollAttempt >= MaxScrollAttempts then AttemptLimit else AbortRequested;
      LoopEndStops(required, observe, aborted, scrollAttempt);
      StopsWithoutBreak(observe, scrollAttempt, reason, state);
    }
  }

  /** A count after which the loop is not over leaves the first exit where it was. */
  lemma GoesOn(required: seq<string>, observe: nat -> ScrollObservation, aborted: nat -> bool, k: nat)
    requires k < MaxScrollAttempts && !AbortFlag(aborted, k)
    requires k > 0 ==> BreakAt(required, observe, k).None?
    ensures FirstExit(Exits(required, observe, aborted), k + 1, MaxScrollAttempts) ==
      FirstExit(Exits(required, observe, aborted), k, MaxScrollAttempts)
  {
    assert Exits(required, observe, aborted)(k) == None;
  }

  /** A `break` after iteration `k` is where the run stops, for the reason it gives. */
  lemma BreakStops(required: seq<string>, observe: nat -> ScrollObservation, aborted: nat -> bool, k: nat)
    requires 0 < k <= MaxScrollAttempts && BreakAt(required, observe, k).Some?
    ensures FirstExit(Exits(required, observe, aborted), k, MaxScrollAttempts) == (k, BreakAt(required, observe, k).value)
  {
    assert Exits(required, observe, aborted)(k) == BreakAt(required, observe, k);
  }

  /** A loop test that fails after `k` iterations without a `break` stops the run there. */
  lemma LoopEndStops(required: seq<string>, observe: nat -> ScrollObservation, aborted: nat -> bool, k: nat)
    requires k <= MaxScrollAttempts && (k >= MaxScrollAttempts || AbortFlag(aborted, k))
    requires k > 0 ==> BreakAt(required, observe, k).None?
    ensures FirstExit(Exits(required, observe, aborted), k, MaxScrollAttempts) ==
      (k, if k >= MaxScrollAttempts then AttemptLimit else AbortRequested)
  {
    assert Exits(required, observe, aborted)(k) == Some(if k >= MaxScrollAttempts then AttemptLimit else AbortRequested);
  }

  /** A run that stops at the loop test, not at a `break`, stops with the variables of its last full iteration. */
  lemma StopsWithoutBreak(observe: nat -> ScrollObservation, k: nat, reason: StopReason, state: ScrollState)
    requires state == StateAfter(observe, k) && (reason == AttemptLimit || reason == AbortRequested)
    ensures StoppedWith(observe, k, reason, state)
  {
  }
}
