/** Pull-to-refresh (`usePullToRefresh.js`): touch listeners that measure how far the page is
    pulled down from the top, and a guarded refresh. Distances are kept in half pixels, so
    the hook's factor 0.5 stays exact: `pullHalves` is twice `pullDistance`. */
module PullToRefresh {
  import opened Wrappers

  const DefaultThreshold: nat := 80

  function Max(a: int, b: int): int { if a >= b then a else b }
  function Min(a: int, b: int): int { if a <= b then a else b }

  /** The distance `touchmove` sets, in half pixels: `min(max(0, (currentY - startY) * 0.5),
      threshold * 1.5)` doubled. */
  function PullHalves(startY: int, currentY: int, threshold: nat): (h: int)
    ensures 0 <= h <= 3 * threshold
    ensures currentY <= startY ==> h == 0
    ensures startY < currentY && currentY - startY <= 3 * threshold ==> h == currentY - startY
  {
    Min(Max(0, currentY - startY), 3 * threshold)
  }

  class Hook {
    const threshold: nat
    /** React state. */
    var isPulling: bool
    var pullHalves: int
    var isRefreshing: bool
    /** The locals of the listeners' closure, created anew by each run of the effect. */
    var startY: int
    var currentY: int
    /** The state values the current listeners and `handleRefresh` closed over. */
    var seenPulling: bool
    var seenHalves: int
    var seenRefreshing: bool
    /** Calls of `onRefresh` made, and those still running. */
    var refreshCalls: nat
    var running: nat

    /** The pulled distance stays within 0 and 1.5 times the threshold, and what the
        listeners saw was such a distance too. */
    predicate Valid()
      reads this
    {
      0 <= pullHalves <= 3 * threshold && 0 <= seenHalves <= 3 * threshold
    }

    /** The first render with the effect run once. */
    constructor (threshold: Option<nat>)
      ensures this.threshold == threshold.GetOr(DefaultThreshold)
      ensures !isPulling && pullHalves == 0 && !isRefreshing && refreshCalls == 0 && running == 0
      ensures Valid()
    {
      this.threshold := threshold.GetOr(DefaultThreshold);
      isPulling, pullHalves, isRefreshing := false, 0, false;
      startY, currentY := 0, 0;
      seenPulling, seenHalves, seenRefreshing := false, 0, false;
      refreshCalls, running := 0, 0;
    }

    /** A re-render after `isPulling`, `pullDistance` or `handleRefresh` changed: the effect's
        cleanup removes the listeners and its next run adds new ones over the current state,
        with `startY` and `currentY` back at 0. */
    method EffectRuns()
      requires Valid()
      modifies this
      ensures Valid()
      ensures startY == 0 && currentY == 0
      ensures seenPulling == isPulling && seenHalves == pullHalves && seenRefreshing == isRefreshing
      ensures isPulling == old(isPulling) && pullHalves == old(pullHalves) && isRefreshing == old(isRefreshing)
      ensures refreshCalls == old(refreshCalls) && running == old(running)
    {
      startY, currentY := 0, 0;
      seenPulling, seenHalves, seenRefreshing := isPulling, pullHalves, isRefreshing;
    }

    /** `touchstart`: arms pulling and records the start only at the top of the page. */
    method TouchStart(scrollY: int, pageY: int)
      requires Valid()
      modifies this
      ensures Valid()
      ensures scrollY == 0 ==> isPulling && startY == pageY
      ensures scrollY != 0 ==> isPulling == old(isPulling) && startY == old(startY)
      ensures pullHalves == old(pullHalves) && isRefreshing == old(isRefreshing) && currentY == old(currentY)
      ensures seenPulling == old(seenPulling) && seenHalves == old(seenHalves) && seenRefreshing == old(seenRefreshing)
      ensures refreshCalls == old(refreshCalls) && running == old(running)
    {
      if scrollY == 0 {
        startY := pageY;
        isPulling := true;
      }
    }

    /** `touchmove`: ignored unless the listeners saw pulling armed and the page is at the top;
        otherwise the distance from `startY`, halved, floored at 0 and capped. */
    method TouchMove(scrollY: int, pageY: int)
      requires Valid()
      modifies this
      ensures Valid()
      ensures seenPulling && scrollY <= 0 ==>
        currentY == pageY && pullHalves == PullHalves(startY, pageY, threshold)
      ensures !(seenPulling && scrollY <= 0) ==> pullHalves == old(pullHalves) && currentY == old(currentY)
      ensures isPulling == old(isPulling) && isRefreshing == old(isRefreshing) && startY == old(startY)
      ensures seenPulling == old(seenPulling) && seenHalves == old(seenHalves) && seenRefreshing == old(seenRefreshing)
      ensures refreshCalls == old(refreshCalls) && running == old(running)
    {
      if !seenPulling || scrollY > 0 {
        return;
      }
      currentY := pageY;
      pullHalves := PullHalves(startY, currentY, threshold);
    }

    /** `handleRefresh`: nothing while the refresh it saw is running; otherwise mark the
        refresh running and call `onRefresh`. */
    method HandleRefresh() returns (started: bool)
      requires Valid()
      modifies this
      ensures Valid()
      ensures started <==> !seenRefreshing
      ensures started ==> isRefreshing && refreshCalls == old(refreshCalls) + 1 && running == old(running) + 1
      ensures !started ==> isRefreshing == old(isRefreshing) && refreshCalls == old(refreshCalls) && running == old(running)
      ensures isPulling == old(isPulling) && pullHalves == old(pullHalves)
      ensures startY == old(startY) && currentY == old(currentY)
      ensures seenPulling == old(seenPulling) && seenHalves == old(seenHalves) && seenRefreshing == old(seenRefreshing)
    {
      if seenRefreshing {
        return false;
      }
      isRefreshing := true;
      refreshCalls := refreshCalls + 1;
      running := running + 1;
      started := true;
    }

    /** A call of `onRefresh` settles, resolved or rejected: the `finally` clears the flag and
        the distance. */
    method RefreshSettles()
      requires Valid() && running > 0
      modifies this
      ensures Valid()
      ensures !isRefreshing && pullHalves == 0 && running == old(running) - 1
      ensures isPulling == old(isPulling) && refreshCalls == old(refreshCalls)
      ensures startY == old(startY) && currentY == old(currentY)
      ensures seenPulling == old(seenPulling) && seenHalves == old(seenHalves) && seenRefreshing == old(seenRefreshing)
    {
      isRefreshing := false;
      pullHalves := 0;
      running := running - 1;
    }

    /** `touchend`: a distance the listeners saw at or past the threshold calls
        `handleRefresh`; a shorter one is reset to 0. Pulling ends either way. */
    method TouchEnd() returns (started: bool)
      requires Valid()
      modifies this
      ensures Valid()
      ensures !isPulling
      ensures started <==> seenHalves >= 2 * threshold && !seenRefreshing
      ensures seenHalves < 2 * threshold ==> pullHalves == 0
      ensures seenHalves >= 2 * threshold ==> pullHalves == old(pullHalves)
      ensures started ==> isRefreshing
      ensures !started ==> isRefreshing == old(isRefreshing)
      ensures refreshCalls == old(refreshCalls) + (if started then 1 else 0)
      ensures running == old(running) + (if started then 1 else 0)
      ensures startY == old(startY) && currentY == old(currentY)
      ensures seenPulling == old(seenPulling) && seenHalves == old(seenHalves) && seenRefreshing == old(seenRefreshing)
    {
      started := false;
      if seenHalves >= 2 * threshold {
        started := HandleRefresh();
      } else {
        pullHalves := 0;
      }
      isPulling := false;
    }

    /** The same re-render with `startY` kept across runs of the effect (held in a ref), as
        the start of the gesture is evidently meant to be remembered. */
    method EffectRunsKeepingStart()
      requires Valid()
      modifies this
      ensures Valid()
      ensures startY == old(startY) && currentY == old(currentY)
      ensures seenPulling == isPulling && seenHalves == pullHalves && seenRefreshing == isRefreshing
      ensures isPulling == old(isPulling) && pullHalves == old(pullHalves) && isRefreshing == old(isRefreshing)
      ensures refreshCalls == old(refreshCalls) && running == old(running)
    {
      seenPulling, seenHalves, seenRefreshing := isPulling, pullHalves, isRefreshing;
    }
  }

  /** As written: a touch that rests at 160 px or lower on a page scrolled to the top, moved by
      nothing at all, refreshes on release, because the re-render that `touchstart` causes
      resets `startY` to 0 and the distance is then measured from the top of the page. */
  method StillTouchRefreshes(pageY: int) returns (started: bool)
    requires pageY >= 2 * DefaultThreshold
    ensures started
  {
    var hook := new Hook(None);
    hook.TouchStart(0, pageY);
    hook.EffectRuns();
    hook.TouchMove(0, pageY);
    hook.EffectRuns();
    started := hook.TouchEnd();
  }

  /** With the start kept across re-renders, the same still touch sets no distance and does
      not refresh; a pull of the threshold or more from the start point does. */
  method StillTouchKeepingStart(pageY: int, pulled: int) returns (still: bool, pulledStarts: bool)
    requires pulled >= 2 * DefaultThreshold
    ensures !still && pulledStarts
  {
    var hook := new Hook(None);
    hook.TouchStart(0, pageY);
    hook.EffectRunsKeepingStart();
    hook.TouchMove(0, pageY);
    hook.EffectRunsKeepingStart();
    still := hook.TouchEnd();
    hook.EffectRunsKeepingStart();
    hook.TouchStart(0, pageY);
    hook.EffectRunsKeepingStart();
    hook.TouchMove(0, pageY + pulled);
    hook.EffectRunsKeepingStart();
    pulledStarts := hook.TouchEnd();
  }

  /** While a refresh runs, a second release past the threshold does not call `onRefresh`
      again; once it settles the distance is back at 0. */
  method RefreshNotRepeated(pageY: int) returns (calls: nat, distance: int)
    requires pageY >= 2 * DefaultThreshold
    ensures calls == 1 && distance == 0
  {
    var hook := new Hook(None);
    hook.TouchStart(0, pageY);
    hook.EffectRuns();
    hook.TouchMove(0, pageY);
    hook.EffectRuns();
    var first := hook.TouchEnd();
    hook.EffectRuns();
    hook.TouchStart(0, pageY);
    hook.EffectRuns();
    hook.TouchMove(0, pageY);
    hook.EffectRuns();
    var second := hook.TouchEnd();
    calls := hook.refreshCalls;
    hook.RefreshSettles();
    distance := hook.pullHalves;
  }
}
