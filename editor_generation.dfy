/**
  The editor extension's generating/complete flag machine
  (vscode-extension/out/extension.js: `markGenerating`, `triggerCompletion`).
  `isEnabled()`, the clock, the source `resolveActiveSource()` would pick and
  the outcome of `requireHubConnected()` are parameters; every call to
  `reportToHub` is recorded in order (whether it then passes the link's gate
  is the hub link's business).
 */
module EditorGeneration {
  import opened Options

  /** `COMPLETION_COOLDOWN_MS`: zero, so the cooldown never holds for a clock that does not run backwards. */
  const CompletionCooldownMs := 0

  /** One call to `reportToHub(source, status)`. */
  datatype HubReport = HubReport(source: string, status: string)

  /** The module-level flags the two functions read and write. */
  datatype Gen = Gen(
    isGenerating: bool,
    lastCompletionTime: int,
    lastActivityTime: int,
    currentSource: Option<string>,
    reports: seq<HubReport>)

  /** `sourceOverride || resolveActiveSource()`. */
  function PickSource(sourceOverride: Option<string>, activeSource: string): string {
    if sourceOverride.Some? && sourceOverride.value != "" then sourceOverride.value else activeSource
  }

  predicate InCooldown(g: Gen, now: int) {
    now - g.lastCompletionTime < CompletionCooldownMs
  }

  /** `markGenerating`: the new flags and the value it returns. */
  function MarkedGenerating(g: Gen, sourceOverride: Option<string>, activeSource: string, enabled: bool, now: int): (Gen, bool) {
    if !g.isGenerating && enabled then
      if InCooldown(g, now) then (g, false)
      else
        var source := PickSource(sourceOverride, activeSource);
        (g.(isGenerating := true, lastActivityTime := now, currentSource := Some(source),
            reports := g.reports + [HubReport(source, "generating")]), true)
    else (g, g.isGenerating)
  }

  /**
    `markGenerating` returns the flag it leaves, never clears it, sets it
    only when enabled, and reports "generating" exactly when it sets it.
   */
  lemma MarkGeneratingFlag(g: Gen, sourceOverride: Option<string>, activeSource: string, enabled: bool, now: int)
    ensures var (g', generating) := MarkedGenerating(g, sourceOverride, activeSource, enabled, now);
      generating == g'.isGenerating
      && (g.isGenerating ==> g' == g)
      && (!g.isGenerating && !enabled ==> g' == g)
      && (g'.isGenerating != g.isGenerating <==> g'.reports != g.reports)
      && (g'.reports != g.reports ==> g'.reports == g.reports + [HubReport(PickSource(sourceOverride, activeSource), "generating")])
  {
  }

  /** With the cooldown at zero and a clock that does not run backwards, an enabled idle editor always starts generating. */
  lemma MarkGeneratingStarts(g: Gen, sourceOverride: Option<string>, activeSource: string, now: int)
    requires !g.isGenerating && now >= g.lastCompletionTime
    ensures MarkedGenerating(g, sourceOverride, activeSource, true, now).0.isGenerating
  {
  }

  /** `triggerCompletion`: `hubConnected` is what `requireHubConnected()` answers. */
  function TriggeredCompletion(g: Gen, enabled: bool, activeSource: Option<string>, now: int, hubConnected: bool): Gen {
    if g.isGenerating && enabled then
      if InCooldown(g, now) then g.(isGenerating := false)
      else
        var g' := g.(lastCompletionTime := now, currentSource := activeSource, isGenerating := false);
        if !hubConnected then g'
        else
          var source := if activeSource.Some? && activeSource.value != "" then activeSource.value else "claude-code";
          g'.(reports := g'.reports + [HubReport(source, "complete")])
    else g
  }

  /**
    `triggerCompletion` acts only when generating and enabled, and then
    leaves the flag clear; it reports one "complete" when the hub is up and
    the cooldown does not hold, and nothing otherwise.
   */
  lemma TriggerCompletionClears(g: Gen, enabled: bool, activeSource: Option<string>, now: int, hubConnected: bool)
    ensures var g' := TriggeredCompletion(g, enabled, activeSource, now, hubConnected);
      (!(g.isGenerating && enabled) ==> g' == g)
      && (g.isGenerating && enabled ==> !g'.isGenerating)
      && (g'.reports != g.reports <==> g.isGenerating && enabled && !InCooldown(g, now) && hubConnected)
      && (g'.reports != g.reports ==>
            (|g'.reports| == |g.reports| + 1
             && g'.reports[|g.reports|].status == "complete" && g'.reports[|g.reports|].source != ""))
  {
  }

  /** A start and then a completion from idle report "generating" then "complete", nothing else. */
  lemma {:induction false} StartThenComplete(g: Gen, sourceOverride: Option<string>, activeSource: string, t0: int, t1: int)
    requires !g.isGenerating && g.lastCompletionTime <= t0 <= t1
    ensures var started := MarkedGenerating(g, sourceOverride, activeSource, true, t0).0;
      var done := TriggeredCompletion(started, true, Some(activeSource), t1, true);
      !done.isGenerating
      && |done.reports| == |g.reports| + 2
      && done.reports[..|g.reports|] == g.reports
      && done.reports[|g.reports|].status == "generating"
      && done.reports[|g.reports| + 1].status == "complete"
  {
    var started := MarkedGenerating(g, sourceOverride, activeSource, true, t0).0;
    assert started.reports == g.reports + [HubReport(PickSource(sourceOverride, activeSource), "generating")];
    assert started.isGenerating && started.lastCompletionTime == g.lastCompletionTime;
    var done := TriggeredCompletion(started, true, Some(activeSource), t1, true);
    assert done.reports[..|g.reports|] == g.reports;
  }

  /** The extension's module-level flags. */
  class Generation {
    var isGenerating: bool
    var lastCompletionTime: int
    var lastActivityTime: int
    var currentSource: Option<string>
    var reports: seq<HubReport>

    function State(): Gen
      reads this
    {
      Gen(isGenerating, lastCompletionTime, lastActivityTime, currentSource, reports)
    }

    constructor()
      ensures State() == Gen(false, 0, 0, None, [])
    {
      isGenerating, lastCompletionTime, lastActivityTime, currentSource, reports := false, 0, 0, None, [];
    }

    method MarkGenerating(sourceOverride: Option<string>, activeSource: string, enabled: bool, now: int)
      returns (generating: bool)
      modifies this
      ensures (State(), generating) == MarkedGenerating(old(State()), sourceOverride, activeSource, enabled, now)
    {
      if !isGenerating && enabled {
        if now - lastCompletionTime < CompletionCooldownMs {
          return false;
        }
        var source := if sourceOverride.Some? && sourceOverride.value != "" then sourceOverride.value else activeSource;
        isGenerating := true;
        lastActivityTime := now;
        currentSource := Some(source);
        reports := reports + [HubReport(source, "generating")];
        return true;
      }
      return isGenerating;
    }

    method TriggerCompletion(enabled: bool, activeSource: Option<string>, now: int, hubConnected: bool)
      modifies this
      ensures State() == TriggeredCompletion(old(State()), enabled, activeSource, now, hubConnected)
    {
      if isGenerating && enabled {
        if now - lastCompletionTime < CompletionCooldownMs {
          isGenerating := false;
          return;
        }
        lastCompletionTime := now;
        currentSource := activeSource;
        isGenerating := false;
        if !hubConnected {
          return;
        }
        var source := if currentSource.Some? && currentSource.value != "" then currentSource.value else "claude-code";
        reports := reports + [HubReport(source, "complete")];
      }
    }
  }
}
