/**
  The content script the extension injects into assistant pages
  (chrome-extension/content.js): which custom site a page belongs to, the
  name it reports to the hub under, the arming switch that guards the
  Gemini detector, and the timing of a response. The page's hostname, the
  clock, the stored settings and the timer that disarms are parameters or
  explicit events; the report sent with `fetch` and the message sent to
  the background are recorded in order.
 */
module ExtContent {
  import opened Options
  import opened Strings
  import opened ExtSites

  // ------------------------------------------------------- site detection

  /** `hostMatches(domain, host)`: the same host, or a subdomain of it, ignoring case. */
  predicate HostMatches(domain: string, host: string) {
    var d := Lower(domain);
    var h := Lower(host);
    h == d || EndsWith(h, "." + d)
  }

  /** Every subdomain of a domain matches it. */
  lemma SubdomainMatches(domain: string, sub: string)
    ensures HostMatches(domain, sub + "." + domain)
  {
    LowerAppend(sub + ".", domain);
    LowerAppend(sub, ".");
    var h := Lower(sub + "." + domain);
    assert h == Lower(sub) + "." + Lower(domain);
    assert h[|h| - |"." + Lower(domain)|..] == "." + Lower(domain);
  }

  /**
    A host that only ends in the domain's text, without a dot before it,
    does not match: "evilclaude.ai" is not a host of "claude.ai".
   */
  lemma NoMatchInsideLabel(domain: string, host: string, prefix: string)
    requires Lower(host) == prefix + Lower(domain)
    requires prefix != [] && prefix[|prefix| - 1] != '.'
    ensures !HostMatches(domain, host)
  {
    var d, h := Lower(domain), Lower(host);
    assert h[|prefix| - 1] == prefix[|prefix| - 1];
  }

  /** Matching ignores case on both sides. */
  lemma HostMatchesIgnoresCase(domain: string, host: string)
    ensures HostMatches(domain, host) == HostMatches(Lower(domain), Lower(host))
  {
    LowerIdempotent(domain);
    LowerIdempotent(host);
  }

  /** `{ id, name }` of the detected site. */
  datatype Detected = Detected(id: string, name: string)

  /** Not switched off, with some domain the host matches. */
  predicate Eligible(site: CustomSite, host: string) {
    NotFalse(site.enabled) && |site.domains| > 0
    && exists k :: 0 <= k < |site.domains| && HostMatches(site.domains[k], host)
  }

  /** `detectSite(customSites)` on the page `host`. */
  function DetectSite(sites: seq<CustomSite>, host: string): Option<Detected> {
    if sites == [] then None
    else if Eligible(sites[0], host) then Some(Detected(sites[0].id, sites[0].name))
    else DetectSite(sites[1..], host)
  }

  /**
    The detected site is the first eligible one in list order, and nothing
    is detected when no site is eligible.
   */
  lemma {:induction false} DetectSiteFirst(sites: seq<CustomSite>, host: string)
    ensures var r := DetectSite(sites, host);
      (r.None? <==> forall k :: 0 <= k < |sites| ==> !Eligible(sites[k], host))
      && (r.Some? ==> exists k :: 0 <= k < |sites| && Eligible(sites[k], host)
                        && r.value == Detected(sites[k].id, sites[k].name)
                        && forall j :: 0 <= j < k ==> !Eligible(sites[j], host))
  {
    if sites != [] && !Eligible(sites[0], host) {
      DetectSiteFirst(sites[1..], host);
      assert forall j :: 1 <= j < |sites| ==> sites[j] == sites[1..][j - 1];
      var r := DetectSite(sites[1..], host);
      if r.Some? {
        var k :| 0 <= k < |sites| - 1 && Eligible(sites[1..][k], host)
                 && r.value == Detected(sites[1..][k].id, sites[1..][k].name)
                 && forall j :: 0 <= j < k ==> !Eligible(sites[1..][j], host);
        assert Eligible(sites[k + 1], host);
      }
    }
  }

  /** A site toggled off is never detected, on any page. */
  lemma ToggledOffNotDetected(sites: seq<CustomSite>, id: string, host: string)
    ensures var r := DetectSite(ToggleCustomSite(sites, id, false), host);
      r.Some? ==> r.value.id != id
  {
    var toggled := ToggleCustomSite(sites, id, false);
    DetectSiteFirst(toggled, host);
    ToggleOnlyEnabled(sites, id, false);
  }

  /** A removed site is never detected, on any page. */
  lemma RemovedNotDetected(sites: seq<CustomSite>, id: string, host: string)
    ensures var r := DetectSite(RemoveCustomSite(sites, id), host);
      r.Some? ==> r.value.id != id
  {
    var rest := RemoveCustomSite(sites, id);
    DetectSiteFirst(rest, host);
    var r := DetectSite(rest, host);
    if r.Some? {
      var k :| 0 <= k < |rest| && r.value == Detected(rest[k].id, rest[k].name);
      assert rest[k] in rest;
    }
  }

  /** The table of `getHubSourceName`. */
  const HubNames: map<string, string> := map["claude" := "claude-ai", "chatgpt" := "chatgpt", "gemini" := "gemini", "grok" := "grok"]

  /** `getHubSourceName(site)`: `mapping[site] || site`. */
  function HubSourceName(site: string): string {
    if site in HubNames && HubNames[site] != "" then HubNames[site] else site
  }

  /** Only "claude" is renamed, to the hub's "claude-ai"; every other name is reported as it is. */
  lemma HubSourceNameRenamesClaude(site: string)
    ensures site == "claude" ==> HubSourceName(site) == "claude-ai"
    ensures site != "claude" ==> HubSourceName(site) == site
  {
  }

  // ------------------------------------------------------------ page state

  /** What the script sends to the hub's `/api/event`: source, status and duration. */
  datatype HubReport = HubReport(source: Option<string>, status: string, duration: Option<int>)

  /**
    The page's state: the detected site, the arming flags on `window`,
    whether the disarm timer is pending, the recorded start of a response,
    what went to the hub and the durations sent to the background.
   */
  datatype Page = Page(
    currentSite: Option<string>,
    currentSiteName: Option<string>,
    requireArm: bool,
    armed: Option<bool>,
    armedAt: Option<int>,
    armTimerPending: bool,
    generatingStartTime: Option<int>,
    reports: seq<HubReport>,
    completions: seq<Option<int>>)

  /** The detector may run: arming is not required, or the page is armed. */
  predicate DetectorUnlocked(p: Page) {
    !p.requireArm || IsTrue(p.armed)
  }

  /** `init()`: `enabled` is the stored `enabled` flag and `sites` the stored custom sites. */
  function Initialized(p: Page, enabled: Option<bool>, sites: seq<CustomSite>, host: string): Page {
    if enabled == Some(false) then p
    else
      match DetectSite(sites, host)
      case None => p
      case Some(d) => p.(currentSite := Some(d.id), currentSiteName := Some(d.name), requireArm := d.id == "gemini")
  }

  /** `armDetector` at time `now`. */
  function Armed(p: Page, now: int): Page {
    if !p.requireArm then p else p.(armed := Some(true), armedAt := Some(now), armTimerPending := true)
  }

  /** `disarmDetector`. */
  function Disarmed(p: Page): Page {
    if !p.requireArm then p else p.(armed := Some(false), armedAt := None, armTimerPending := false)
  }

  /**
    Arming does nothing on a page that needs none; on one that does, arming
    unlocks the detector and starts the timer, and disarming locks it, clears
    the arming time and cancels the timer.
   */
  lemma ArmingSwitch(p: Page, now: int)
    ensures !p.requireArm ==> Armed(p, now) == p && Disarmed(p) == p
    ensures p.requireArm ==> DetectorUnlocked(Armed(p, now)) && Armed(p, now).armTimerPending
    ensures p.requireArm ==> var q := Disarmed(p); !DetectorUnlocked(q) && q.armedAt.None? && !q.armTimerPending
    ensures Disarmed(Armed(p, now)) == Disarmed(p)
  {
  }

  /** Only Gemini pages need arming: on any other detected site the detector is unlocked from the start. */
  lemma OnlyGeminiNeedsArming(p: Page, enabled: Option<bool>, sites: seq<CustomSite>, host: string)
    requires !p.requireArm
    ensures var q := Initialized(p, enabled, sites, host);
      q.requireArm <==> q.currentSite == Some("gemini") && DetectSite(sites, host).Some? && enabled != Some(false)
  {
  }

  /** The arm timer fires: it disarms, if it is still pending. */
  function ArmTimerFired(p: Page): Page {
    if p.armTimerPending then Disarmed(p) else p
  }

  /** The hub name of the current site, or none before a site is detected. */
  function ReportSource(p: Page): Option<string> {
    if p.currentSite.Some? then Some(HubSourceName(p.currentSite.value)) else None
  }

  /** `onGeneratingStart` at `now`. */
  function GeneratingStarted(p: Page, now: int): Page {
    p.(generatingStartTime := Some(now), reports := p.reports + [HubReport(ReportSource(p), "generating", None)])
  }

  /** The duration `notifyCompletion` reports: from a recorded (truthy) start to `now`, or none. */
  function CompletionDuration(p: Page, now: int): Option<int> {
    if p.generatingStartTime.Some? && p.generatingStartTime.value != 0 then Some(now - p.generatingStartTime.value) else None
  }

  /**
    `notifyCompletion` at `now`; `stillEnabled` is false when the stored
    `enabled` flag reads `false` at that point.
   */
  function CompletionNotified(p: Page, now: int, stillEnabled: bool): Page {
    var duration := CompletionDuration(p, now);
    var q := Disarmed(p.(generatingStartTime := None));
    q.(reports := q.reports + [HubReport(ReportSource(p), "complete", duration)],
       completions := if stillEnabled then q.completions + [duration] else q.completions)
  }

  /**
    A response timed from a start at `t0` (not zero) to `t1` reports a
    duration of `t1 - t0` to the hub and the background; the start is then
    forgotten, so a second completion reports no duration.
   */
  lemma ResponseTiming(p: Page, t0: int, t1: int, t2: int)
    requires t0 != 0
    ensures var done := CompletionNotified(GeneratingStarted(p, t0), t1, true);
      done.generatingStartTime.None?
      && done.reports[|done.reports| - 1] == HubReport(ReportSource(p), "complete", Some(t1 - t0))
      && done.completions == p.completions + [Some(t1 - t0)]
      && CompletionDuration(done, t2).None?
  {
  }

  /** Every completion resets the start and leaves the detector locked again on pages that need arming. */
  lemma CompletionResets(p: Page, now: int, stillEnabled: bool)
    ensures var q := CompletionNotified(p, now, stillEnabled);
      q.generatingStartTime.None?
      && |q.reports| == |p.reports| + 1
      && (p.requireArm ==> !DetectorUnlocked(q))
      && (stillEnabled <==> |q.completions| == |p.completions| + 1)
  {
  }

  /** The content script's state, as the page holds it. */
  class ContentScript {
    var currentSite: Option<string>
    var currentSiteName: Option<string>
    var requireArm: bool
    var armed: Option<bool>
    var armedAt: Option<int>
    var armTimerPending: bool
    var generatingStartTime: Option<int>
    var reports: seq<HubReport>
    var completions: seq<Option<int>>

    function State(): Page
      reads this
    {
      Page(currentSite, currentSiteName, requireArm, armed, armedAt, armTimerPending,
           generatingStartTime, reports, completions)
    }

    constructor()
      ensures State() == Page(None, None, false, None, None, false, None, [], [])
    {
      currentSite, currentSiteName, requireArm := None, None, false;
      armed, armedAt, armTimerPending := None, None, false;
      generatingStartTime, reports, completions := None, [], [];
    }

    method Init(enabled: Option<bool>, sites: seq<CustomSite>, host: string)
      modifies this
      ensures State() == Initialized(old(State()), enabled, sites, host)
    {
      if enabled == Some(false) {
        return;
      }
      var detected := DetectSite(sites, host);
      if detected.None? {
        return;
      }
      currentSite := Some(detected.value.id);
      currentSiteName := Some(detected.value.name);
      requireArm := detected.value.id == "gemini";
    }

    method ArmDetector(now: int)
      modifies this
      ensures State() == Armed(old(State()), now)
    {
      if !requireArm {
        return;
      }
      armed := Some(true);
      armedAt := Some(now);
      armTimerPending := true;
    }

    method DisarmDetector()
      modifies this
      ensures State() == Disarmed(old(State()))
    {
      if !requireArm {
        return;
      }
      armed := Some(false);
      armedAt := None;
      armTimerPending := false;
    }

    method OnArmTimer()
      modifies this
      ensures State() == ArmTimerFired(old(State()))
    {
      if armTimerPending {
        DisarmDetector();
      }
    }

    method OnGeneratingStart(now: int)
      modifies this
      ensures State() == GeneratingStarted(old(State()), now)
    {
      generatingStartTime := Some(now);
      reports := reports + [HubReport(ReportSource(State()), "generating", None)];
    }

    method NotifyCompletion(now: int, stillEnabled: bool) returns (duration: Option<int>)
      modifies this
      ensures duration == CompletionDuration(old(State()), now)
      ensures State() == CompletionNotified(old(State()), now, stillEnabled)
    {
      duration := if generatingStartTime.Some? && generatingStartTime.value != 0 then Some(now - generatingStartTime.value) else None;
      var source := ReportSource(State());
      generatingStartTime := None;
      DisarmDetector();
      reports := reports + [HubReport(source, "complete", duration)];
      if stillEnabled {
        completions := completions + [duration];
      }
    }
  }
}
