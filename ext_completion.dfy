/**
  What the extension's background worker does when a page reports a
  finished response (chrome-extension/background.js: `handleCompletion`),
  and the locally stored alarm flag it guards (`startAlarm`,
  `startSilentAlarm`, `clearSilentAlarmIfAny`, `dismissAlarm`, `playSound`).
  The stored settings and the hub's status are parameters; the sounds sent
  to the offscreen document, the desktop notifications shown and the
  completions recorded are logged in order, and the dismissals sent to the
  hub are counted.
 */
module ExtCompletion {
  import opened Options

  // ----------------------------------------------------- stored settings

  /** A value stored under a key of a settings object: a flag, a text or a number. */
  datatype Setting = Flag(b: bool) | Text(s: string) | Level(n: int)

  /** JavaScript truthiness of a stored value. */
  predicate Truthy(v: Setting) {
    match v
    case Flag(b) => b
    case Text(s) => s != ""
    case Level(n) => n != 0
  }

  /** `obj.key` is truthy (a missing key is `undefined`, falsy). */
  predicate KeyTruthy(obj: map<string, Setting>, key: string) {
    key in obj && Truthy(obj[key])
  }

  /** `obj.key !== false`. */
  predicate KeyNotFalse(obj: map<string, Setting>, key: string) {
    !(key in obj && obj[key] == Flag(false))
  }

  /** `obj.key === true`. */
  predicate KeyTrue(obj: map<string, Setting>, key: string) {
    key in obj && obj[key] == Flag(true)
  }

  /** The preferences a completion is handled with. */
  datatype Prefs = Prefs(desktop: bool, sound: bool, soundPreset: string, alarm: bool)

  /**
    `obj.soundPreset || 'chime'`. A truthy value that is not a text is kept
    by the source and then replaced by 'chime' when the sound is validated,
    so it is 'chime' here at once.
   */
  function PresetOf(obj: map<string, Setting>): (preset: string)
    ensures preset != ""
  {
    if "soundPreset" in obj && obj["soundPreset"].Text? && obj["soundPreset"].s != "" then obj["soundPreset"].s else "chime"
  }

  /** A site's stored settings, or `{ enabled: true, mode: 'global' }` when it has none. */
  function SiteConfig(siteSettings: map<string, map<string, Setting>>, site: string): map<string, Setting> {
    if site in siteSettings then siteSettings[site] else map["enabled" := Flag(true), "mode" := Text("global")]
  }

  /** `!siteConfig.enabled || siteConfig.mode === 'off'`. */
  predicate SiteOff(config: map<string, Setting>) {
    !KeyTruthy(config, "enabled") || ("mode" in config && config["mode"] == Text("off"))
  }

  predicate CustomMode(config: map<string, Setting>) {
    "mode" in config && config["mode"] == Text("custom")
  }

  /** The preferences of a site in custom mode: desktop and sound unless switched off, alarm only if switched on. */
  function CustomPrefs(config: map<string, Setting>): Prefs {
    Prefs(KeyNotFalse(config, "desktop"), KeyNotFalse(config, "sound"), PresetOf(config), KeyTrue(config, "alarm"))
  }

  /** The global `notifications` object, or the defaults when none is stored. */
  function GlobalPrefs(notifications: Option<map<string, Setting>>): Prefs {
    match notifications
    case None => Prefs(true, true, "chime", false)
    case Some(n) => Prefs(KeyTruthy(n, "desktop"), KeyTruthy(n, "sound"), PresetOf(n), KeyTruthy(n, "alarm"))
  }

  /** The preferences `handleCompletion` picks for a site that is on. */
  function PrefsFor(config: map<string, Setting>, notifications: Option<map<string, Setting>>): Prefs {
    if CustomMode(config) then CustomPrefs(config) else GlobalPrefs(notifications)
  }

  /**
    Custom mode with nothing set beyond the mode gives desktop and sound
    with the chime and no alarm; a missing global object gives the same.
   */
  lemma PrefsDefaults(config: map<string, Setting>)
    requires CustomMode(config)
    requires "desktop" !in config && "sound" !in config && "soundPreset" !in config && "alarm" !in config
    ensures PrefsFor(config, None) == Prefs(true, true, "chime", false)
    ensures GlobalPrefs(None) == PrefsFor(config, None)
  {
  }

  /** A site without stored settings is on and follows the global preferences. */
  lemma UnconfiguredSiteIsGlobal(siteSettings: map<string, map<string, Setting>>, site: string, notifications: Option<map<string, Setting>>)
    requires site !in siteSettings
    ensures !SiteOff(SiteConfig(siteSettings, site))
    ensures PrefsFor(SiteConfig(siteSettings, site), notifications) == GlobalPrefs(notifications)
  {
    var config := SiteConfig(siteSettings, site);
    assert config["enabled"] == Flag(true) && config["mode"] == Text("global");
  }

  // --------------------------------------------------------------- presets

  const ValidPresets: seq<string> := ["chime", "bell", "beep", "ping", "soft-alert", "digital", "gentle-bell",
                                      "notification", "alert-urgent", "calm-tone", "double-beep", "ascending", "custom"]

  /** The preset validation of `startAlarm` and `playSound`: an unknown preset becomes 'chime'. */
  function ValidPreset(preset: string): (r: string)
    ensures r in ValidPresets
    ensures r == preset <==> preset in ValidPresets
    ensures preset !in ValidPresets ==> r == "chime"
  {
    if preset in ValidPresets then preset else "chime"
  }

  // ------------------------------------------------------------ hub status

  /** `getHubStatus()`: whether the hub answered, its dashboards and, if it reports it, its audio-ready count. */
  datatype HubStatus = HubStatus(available: bool, dashboards: int, audioReady: Option<int>)

  /** The hub plays the sound: it is up and has an audio-ready client (or, lacking that count, a dashboard). */
  predicate UseHubSound(hub: HubStatus) {
    hub.available && (if hub.audioReady.Some? then hub.audioReady.value > 0 else hub.dashboards > 0)
  }

  // ------------------------------------------------------------ alarm flag

  /** The stored `alarmState`; a missing one reads as inactive. */
  datatype AlarmFlag = AlarmFlag(isActive: bool, silent: bool, preset: string)

  const Inactive := AlarmFlag(false, false, "")

  /** A message to the offscreen document that plays sounds. */
  datatype SoundMessage = PlayOnce(preset: string) | Loop(preset: string) | StopSound

  /** The worker's effects: the alarm flag and the logs. */
  /**
    The worker's alarm flag and its logs; `hubDismissals` counts the
    `POST /api/dismiss` requests sent to the hub.
   */
  datatype Effects = Effects(alarm: AlarmFlag, sounds: seq<SoundMessage>, shown: seq<string>, recorded: seq<string>, hubDismissals: nat)

  /** `startAlarm(preset)`. */
  function AlarmStarted(e: Effects, preset: string): Effects {
    if e.alarm.isActive then e
    else
      var p := ValidPreset(preset);
      e.(alarm := AlarmFlag(true, false, p), sounds := e.sounds + [Loop(p)])
  }

  /** `startSilentAlarm()`: the flag without a sound, for when the hub plays it. */
  function SilentAlarmStarted(e: Effects): Effects {
    if e.alarm.isActive then e else e.(alarm := AlarmFlag(true, true, "silent"))
  }

  /** `clearSilentAlarmIfAny()`. */
  function SilentAlarmCleared(e: Effects): Effects {
    if !e.alarm.isActive || !e.alarm.silent then e else e.(alarm := Inactive)
  }

  /** `dismissAlarm()`: the loop is stopped, the flag cleared and the hub told to stop its alarm. */
  function AlarmDismissed(e: Effects): Effects {
    if !e.alarm.isActive then e
    else e.(alarm := Inactive, sounds := e.sounds + [StopSound], hubDismissals := e.hubDismissals + 1)
  }

  /** `playSound(preset)`. */
  function SoundPlayed(e: Effects, preset: string): Effects {
    e.(sounds := e.sounds + [PlayOnce(ValidPreset(preset))])
  }

  /**
    Starting either alarm while one is active changes nothing; dismissing
    while none is active changes nothing; clearing touches only an active
    silent alarm; and a dismissed alarm is inactive with its sound stopped
    and one dismissal sent to the hub.
   */
  lemma AlarmGuards(e: Effects, preset: string)
    ensures e.alarm.isActive ==> AlarmStarted(e, preset) == e && SilentAlarmStarted(e) == e
    ensures !e.alarm.isActive ==> AlarmDismissed(e) == e
    ensures !(e.alarm.isActive && e.alarm.silent) ==> SilentAlarmCleared(e) == e
    ensures e.alarm.isActive && e.alarm.silent ==> !SilentAlarmCleared(e).alarm.isActive
    ensures !AlarmDismissed(e).alarm.isActive
    ensures e.alarm.isActive ==> AlarmDismissed(e).sounds == e.sounds + [StopSound]
    ensures e.alarm.isActive ==> AlarmDismissed(e).hubDismissals == e.hubDismissals + 1
    ensures !e.alarm.isActive ==> AlarmStarted(e, preset).alarm == AlarmFlag(true, false, ValidPreset(preset))
  {
  }

  /** Starting an alarm and dismissing it leaves the flag inactive and the loop stopped after it started. */
  lemma StartThenDismiss(e: Effects, preset: string)
    requires !e.alarm.isActive
    ensures var d := AlarmDismissed(AlarmStarted(e, preset));
      !d.alarm.isActive && d.sounds == e.sounds + [Loop(ValidPreset(preset)), StopSound]
      && d.hubDismissals == e.hubDismissals + 1
  {
  }

  // ------------------------------------------------------ completion

  /** `siteNames` of the notification text. */
  const SiteNames: map<string, string> := map["claude" := "Claude", "chatgpt" := "ChatGPT", "gemini" := "Gemini", "grok" := "Grok"]

  /** The fixed end of every completion notification. */
  const FinishedSuffix := " has finished responding"

  /** `displayName || siteNames[site] || site || 'AI'`, then " has finished responding". */
  function NotificationText(displayName: Option<string>, site: string): (text: string)
    ensures |text| > |FinishedSuffix| && text[|text| - |FinishedSuffix|..] == FinishedSuffix
  {
    var name :=
      if displayName.Some? && displayName.value != "" then displayName.value
      else if site in SiteNames && SiteNames[site] != "" then SiteNames[site]
      else if site != "" then site
      else "AI";
    name + FinishedSuffix
  }

  /**
    The name in front of the suffix: a non-empty display name first, then
    the site's own name for the four built-in sites, then the site id, and
    "AI" when there is nothing else.
   */
  lemma NotificationTextName(displayName: Option<string>, site: string)
    ensures displayName.Some? && displayName.value != "" ==>
      NotificationText(displayName, site) == displayName.value + FinishedSuffix
    ensures !(displayName.Some? && displayName.value != "") && site in SiteNames ==>
      NotificationText(displayName, site) == SiteNames[site] + FinishedSuffix
    ensures !(displayName.Some? && displayName.value != "") && site !in SiteNames && site != "" ==>
      NotificationText(displayName, site) == site + FinishedSuffix
    ensures !(displayName.Some? && displayName.value != "") && site == "" ==>
      NotificationText(displayName, site) == "AI" + FinishedSuffix
  {
    if !(displayName.Some? && displayName.value != "") && site in SiteNames {
      SiteNamesNonEmpty(site);
    }
  }

  /** Every built-in site name is non-empty, so `siteNames[site]` is never skipped for one of them. */
  lemma SiteNamesNonEmpty(site: string)
    requires site in SiteNames
    ensures SiteNames[site] != ""
  {
  }

  /** The stored settings `handleCompletion` reads. */
  datatype Stored = Stored(
    enabled: Option<bool>,
    doNotDisturb: bool,
    notifications: Option<map<string, Setting>>,
    siteSettings: map<string, map<string, Setting>>)

  /** What happens to the sound once the hub is known to be up. */
  function SoundHandled(e: Effects, prefs: Prefs, hub: HubStatus): Effects {
    if UseHubSound(hub) then
      if prefs.alarm then SilentAlarmStarted(e) else e
    else
      var cleared := SilentAlarmCleared(e);
      if prefs.alarm then AlarmStarted(cleared, prefs.soundPreset)
      else if prefs.sound then SoundPlayed(cleared, prefs.soundPreset)
      else cleared
  }

  /** `handleCompletion(message)` for `site` and `displayName`. */
  function CompletionHandled(e: Effects, site: string, displayName: Option<string>, stored: Stored, hub: HubStatus): Effects {
    if stored.enabled == Some(false) || stored.doNotDisturb then e
    else
      var recorded := e.(recorded := e.recorded + [site]);
      var config := SiteConfig(stored.siteSettings, site);
      if SiteOff(config) || !hub.available then recorded
      else
        var prefs := PrefsFor(config, stored.notifications);
        var shown := if prefs.desktop then recorded.(shown := recorded.shown + [NotificationText(displayName, site)]) else recorded;
        SoundHandled(shown, prefs, hub)
  }

  /**
    Disabled or Do Not Disturb: nothing at all, not even the record. A site
    that is off, or a hub that is down: only the record, with no
    notification, sound or alarm.
   */
  lemma CompletionGates(e: Effects, site: string, displayName: Option<string>, stored: Stored, hub: HubStatus)
    ensures stored.enabled == Some(false) || stored.doNotDisturb ==> CompletionHandled(e, site, displayName, stored, hub) == e
    ensures !(stored.enabled == Some(false) || stored.doNotDisturb)
            && (SiteOff(SiteConfig(stored.siteSettings, site)) || !hub.available)
            ==> CompletionHandled(e, site, displayName, stored, hub) == e.(recorded := e.recorded + [site])
  {
  }

  /**
    Past the gates the completion is recorded, the desktop notification is
    shown exactly when the preferences ask for it, and the sound is left to
    the hub or played locally as the hub's audio status says.
   */
  lemma CompletionNotifies(e: Effects, site: string, displayName: Option<string>, stored: Stored, hub: HubStatus)
    requires !(stored.enabled == Some(false) || stored.doNotDisturb)
    requires !SiteOff(SiteConfig(stored.siteSettings, site)) && hub.available
    ensures var prefs := PrefsFor(SiteConfig(stored.siteSettings, site), stored.notifications);
      var r := CompletionHandled(e, site, displayName, stored, hub);
      r.recorded == e.recorded + [site]
      && r.shown == e.shown + (if prefs.desktop then [NotificationText(displayName, site)] else [])
      && (UseHubSound(hub) ==> r.sounds == e.sounds)
  {
  }

  /**
    With the hub playing the sound, the worker plays nothing itself and only
    sets a silent alarm, and only when the preferences ask for an alarm.
   */
  lemma HubSoundPath(e: Effects, prefs: Prefs, hub: HubStatus)
    requires UseHubSound(hub)
    ensures var r := SoundHandled(e, prefs, hub);
      r.sounds == e.sounds
      && (r.alarm != e.alarm ==> prefs.alarm && r.alarm == AlarmFlag(true, true, "silent"))
      && (prefs.alarm ==> r.alarm.isActive)
  {
  }

  /**
    Playing locally, the worker sends at most one sound: the alarm's loop
    when an alarm is asked for (and none is running), else the single
    chime when sound is on, never both; and a leftover silent alarm is
    cleared first.
   */
  lemma LocalSoundPath(e: Effects, prefs: Prefs, hub: HubStatus)
    requires !UseHubSound(hub)
    ensures var r := SoundHandled(e, prefs, hub);
      var cleared := SilentAlarmCleared(e);
      |e.sounds| <= |r.sounds| <= |e.sounds| + 1
      && r.sounds[..|e.sounds|] == e.sounds
      && (|r.sounds| == |e.sounds| + 1 ==>
            (r.sounds[|e.sounds|].Loop? <==> prefs.alarm)
            && (r.sounds[|e.sounds|].PlayOnce? <==> !prefs.alarm && prefs.sound))
      && (prefs.alarm && !cleared.alarm.isActive ==> r.sounds == e.sounds + [Loop(ValidPreset(prefs.soundPreset))])
      && (!prefs.alarm && prefs.sound ==> r.sounds == e.sounds + [PlayOnce(ValidPreset(prefs.soundPreset))])
      && (!prefs.alarm ==> !(r.alarm.isActive && r.alarm.silent))
  {
  }

  /** The worker's stored alarm flag and its logs. */
  class Background {
    var alarm: AlarmFlag
    var sounds: seq<SoundMessage>
    var shown: seq<string>
    var recorded: seq<string>
    var hubDismissals: nat

    function State(): Effects
      reads this
    {
      Effects(alarm, sounds, shown, recorded, hubDismissals)
    }

    constructor()
      ensures State() == Effects(Inactive, [], [], [], 0)
    {
      alarm, sounds, shown, recorded, hubDismissals := Inactive, [], [], [], 0;
    }

    method StartAlarm(preset: string)
      modifies this
      ensures State() == AlarmStarted(old(State()), preset)
    {
      if alarm.isActive {
        return;
      }
      var p := if preset in ValidPresets then preset else "chime";
      alarm := AlarmFlag(true, false, p);
      sounds := sounds + [Loop(p)];
    }

    method StartSilentAlarm()
      modifies this
      ensures State() == SilentAlarmStarted(old(State()))
    {
      if alarm.isActive {
        return;
      }
      alarm := AlarmFlag(true, true, "silent");
    }

    method ClearSilentAlarmIfAny()
      modifies this
      ensures State() == SilentAlarmCleared(old(State()))
    {
      if !alarm.isActive || !alarm.silent {
        return;
      }
      alarm := Inactive;
    }

    method DismissAlarm()
      modifies this
      ensures State() == AlarmDismissed(old(State()))
    {
      if !alarm.isActive {
        return;
      }
      sounds := sounds + [StopSound];
      alarm := Inactive;
      hubDismissals := hubDismissals + 1;
    }

    method PlaySound(preset: string)
      modifies this
      ensures State() == SoundPlayed(old(State()), preset)
    {
      var p := if preset in ValidPresets then preset else "chime";
      sounds := sounds + [PlayOnce(p)];
    }

    method HandleCompletion(site: string, displayName: Option<string>, stored: Stored, hub: HubStatus)
      modifies this
      ensures State() == CompletionHandled(old(State()), site, displayName, stored, hub)
    {
      if stored.enabled == Some(false) || stored.doNotDisturb {
        return;
      }
      recorded := recorded + [site];
      var config := SiteConfig(stored.siteSettings, site);
      if SiteOff(config) {
        return;
      }
      var prefs := PrefsFor(config, stored.notifications);
      if !hub.available {
        return;
      }
      if prefs.desktop {
        shown := shown + [NotificationText(displayName, site)];
      }
      if UseHubSound(hub) {
        if prefs.alarm {
          StartSilentAlarm();
        }
      } else {
        ClearSilentAlarmIfAny();
        if prefs.alarm {
          StartAlarm(prefs.soundPreset);
        } else if prefs.sound {
          PlaySound(prefs.soundPreset);
        }
      }
    }
  }
}
