/**
  The hub's settings object and the field-by-field merge that server/index.js
  applies when it loads the settings file, on `POST /api/settings` and on an
  `UPDATE_SETTINGS` WebSocket message: top-level fields are replaced, the
  `dndSchedule` and `notifications` objects are merged key by key, and the
  `sources` object is merged per source id (an entry present in the update
  replaces the stored entry whole).
 */
module HubSettings {
  import opened Options
  import opened DndSchedule

  /** Per-source settings; every key may be absent from the stored object. */
  datatype SourceEntry = SourceEntry(
    enabled: Option<bool>,
    displayName: Option<string>,
    color: Option<string>,
    origin: Option<string>,
    domains: Option<seq<string>>,
    hidden: Option<bool>,
    usageEnabled: Option<bool>)

  const EmptyEntry := SourceEntry(None, None, None, None, None, None, None)

  datatype Notifications = Notifications(
    desktop: bool,
    sound: bool,
    soundPreset: string,
    alarm: bool,
    alarmVolume: real)

  datatype Settings = Settings(
    enabled: bool,
    doNotDisturb: bool,
    dndSchedule: Schedule,
    notifications: Notifications,
    sources: map<string, SourceEntry>)

  /** The built-in defaults the hub starts from. */
  const Defaults := Settings(
    true, false,
    Schedule(false, "22:00", "07:00"),
    Notifications(true, true, "chime", false, 0.3),
    map[])

  /** A partial `dndSchedule` object: only the keys it carries are applied. */
  datatype SchedulePatch = SchedulePatch(enabled: Option<bool>, start: Option<string>, end: Option<string>)

  /** A partial `notifications` object. */
  datatype NotificationsPatch = NotificationsPatch(
    desktop: Option<bool>,
    sound: Option<bool>,
    soundPreset: Option<string>,
    alarm: Option<bool>,
    alarmVolume: Option<real>)

  /** A settings update as sent by a client, or the persisted settings file. */
  datatype SettingsPatch = SettingsPatch(
    enabled: Option<bool>,
    doNotDisturb: Option<bool>,
    dndSchedule: Option<SchedulePatch>,
    notifications: Option<NotificationsPatch>,
    sources: Option<map<string, SourceEntry>>)

  const NoChange := SettingsPatch(None, None, None, None, None)

  /** `{ ...schedule, ...(patch || {}) }`. */
  function MergeSchedule(s: Schedule, p: Option<SchedulePatch>): (r: Schedule)
    ensures p.None? ==> r == s
    ensures p.Some? ==> (r.enabled == p.value.enabled.GetOr(s.enabled)
      && r.start == p.value.start.GetOr(s.start) && r.end == p.value.end.GetOr(s.end))
  {
    match p
    case None => s
    case Some(q) => Schedule(q.enabled.GetOr(s.enabled), q.start.GetOr(s.start), q.end.GetOr(s.end))
  }

  /** `{ ...notifications, ...(patch || {}) }`. */
  function MergeNotifications(n: Notifications, p: Option<NotificationsPatch>): (r: Notifications)
    ensures p.None? ==> r == n
  {
    match p
    case None => n
    case Some(q) =>
      Notifications(q.desktop.GetOr(n.desktop), q.sound.GetOr(n.sound), q.soundPreset.GetOr(n.soundPreset),
                    q.alarm.GetOr(n.alarm), q.alarmVolume.GetOr(n.alarmVolume))
  }

  /** `{ ...sources, ...(patch || {}) }`: ids in the update replace their entries whole. */
  function MergeSources(s: map<string, SourceEntry>, p: Option<map<string, SourceEntry>>): (r: map<string, SourceEntry>)
    ensures forall id :: id in r <==> id in s || (p.Some? && id in p.value)
    ensures forall id :: id in r && p.Some? && id in p.value ==> r[id] == p.value[id]
    ensures forall id :: id in s && (p.None? || id !in p.value) ==> id in r && r[id] == s[id]
  {
    match p
    case None => s
    case Some(q) => s + q
  }

  /** The three-level merge shared by the settings file load, `POST /api/settings` and `UPDATE_SETTINGS`. */
  function Merge(s: Settings, p: SettingsPatch): (r: Settings)
  {
    Settings(
      p.enabled.GetOr(s.enabled),
      p.doNotDisturb.GetOr(s.doNotDisturb),
      MergeSchedule(s.dndSchedule, p.dndSchedule),
      MergeNotifications(s.notifications, p.notifications),
      MergeSources(s.sources, p.sources))
  }

  /** Settings at start-up: the defaults, merged with the settings file when one was read. */
  function Loaded(persisted: Option<SettingsPatch>): (r: Settings)
    ensures persisted.None? ==> r == Defaults
  {
    match persisted
    case None => Defaults
    case Some(p) => Merge(Defaults, p)
  }

  /** Top-level fields absent from the update keep their old values; present ones are replaced. */
  lemma MergeTopLevel(s: Settings, p: SettingsPatch)
    ensures p.enabled.None? ==> Merge(s, p).enabled == s.enabled
    ensures p.enabled.Some? ==> Merge(s, p).enabled == p.enabled.value
    ensures p.doNotDisturb.None? ==> Merge(s, p).doNotDisturb == s.doNotDisturb
    ensures p.doNotDisturb.Some? ==> Merge(s, p).doNotDisturb == p.doNotDisturb.value
  {
  }

  /** A notifications update changes exactly the keys it carries. */
  lemma MergeNotificationsKeyByKey(s: Settings, q: NotificationsPatch)
    ensures var n := Merge(s, NoChange.(notifications := Some(q))).notifications;
      (q.desktop.None? ==> n.desktop == s.notifications.desktop)
      && (q.sound.None? ==> n.sound == s.notifications.sound)
      && (q.soundPreset.None? ==> n.soundPreset == s.notifications.soundPreset)
      && (q.alarm.None? ==> n.alarm == s.notifications.alarm)
      && (q.alarmVolume.None? ==> n.alarmVolume == s.notifications.alarmVolume)
      && (q.desktop.Some? ==> n.desktop == q.desktop.value)
      && (q.sound.Some? ==> n.sound == q.sound.value)
      && (q.soundPreset.Some? ==> n.soundPreset == q.soundPreset.value)
      && (q.alarm.Some? ==> n.alarm == q.alarm.value)
      && (q.alarmVolume.Some? ==> n.alarmVolume == q.alarmVolume.value)
  {
  }

  /** An id not mentioned in the update keeps its entry; a mentioned one gets the update's entry whole. */
  lemma MergeSourcesPerId(s: Settings, p: SettingsPatch, id: string)
    ensures id in s.sources && (p.sources.None? || id !in p.sources.value)
      ==> id in Merge(s, p).sources && Merge(s, p).sources[id] == s.sources[id]
    ensures p.sources.Some? && id in p.sources.value
      ==> Merge(s, p).sources[id] == p.sources.value[id]
    ensures id in Merge(s, p).sources ==> id in s.sources || (p.sources.Some? && id in p.sources.value)
  {
  }

  /** The empty update changes nothing. */
  lemma MergeNoChange(s: Settings)
    ensures Merge(s, NoChange) == s
  {
  }

  /** Applying the same update twice is the same as applying it once. */
  lemma MergeIdempotent(s: Settings, p: SettingsPatch)
    ensures Merge(Merge(s, p), p) == Merge(s, p)
  {
    var once := Merge(s, p);
    if p.sources.Some? {
      assert once.sources + p.sources.value == once.sources;
    }
  }
}
