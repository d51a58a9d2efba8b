/**
  Values of the hub's in-memory state (server/index.js) and the pure
  decisions it takes on them: the completion policy, the stale-session rule,
  the per-event session and source-entry upserts and the client counters.
 */
module HubPolicy {
  import opened Options
  import opened Strings
  import opened DndSchedule
  import opened HubSettings

  const MaxCompletions: nat := 50
  const StaleSessionMs: int := 15 * 60 * 1000
  const StaleReadyMs: int := 3 * 60 * 1000

  /** A session; `lastActivity` is a millisecond timestamp, None for `null`. */
  datatype Session = Session(status: string, lastActivity: Option<int>, source: string, displayName: string)

  datatype Completion = Completion(id: int, source: string, timestamp: int, duration: Option<int>)

  datatype Alarm = Alarm(isActive: bool, source: Option<string>, startTime: Option<int>)

  const NoAlarm := Alarm(false, None, None)

  /** A connected dashboard: its connection number and its `isAudioReady` flag. */
  datatype Client = Client(id: nat, audioReady: bool)

  /** The messages the hub broadcasts to every connected dashboard. */
  datatype Message =
    | SessionUpdate(source: string, status: string, timestamp: int)
    | CompletionMsg(completion: Completion)
    | AlarmStart(alarmSource: string, preset: string, volume: real)
    | AlarmStop
    | PlaySound(requestId: Option<string>, soundPreset: string, soundVolume: real)
    | ClientsUpdate(dashboards: nat, audioReady: nat)
    | SettingsUpdated(settings: Settings)

  /** A system sound played by the hub itself: straight away, or when an acknowledgement timed out. */
  datatype Fallback = Immediate | AfterTimeout(id: string)

  /** What the hub reads from the outside while it handles one event: the clock, the local minute of the day, a random suffix. */
  datatype Env = Env(now: int, minuteOfDay: int, random: string)

  /** HTTP status of a REST handler: 200 or 400. */
  datatype Response = Ok | BadRequest

  /** `${Date.now()}-${random}`: the id of one sound request. */
  function SoundRequestId(env: Env): string {
    IntToString(env.now) + "-" + env.random
  }

  // ----------------------------------------------------- completion policy

  datatype Action = AlarmAction | SoundAction | Quiet

  datatype Outcome = Suppressed | Notify(desktop: bool, action: Action)

  /** A stored entry for the source whose `enabled` is falsy. */
  predicate SourceDisabled(settings: Settings, source: string) {
    source in settings.sources && !IsTrue(settings.sources[source].enabled)
  }

  /** The decision `handleCompletion` takes for one completion. */
  function CompletionOutcome(settings: Settings, source: string, origin: string, minuteOfDay: int): (o: Outcome)
    ensures o.Suppressed? <==>
      (!settings.enabled || settings.doNotDisturb || IsWithinDndSchedule(settings.dndSchedule, minuteOfDay)
       || SourceDisabled(settings, source))
    ensures o.Notify? ==> (o.desktop <==> settings.notifications.desktop && origin != "extension")
    ensures o.Notify? ==> (o.action == AlarmAction <==> settings.notifications.alarm)
    ensures o.Notify? ==> (o.action == SoundAction <==> !settings.notifications.alarm && settings.notifications.sound)
  {
    if !settings.enabled || settings.doNotDisturb || IsWithinDndSchedule(settings.dndSchedule, minuteOfDay) then Suppressed
    else if SourceDisabled(settings, source) then Suppressed
    else
      var n := settings.notifications;
      Notify(n.desktop && origin != "extension", if n.alarm then AlarmAction else if n.sound then SoundAction else Quiet)
  }

  /** A source with no stored entry is never suppressed on its own account. */
  lemma UnknownSourceNotifies(settings: Settings, source: string, origin: string, minuteOfDay: int)
    requires source !in settings.sources
    requires settings.enabled && !settings.doNotDisturb && !IsWithinDndSchedule(settings.dndSchedule, minuteOfDay)
    ensures CompletionOutcome(settings, source, origin, minuteOfDay).Notify?
  {
  }

  /** `{ id: Date.now(), source, timestamp, duration: duration || null }`. */
  function NewCompletion(source: string, duration: Option<int>, env: Env): (c: Completion)
    ensures c.source == source && c.id == env.now && c.timestamp == env.now
    ensures c.duration.Some? ==> c.duration.value != 0
  {
    Completion(env.now, source, env.now, if duration == Some(0) then None else duration)
  }

  /** The PLAY_SOUND broadcast of `playSound`: only when some dashboard can play audio. */
  function SoundMessages(settings: Settings, audioReady: nat, id: string): (m: seq<Message>)
    ensures |m| <= 1
  {
    if audioReady > 0 then [PlaySound(Some(id), settings.notifications.soundPreset, settings.notifications.alarmVolume)]
    else []
  }

  /** What the alarm or the one-shot sound of a completion of `source` broadcasts. */
  function ActionMessages(action: Action, source: string, settings: Settings, audioReady: nat, id: string): (m: seq<Message>)
    ensures |m| <= 1
    ensures forall k :: 0 <= k < |m| ==> (m[k].AlarmStart? <==> action == AlarmAction)
  {
    match action
    case AlarmAction => [AlarmStart(source, settings.notifications.soundPreset, settings.notifications.alarmVolume)]
    case SoundAction => SoundMessages(settings, audioReady, id)
    case Quiet => []
  }

  /** Everything `handleCompletion` broadcasts for one completion, in order. */
  function CompletionMessages(o: Outcome, c: Completion, settings: Settings, audioReady: nat, id: string): (m: seq<Message>)
    ensures o.Suppressed? <==> m == []
    ensures o.Notify? ==> m[0] == CompletionMsg(c)
  {
    match o
    case Suppressed => []
    case Notify(_, action) => [CompletionMsg(c)] + ActionMessages(action, c.source, settings, audioReady, id)
  }

  /** Alarm and one-shot sound are never both started for one completion. */
  lemma AlarmOrSoundNeverBoth(o: Outcome, c: Completion, settings: Settings, audioReady: nat, id: string)
    ensures var m := CompletionMessages(o, c, settings, audioReady, id);
      !(exists i, j :: 0 <= i < |m| && 0 <= j < |m| && m[i].AlarmStart? && m[j].PlaySound?)
  {
  }

  // -------------------------------------------------------- stale sessions

  /** `new Date(lastActivity).getTime()`, or 0 when there is none; a zero timestamp also counts as none. */
  function LastMillis(s: Session): int {
    s.lastActivity.GetOr(0)
  }

  /** Whether `refreshStaleSessions` demotes this session to idle at time `now`. */
  predicate Demotes(s: Session, now: int) {
    LastMillis(s) != 0
    && ((s.status == "generating" && now - LastMillis(s) > StaleSessionMs)
        || ((s.status == "complete" || s.status == "ready") && now - LastMillis(s) > StaleReadyMs))
  }

  /** The session after the sweep. */
  function Refreshed(s: Session, now: int): (r: Session)
    ensures r == s || r == s.(status := "idle")
  {
    if Demotes(s, now) then s.(status := "idle") else s
  }

  /** The sweep only ever demotes a busy or finished session that has been quiet for longer than its threshold. */
  lemma RefreshedOnlyDemotesStale(s: Session, now: int)
    ensures Refreshed(s, now) != s ==>
      s.lastActivity.Some? && s.lastActivity.value != 0
      && (s.status == "generating" ==> now - s.lastActivity.value > StaleSessionMs)
      && (s.status != "generating" ==>
            (s.status == "complete" || s.status == "ready") && now - s.lastActivity.value > StaleReadyMs)
    ensures s.lastActivity.None? ==> Refreshed(s, now) == s
    ensures s.status !in {"generating", "complete", "ready"} ==> Refreshed(s, now) == s
  {
  }

  /** The SESSION_UPDATE broadcasts of one sweep, in key order. */
  function DemotionMessages(order: seq<string>, sessions: map<string, Session>, now: int): (m: seq<Message>)
    requires forall id :: id in order ==> id in sessions
    ensures |m| <= |order|
    ensures forall k :: 0 <= k < |m| ==> m[k].SessionUpdate? && m[k].status == "idle"
  {
    if order == [] then []
    else
      var last := order[|order| - 1];
      DemotionMessages(order[..|order| - 1], sessions, now)
      + (if Demotes(sessions[last], now) then [SessionUpdate(last, "idle", now)] else [])
  }

  // ------------------------------------------------------- event upserts

  /** The stored entry for `id`, or `{}`. */
  function EntryOf(sources: map<string, SourceEntry>, id: string): SourceEntry {
    if id in sources then sources[id] else EmptyEntry
  }

  /** The session after `POST /api/event` for `id`. */
  function EventSession(sessions: map<string, Session>, id: string, status: string, displayName: string, now: int): (s: Session)
    ensures s.status == status && s.lastActivity == Some(now)
    ensures displayName != "" ==> s.displayName == displayName
    ensures id in sessions && displayName == "" ==> s.displayName == sessions[id].displayName
    ensures id !in sessions && displayName == "" ==> s.displayName == id
  {
    var base := if id in sessions then sessions[id]
                else Session("idle", None, "Chrome Extension", if displayName != "" then displayName else id);
    base.(status := status, lastActivity := Some(now),
          displayName := if displayName != "" then displayName else base.displayName)
  }

  /** `origin || (Array.isArray(domains) && domains.length)`. */
  predicate TouchesOrigin(origin: string, domains: Option<seq<string>>) {
    origin != "" || (domains.Some? && |domains.value| > 0)
  }

  /** `settings.sources` after `POST /api/event` for `id`; `isNew` is first sight of the session. */
  function EventSources(sources: map<string, SourceEntry>, id: string, isNew: bool, displayName: string,
                        origin: string, domains: Option<seq<string>>): (r: map<string, SourceEntry>)
    ensures r.Keys == sources.Keys + (if isNew || displayName != "" || TouchesOrigin(origin, domains) then {id} else {})
    ensures forall other :: other != id && other in sources ==> r[other] == sources[other]
  {
    var s1 := if isNew then sources[id := EmptyEntry.(enabled := Some(true))] else sources;
    var s2 := if id in s1 && IsTrue(s1[id].hidden) then s1[id := s1[id].(hidden := Some(false))] else s1;
    var s3 := if displayName != "" then s2[id := EntryOf(s2, id).(displayName := Some(displayName))] else s2;
    if TouchesOrigin(origin, domains) then
      var e := EntryOf(s3, id);
      s3[id := e.(origin := if origin != "" then Some(origin) else e.origin,
                  domains := if domains.Some? then domains else e.domains)]
    else s3
  }

  /** After an event the source is never hidden, and on first sight its stored entry was replaced by `{enabled: true}`. */
  lemma EventSourceEntry(sources: map<string, SourceEntry>, id: string, isNew: bool, displayName: string,
                         origin: string, domains: Option<seq<string>>)
    ensures var r := EventSources(sources, id, isNew, displayName, origin, domains);
      (id in r ==> !IsTrue(r[id].hidden))
      && (isNew ==> id in r && r[id].enabled == Some(true) && r[id].hidden.None? && r[id].color.None?
                    && r[id].usageEnabled.None?)
      && (displayName != "" ==> r[id].displayName == Some(displayName))
      && (origin != "" ==> r[id].origin == Some(origin))
      && (domains.Some? && (origin != "" || |domains.value| > 0) ==> r[id].domains == domains)
  {
  }

  // ---------------------------------------------------------------- clients

  /** Number of clients flagged ready, counted over a prefix-closed recursion. */
  function ReadyCount(cs: seq<Client>): (n: nat)
    ensures n <= |cs|
  {
    if cs == [] then 0
    else ReadyCount(cs[..|cs| - 1]) + (if cs[|cs| - 1].audioReady then 1 else 0)
  }

  /** Connection numbers strictly increasing: no connection appears twice. */
  predicate Ascending(cs: seq<Client>) {
    forall i, j :: 0 <= i < j < |cs| ==> cs[i].id < cs[j].id
  }

  /** `clients.delete(ws)`. */
  function Without(cs: seq<Client>, id: nat): (r: seq<Client>)
    ensures forall c :: c in r <==> c in cs && c.id != id
    ensures |r| <= |cs|
  {
    if cs == [] then []
    else if cs[0].id == id then Without(cs[1..], id)
    else [cs[0]] + Without(cs[1..], id)
  }

  lemma {:induction false} WithoutAscending(cs: seq<Client>, id: nat)
    requires Ascending(cs)
    ensures Ascending(Without(cs, id))
    decreases |cs|
  {
    if cs != [] {
      WithoutAscending(cs[1..], id);
      var rest := Without(cs[1..], id);
      forall k | 0 <= k < |rest| ensures cs[0].id < rest[k].id {
        assert rest[k] in cs[1..];
      }
    }
  }

  /** `ws.isAudioReady = ready` for the client with that connection number. */
  function WithReady(cs: seq<Client>, id: nat, ready: bool): (r: seq<Client>)
    ensures |r| == |cs|
    ensures forall k :: 0 <= k < |cs| ==> r[k] == (if cs[k].id == id then cs[k].(audioReady := ready) else cs[k])
  {
    seq(|cs|, k requires 0 <= k < |cs| => if cs[k].id == id then cs[k].(audioReady := ready) else cs[k])
  }

  /** A new connection adds one to the count exactly when it is ready. */
  lemma ReadyCountAppend(cs: seq<Client>, c: Client)
    ensures ReadyCount(cs + [c]) == ReadyCount(cs) + (if c.audioReady then 1 else 0)
  {
    assert (cs + [c])[..|cs|] == cs;
  }

  /** The ready count is the size of the set of ready connections. */
  lemma {:induction false} ReadyCountIsReadySet(cs: seq<Client>)
    requires Ascending(cs)
    ensures ReadyCount(cs) == |set k | 0 <= k < |cs| && cs[k].audioReady :: cs[k].id|
    decreases |cs|
  {
    if cs != [] {
      var init := cs[..|cs| - 1];
      var last := cs[|cs| - 1];
      ReadyCountIsReadySet(init);
      var before := set k | 0 <= k < |init| && init[k].audioReady :: init[k].id;
      var after := set k | 0 <= k < |cs| && cs[k].audioReady :: cs[k].id;
      assert last.id !in before;
      if last.audioReady {
        assert after == before + {last.id};
      } else {
        assert after == before;
      }
    }
  }
}
