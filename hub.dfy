module Hub {
  import opened Options
  import opened Strings
  import opened SourceNames
  import opened DndSchedule
  import opened HubSettings
  import opened HubPolicy
  import opened History

  // ------------------------------------------------ acknowledgement tables

  /**
    `pendingAudioAcks` with its 800 ms timers made explicit, the log of
    system sounds the hub plays itself (`playSystemSoundFallback`), and the
    ghost history of request ids: those handed out, those acknowledged while
    pending, and whether no id was ever handed out twice.
   */
  datatype AckTables = AckTables(
    pending: map<string, nat>,
    timers: map<nat, string>,
    nextTimer: nat,
    fallbacks: seq<Fallback>,
    issued: set<string>,
    acked: set<string>,
    idsFresh: bool)

  const NoAcks := AckTables(map[], map[], 0, [], {}, {}, true)

  /** `pendingAudioAcks.set(id, setTimeout(..., 800))`: timer `nextTimer` is armed for `id`. */
  function Registered(t: AckTables, id: string): AckTables {
    t.(pending := t.pending[id := t.nextTimer], timers := t.timers[t.nextTimer := id], nextTimer := t.nextTimer + 1,
       issued := t.issued + {id}, idsFresh := t.idsFresh && id !in t.issued)
  }

  /** The system sound played straight away because no dashboard can play audio. */
  function FellBack(t: AckTables): AckTables {
    t.(fallbacks := t.fallbacks + [Immediate])
  }

  /** `AUDIO_PLAYED` for `id`: a pending id loses its entry and its timer; anything else changes nothing. */
  function Acked(t: AckTables, id: string): AckTables {
    if id != "" && id in t.pending
    then t.(pending := t.pending - {id}, timers := t.timers - {t.pending[id]}, acked := t.acked + {id})
    else t
  }

  /** Timer `token` fires: an armed one drops its id and plays the fallback; a cleared one does nothing. */
  function TimedOut(t: AckTables, token: nat): AckTables {
    if token in t.timers
    then var id := t.timers[token];
      t.(pending := t.pending - {id}, timers := t.timers - {token}, fallbacks := t.fallbacks + [AfterTimeout(id)])
    else t
  }

  /** No two timeouts ever fired for the same request id. */
  predicate FallbacksDistinct(f: seq<Fallback>) {
    forall i, j :: 0 <= i < j < |f| && f[i].AfterTimeout? && f[j].AfterTimeout? ==> f[i].id != f[j].id
  }

  /** Ids whose acknowledgement timer fired. */
  function FiredIds(f: seq<Fallback>): set<string> {
    set i | 0 <= i < |f| && f[i].AfterTimeout? :: f[i].id
  }

  lemma FiredIdsAppend(f: seq<Fallback>, x: Fallback)
    ensures FiredIds(f + [x]) == FiredIds(f) + (if x.AfterTimeout? then {x.id} else {})
  {
    var g := f + [x];
    forall id | id in FiredIds(g) ensures id in FiredIds(f) || (x.AfterTimeout? && id == x.id) {
      var i :| 0 <= i < |g| && g[i].AfterTimeout? && g[i].id == id;
      if i < |f| {
        assert f[i] == g[i];
      }
    }
    forall id | id in FiredIds(f) ensures id in FiredIds(g) {
      var i :| 0 <= i < |f| && f[i].AfterTimeout? && f[i].id == id;
      assert g[i] == f[i];
    }
    if x.AfterTimeout? {
      assert g[|f|] == x;
    }
  }

  /** The timer table and the pending table describe the same requests, one timer per id. */
  ghost predicate AckTablesMatch(pending: map<string, nat>, timers: map<nat, string>) {
    (forall t :: t in timers ==> timers[t] in pending && pending[timers[t]] == t)
    && (forall id :: id in pending ==> pending[id] in timers && timers[pending[id]] == id)
  }

  /**
    The bookkeeping of the acknowledgement protocol. While no request id was
    handed out twice: one armed timer per pending id, no armed timer for an id
    that was acknowledged or already fell back, no id falls back twice, and no
    acknowledged id ever fell back.
   */
  ghost predicate AckInvariant(t: AckTables) {
    (forall k :: k in t.timers ==> k < t.nextTimer && t.timers[k] in t.issued)
    && (forall id :: id in t.pending ==> id in t.issued)
    && t.acked <= t.issued && FiredIds(t.fallbacks) <= t.issued
    && (t.idsFresh ==>
          AckTablesMatch(t.pending, t.timers)
          && (forall k :: k in t.timers ==> t.timers[k] !in t.acked && t.timers[k] !in FiredIds(t.fallbacks))
          && FallbacksDistinct(t.fallbacks)
          && t.acked !! FiredIds(t.fallbacks))
  }

  /** Registering a request keeps the bookkeeping; the new id is pending and armed. */
  lemma RegisterKeepsInvariant(t: AckTables, id: string)
    requires AckInvariant(t)
    ensures AckInvariant(Registered(t, id))
    ensures id in Registered(t, id).pending && Registered(t, id).fallbacks == t.fallbacks
  {
    if t.idsFresh && id !in t.issued {
      var p, tm := t.pending[id := t.nextTimer], t.timers[t.nextTimer := id];
      assert id !in t.pending;
      forall k | k in tm ensures tm[k] in p && p[tm[k]] == k {
        if k != t.nextTimer {
          assert t.timers[k] != id;
        }
      }
    }
  }

  /** Playing the fallback at once keeps the bookkeeping and registers nothing. */
  lemma ImmediateKeepsInvariant(t: AckTables)
    requires AckInvariant(t)
    ensures AckInvariant(FellBack(t))
    ensures FellBack(t).pending == t.pending && FiredIds(FellBack(t).fallbacks) == FiredIds(t.fallbacks)
  {
    FiredIdsAppend(t.fallbacks, Immediate);
  }

  /**
    An acknowledgement keeps the bookkeeping. A pending id leaves the table
    and, while ids are fresh, no armed timer is left that could play its
    fallback; an unknown or empty id changes nothing.
   */
  lemma AckKeepsInvariant(t: AckTables, id: string)
    requires AckInvariant(t)
    ensures AckInvariant(Acked(t, id))
    ensures id != "" ==> id !in Acked(t, id).pending
    ensures id != "" && t.idsFresh ==> forall k :: k in Acked(t, id).timers ==> Acked(t, id).timers[k] != id
    ensures id !in t.pending ==> Acked(t, id) == t
  {
  }

  /**
    A timer firing keeps the bookkeeping. An armed one plays its fallback
    exactly once and, while ids are fresh, for an id that was neither
    acknowledged nor had fallen back before.
   */
  lemma TimeoutKeepsInvariant(t: AckTables, token: nat)
    requires AckInvariant(t)
    ensures AckInvariant(TimedOut(t, token))
    ensures token in t.timers ==>
      var id := t.timers[token];
      TimedOut(t, token).fallbacks == t.fallbacks + [AfterTimeout(id)]
      && id !in TimedOut(t, token).pending
      && (t.idsFresh ==> id !in t.acked && id !in FiredIds(t.fallbacks))
  {
    if token in t.timers {
      var id := t.timers[token];
      FiredIdsAppend(t.fallbacks, AfterTimeout(id));
      if t.idsFresh {
        var f := t.fallbacks + [AfterTimeout(id)];
        forall i, j | 0 <= i < j < |f| && f[i].AfterTimeout? && f[j].AfterTimeout? ensures f[i].id != f[j].id {
          if j == |t.fallbacks| {
            assert f[i] == t.fallbacks[i];
          } else {
            assert f[i] == t.fallbacks[i] && f[j] == t.fallbacks[j];
          }
        }
      }
    }
  }

  /** `pendingAudioAcks` and the fallback log, updated in place. */
  class AudioAcks {
    /** Request id to the timer waiting for its acknowledgement. */
    var pending: map<string, nat>
    /** Armed timers and the request id each one closes over. */
    var timers: map<nat, string>
    var nextTimer: nat
    var fallbacks: seq<Fallback>
    ghost var issued: set<string>
    ghost var acked: set<string>
    ghost var idsFresh: bool

    ghost function Tables(): AckTables
      reads this
    {
      AckTables(pending, timers, nextTimer, fallbacks, issued, acked, idsFresh)
    }

    ghost predicate Valid()
      reads this
    {
      AckInvariant(Tables())
    }

    constructor()
      ensures Valid() && Tables() == NoAcks
    {
      pending, timers, nextTimer, fallbacks := map[], map[], 0, [];
      issued, acked, idsFresh := {}, {}, true;
    }

    method Register(id: string)
      requires Valid()
      modifies this
      ensures Valid() && Tables() == Registered(old(Tables()), id)
    {
      RegisterKeepsInvariant(Tables(), id);
      issued, idsFresh := issued + {id}, idsFresh && id !in issued;
      pending, timers, nextTimer := pending[id := nextTimer], timers[nextTimer := id], nextTimer + 1;
    }

    method FallbackNow()
      requires Valid()
      modifies this`fallbacks
      ensures Valid() && Tables() == FellBack(old(Tables()))
    {
      ImmediateKeepsInvariant(Tables());
      fallbacks := fallbacks + [Immediate];
    }

    method Ack(id: string)
      requires Valid()
      modifies this`pending, this`timers, this`acked
      ensures Valid() && Tables() == Acked(old(Tables()), id)
    {
      AckKeepsInvariant(Tables(), id);
      if id != "" && id in pending {
        pending, timers, acked := pending - {id}, timers - {pending[id]}, acked + {id};
      }
    }

    method Timeout(token: nat)
      requires Valid()
      modifies this`pending, this`timers, this`fallbacks
      ensures Valid() && Tables() == TimedOut(old(Tables()), token)
    {
      TimeoutKeepsInvariant(Tables(), token);
      if token in timers {
        var id := timers[token];
        pending, timers, fallbacks := pending - {id}, timers - {token}, fallbacks + [AfterTimeout(id)];
      }
    }
  }

  /** The `clients` Set of open dashboard connections, in insertion order. */
  class ClientSet {
    var clients: seq<Client>
    var nextClient: nat

    ghost predicate Valid()
      reads this
    {
      Ascending(clients) && (forall k :: 0 <= k < |clients| ==> clients[k].id < nextClient)
    }

    constructor()
      ensures Valid() && clients == []
    {
      clients, nextClient := [], 0;
    }

    /** `clients.add(ws)` for a new connection, flagged not ready. */
    method Add() returns (id: nat)
      requires Valid()
      modifies this
      ensures Valid()
      ensures id == old(nextClient) && clients == old(clients) + [Client(id, false)] && nextClient == id + 1
    {
      id := nextClient;
      clients, nextClient := clients + [Client(id, false)], nextClient + 1;
    }

    /** `clients.delete(ws)`. */
    method Delete(id: nat)
      requires Valid()
      modifies this`clients
      ensures Valid() && clients == Without(old(clients), id)
    {
      WithoutAscending(clients, id);
      clients := Without(clients, id);
    }

    /** `ws.isAudioReady = ready`. */
    method SetReady(id: nat, ready: bool)
      requires Valid()
      modifies this`clients
      ensures Valid() && clients == WithReady(old(clients), id, ready)
    {
      clients := WithReady(clients, id, ready);
    }

    /** The counting loop of `updateAudioReadyCount`. */
    method CountReady() returns (ready: nat)
      ensures ready == ReadyCount(clients)
      ensures ready <= |clients|
    {
      ready := 0;
      var i := 0;
      while i < |clients|
        invariant 0 <= i <= |clients|
        invariant ready == ReadyCount(clients[..i])
      {
        assert clients[..i + 1][..i] == clients[..i];
        if clients[i].audioReady {
          ready := ready + 1;
        }
        i := i + 1;
      }
      assert clients[..i] == clients;
    }
  }

  /** The loop of `refreshStaleSessions` over the sessions in key order `order`. */
  method Sweep(order: seq<string>, sessions: map<string, Session>, now: int)
    returns (swept: map<string, Session>, sent: seq<Message>)
    requires forall i, j :: 0 <= i < j < |order| ==> order[i] != order[j]
    requires forall id :: id in sessions <==> id in order
    ensures swept.Keys == sessions.Keys
    ensures forall id :: id in swept ==> swept[id] == Refreshed(sessions[id], now)
    ensures sent == DemotionMessages(order, sessions, now)
  {
    swept, sent := sessions, [];
    var i := 0;
    while i < |order|
      invariant 0 <= i <= |order|
      invariant swept.Keys == sessions.Keys
      invariant forall k :: 0 <= k < i ==> swept[order[k]] == Refreshed(sessions[order[k]], now)
      invariant forall k :: i <= k < |order| ==> swept[order[k]] == sessions[order[k]]
      invariant sent == DemotionMessages(order[..i], sessions, now)
    {
      var id := order[i];
      var session := sessions[id];
      DemotionMessagesStep(order, i, sessions, now);
      if Demotes(session, now) {
        swept := swept[id := session.(status := "idle")];
        sent := sent + [SessionUpdate(id, "idle", now)];
      }
      i := i + 1;
    }
    assert order[..i] == order;
    forall id | id in swept ensures swept[id] == Refreshed(sessions[id], now) {
      var k :| 0 <= k < |order| && order[k] == id;
    }
  }

  lemma DemotionMessagesStep(order: seq<string>, i: nat, sessions: map<string, Session>, now: int)
    requires i < |order|
    requires forall id :: id in order ==> id in sessions
    ensures DemotionMessages(order[..i + 1], sessions, now)
         == DemotionMessages(order[..i], sessions, now)
            + (if Demotes(sessions[order[i]], now) then [SessionUpdate(order[i], "idle", now)] else [])
  {
    assert order[..i + 1][..i] == order[..i];
  }

  // ------------------------------------------------------ completion effects

  /** What one completion can change besides the broadcasts. */
  datatype CompletionEffects = CompletionEffects(
    completions: seq<Completion>,
    desktop: seq<string>,
    alarm: Alarm,
    acks: AckTables)

  /** `playSound` on the tables: a registered request when some dashboard can play audio, else the fallback at once. */
  function SoundRequested(t: AckTables, audioReady: nat, id: string): AckTables {
    if audioReady > 0 then Registered(t, id) else FellBack(t)
  }

  /** The effects of completion `c` once the decision `o` is taken. */
  function AfterOutcome(e: CompletionEffects, o: Outcome, c: Completion, audioReady: nat, env: Env): CompletionEffects {
    match o
    case Suppressed => e
    case Notify(desktop, action) =>
      CompletionEffects(
        PrependCapped(e.completions, c, MaxCompletions),
        e.desktop + (if desktop then [c.source] else []),
        if action == AlarmAction then Alarm(true, Some(c.source), Some(env.now)) else e.alarm,
        if action == SoundAction then SoundRequested(e.acks, audioReady, SoundRequestId(env)) else e.acks)
  }

  /**
    `handleCompletion(source, duration, origin)` on the effects, decided on
    `settings`: a suppressed completion changes nothing; otherwise the
    completion is recorded first in the history, the desktop notification is
    shown exactly when desktop notifications are on and the origin is not the
    browser extension, the alarm starts when alarms are on, and only
    otherwise, with sound on, a one-shot sound is requested.
   */
  function AfterCompletion(e: CompletionEffects, settings: Settings, audioReady: nat, source: string,
                           duration: Option<int>, origin: string, env: Env): (r: CompletionEffects)
    ensures var suppressed := !settings.enabled || settings.doNotDisturb
                              || IsWithinDndSchedule(settings.dndSchedule, env.minuteOfDay)
                              || SourceDisabled(settings, source);
      var n := settings.notifications;
      (suppressed ==> r == e)
      && (!suppressed ==> r.completions == PrependCapped(e.completions, NewCompletion(source, duration, env), MaxCompletions))
      && r.desktop == e.desktop + (if !suppressed && n.desktop && origin != "extension" then [source] else [])
      && r.alarm == (if !suppressed && n.alarm then Alarm(true, Some(source), Some(env.now)) else e.alarm)
      && r.acks == (if !suppressed && !n.alarm && n.sound then SoundRequested(e.acks, audioReady, SoundRequestId(env)) else e.acks)
  {
    AfterOutcome(e, CompletionOutcome(settings, source, origin, env.minuteOfDay), NewCompletion(source, duration, env), audioReady, env)
  }

  /** The history stays within its cap and the ack bookkeeping stays consistent. */
  lemma AfterCompletionKeepsInvariants(e: CompletionEffects, settings: Settings, audioReady: nat, source: string,
                                       duration: Option<int>, origin: string, env: Env)
    requires |e.completions| <= MaxCompletions && AckInvariant(e.acks)
    ensures var r := AfterCompletion(e, settings, audioReady, source, duration, origin, env);
      |r.completions| <= MaxCompletions && AckInvariant(r.acks)
  {
    PrependCappedBounded(e.completions, NewCompletion(source, duration, env), MaxCompletions);
    RegisterKeepsInvariant(e.acks, SoundRequestId(env));
    ImmediateKeepsInvariant(e.acks);
  }

  /** Completions arriving in time order keep the history newest first. */
  lemma AfterCompletionNewestFirst(e: CompletionEffects, settings: Settings, audioReady: nat, source: string,
                                   duration: Option<int>, origin: string, env: Env)
    requires NewestFirst(e.completions, (c: Completion) => c.timestamp)
    requires forall k :: 0 <= k < |e.completions| ==> e.completions[k].timestamp <= env.now
    ensures NewestFirst(AfterCompletion(e, settings, audioReady, source, duration, origin, env).completions,
                        (c: Completion) => c.timestamp)
  {
    PrependCappedNewestFirst(e.completions, NewCompletion(source, duration, env), MaxCompletions,
                             (c: Completion) => c.timestamp);
  }

  /**
    The hub's `state` object. Broadcasts are appended to `broadcasts` and
    desktop notifications to `desktop`; `acks` and `conns` are the separate
    `pendingAudioAcks` Map and `clients` Set.
   */
  class HubState {
    var sessions: map<string, Session>
    /** Session ids in insertion order: the order `Object.entries(state.sessions)` visits ids that are not integer-like. */
    var sessionOrder: seq<string>
    var completions: seq<Completion>
    var settings: Settings
    var alarm: Alarm
    var dashboards: nat
    var audioReady: nat
    /** Connections that were sent the INIT snapshot. */
    var initSent: seq<nat>
    var broadcasts: seq<Message>
    var desktop: seq<string>

    const acks: AudioAcks
    const conns: ClientSet

    ghost predicate SessionsValid()
      reads this`sessions, this`sessionOrder, this`settings
    {
      (forall i, j :: 0 <= i < j < |sessionOrder| ==> sessionOrder[i] != sessionOrder[j])
      && (forall id :: id in sessions <==> id in sessionOrder)
      && (forall id :: id in sessions ==> id in settings.sources)
    }

    /** The two counters `broadcastClientsUpdate` reports agree with the open connections. */
    ghost predicate CountsValid()
      reads this`dashboards, this`audioReady, conns
    {
      dashboards == |conns.clients| && audioReady == ReadyCount(conns.clients)
    }

    ghost predicate Valid()
      reads this`completions, this`sessions, this`sessionOrder, this`settings, this`dashboards, this`audioReady, acks, conns
    {
      |completions| <= MaxCompletions && SessionsValid() && acks.Valid() && conns.Valid() && CountsValid()
    }

    /** The hub at start-up, with the settings file's contents when one was read. */
    constructor(persisted: Option<SettingsPatch>)
      ensures Valid() && fresh(acks) && fresh(conns)
      ensures settings == Loaded(persisted)
      ensures sessions == map[] && completions == [] && alarm == NoAlarm && conns.clients == []
      ensures acks.Tables() == NoAcks && broadcasts == [] && desktop == []
    {
      sessions, sessionOrder, completions := map[], [], [];
      settings := Loaded(persisted);
      alarm := NoAlarm;
      dashboards, audioReady, initSent := 0, 0, [];
      broadcasts, desktop := [], [];
      acks := new AudioAcks();
      conns := new ClientSet();
    }

    // ------------------------------------------------------------ alarm

    /** `startAlarm`: always (re)starts the alarm for `source`, even when one is already active. */
    method StartAlarm(source: string, now: int)
      requires Valid()
      modifies this`alarm, this`broadcasts
      ensures Valid()
      ensures alarm == Alarm(true, Some(source), Some(now))
      ensures broadcasts == old(broadcasts)
        + [AlarmStart(source, settings.notifications.soundPreset, settings.notifications.alarmVolume)]
    {
      alarm, broadcasts := Alarm(true, Some(source), Some(now)),
        broadcasts + [AlarmStart(source, settings.notifications.soundPreset, settings.notifications.alarmVolume)];
    }

    /** `dismissAlarm`: clears an active alarm with one ALARM_STOP; does nothing when none is active. */
    method DismissAlarm()
      requires Valid()
      modifies this`alarm, this`broadcasts
      ensures Valid()
      ensures old(alarm.isActive) ==> alarm == NoAlarm && broadcasts == old(broadcasts) + [AlarmStop]
      ensures !old(alarm.isActive) ==> alarm == old(alarm) && broadcasts == old(broadcasts)
    {
      if alarm.isActive {
        alarm, broadcasts := NoAlarm, broadcasts + [AlarmStop];
      }
    }

    // ------------------------------------------------------------ sound

    /** `playSound`: with a ready dashboard, register a fresh request and broadcast PLAY_SOUND; else the fallback plays now. */
    method PlaySoundRequest(env: Env)
      requires Valid()
      modifies this`broadcasts, acks
      ensures Valid()
      ensures acks.Tables() == SoundRequested(old(acks.Tables()), audioReady, SoundRequestId(env))
      ensures broadcasts == old(broadcasts) + SoundMessages(settings, audioReady, SoundRequestId(env))
    {
      if audioReady > 0 {
        var id := SoundRequestId(env);
        acks.Register(id);
        broadcasts := broadcasts
          + [PlaySound(Some(id), settings.notifications.soundPreset, settings.notifications.alarmVolume)];
      } else {
        acks.FallbackNow();
      }
    }

    /** `AUDIO_PLAYED` with request id `id`. */
    method AudioPlayed(id: string)
      requires Valid()
      modifies acks`pending, acks`timers, acks`acked
      ensures Valid() && acks.Tables() == Acked(old(acks.Tables()), id)
    {
      acks.Ack(id);
    }

    /** The acknowledgement timer `token` fires. */
    method AckTimeout(token: nat)
      requires Valid()
      modifies acks`pending, acks`timers, acks`fallbacks
      ensures Valid() && acks.Tables() == TimedOut(old(acks.Tables()), token)
    {
      acks.Timeout(token);
    }

    // ------------------------------------------------------- completions

    ghost function Effects(): CompletionEffects
      reads this`completions, this`desktop, this`alarm, acks
    {
      CompletionEffects(completions, desktop, alarm, acks.Tables())
    }

    /** What `handleCompletion(source, duration, origin)` broadcasts in the current state. */
    function CompletionBroadcasts(source: string, duration: Option<int>, origin: string, env: Env): seq<Message>
      reads this`settings, this`audioReady
    {
      CompletionMessages(CompletionOutcome(settings, source, origin, env.minuteOfDay),
                         NewCompletion(source, duration, env), settings, audioReady, SoundRequestId(env))
    }

    /** Carries out the decision `o` for completion `c`: record and broadcast it, then the desktop notification and the alarm or sound. */
    method ApplyOutcome(o: Outcome, c: Completion, env: Env)
      requires Valid()
      modifies this`completions, this`desktop, this`alarm, this`broadcasts, acks
      ensures Valid()
      ensures Effects() == AfterOutcome(old(Effects()), o, c, audioReady, env)
      ensures broadcasts == old(broadcasts) + CompletionMessages(o, c, settings, audioReady, SoundRequestId(env))
    {
      if o.Suppressed? {
        return;
      }
      Record(c);
      if o.desktop {
        desktop := desktop + [c.source];
      }
      RunAction(o.action, c.source, env);
    }

    /** The alarm, the one-shot sound, or nothing. */
    method RunAction(action: Action, source: string, env: Env)
      requires Valid()
      modifies this`alarm, this`broadcasts, acks
      ensures Valid()
      ensures alarm == (if action == AlarmAction then Alarm(true, Some(source), Some(env.now)) else old(alarm))
      ensures acks.Tables() == if action == SoundAction
                               then SoundRequested(old(acks.Tables()), audioReady, SoundRequestId(env))
                               else old(acks.Tables())
      ensures broadcasts == old(broadcasts) + ActionMessages(action, source, settings, audioReady, SoundRequestId(env))
    {
      if action == AlarmAction {
        StartAlarm(source, env.now);
      } else if action == SoundAction {
        PlaySoundRequest(env);
      }
    }

    /** The new entry goes to the front of the capped history and is broadcast. */
    method Record(c: Completion)
      requires Valid()
      modifies this`completions, this`broadcasts
      ensures Valid()
      ensures completions == PrependCapped(old(completions), c, MaxCompletions)
      ensures broadcasts == old(broadcasts) + [CompletionMsg(c)]
    {
      PrependCappedBounded(completions, c, MaxCompletions);
      completions, broadcasts := PrependCapped(completions, c, MaxCompletions), broadcasts + [CompletionMsg(c)];
    }

    /** `handleCompletion(source, duration, origin)`. */
    method HandleCompletion(source: string, duration: Option<int>, origin: string, env: Env)
      requires Valid()
      modifies this`completions, this`desktop, this`alarm, this`broadcasts, acks
      ensures Valid()
      ensures Effects() == AfterCompletion(old(Effects()), settings, audioReady, source, duration, origin, env)
      ensures broadcasts == old(broadcasts) + CompletionBroadcasts(source, duration, origin, env)
    {
      ApplyOutcome(CompletionOutcome(settings, source, origin, env.minuteOfDay), NewCompletion(source, duration, env), env);
    }

    /**
      `sendTestNotification`: a desktop test notification every time, whatever
      the desktop setting, then the alarm for source "test", or an untracked
      PLAY_SOUND.
     */
    method TestNotification(now: int)
      requires Valid()
      modifies this`desktop, this`alarm, this`broadcasts
      ensures Valid()
      ensures desktop == old(desktop) + ["test"]
      ensures settings.notifications.alarm ==>
        alarm == Alarm(true, Some("test"), Some(now))
        && broadcasts == old(broadcasts) + [AlarmStart("test", settings.notifications.soundPreset, settings.notifications.alarmVolume)]
      ensures !settings.notifications.alarm ==> alarm == old(alarm)
      ensures !settings.notifications.alarm && settings.notifications.sound ==>
        broadcasts == old(broadcasts) + [PlaySound(None, settings.notifications.soundPreset, settings.notifications.alarmVolume)]
      ensures !settings.notifications.alarm && !settings.notifications.sound ==> broadcasts == old(broadcasts)
    {
      desktop := desktop + ["test"];
      if settings.notifications.alarm {
        StartAlarm("test", now);
      } else if settings.notifications.sound {
        broadcasts := broadcasts
          + [PlaySound(None, settings.notifications.soundPreset, settings.notifications.alarmVolume)];
      }
    }

    // ------------------------------------------------------------ REST

    /** The session and source-entry upsert of `POST /api/event` for the normalised id `id`. */
    method Upsert(id: string, status: string, displayName: string, origin: string, domains: Option<seq<string>>, now: int)
      requires Valid()
      modifies this`sessions, this`sessionOrder, this`settings
      ensures Valid()
      ensures var isNew := id !in old(sessions);
        sessions == old(sessions)[id := EventSession(old(sessions), id, status, displayName, now)]
        && sessionOrder == old(sessionOrder) + (if isNew then [id] else [])
        && settings == old(settings).(sources := EventSources(old(settings.sources), id, isNew, displayName, origin, domains))
      ensures id in sessions && sessions[id].status == status && id in settings.sources
        && !IsTrue(settings.sources[id].hidden)
    {
      var isNew := id !in sessions;
      EventSourceEntry(settings.sources, id, isNew, displayName, origin, domains);
      var sources := EventSources(settings.sources, id, isNew, displayName, origin, domains);
      sessions, sessionOrder, settings :=
        sessions[id := EventSession(sessions, id, status, displayName, now)],
        sessionOrder + (if isNew then [id] else []),
        settings.(sources := sources);
    }

    /** An accepted `POST /api/event` for the normalised id `id`: upsert, the completion policy on "complete", then SESSION_UPDATE. */
    method Accept(id: string, status: string, duration: Option<int>, displayName: string,
                  origin: string, domains: Option<seq<string>>, env: Env)
      requires Valid()
      modifies this`sessions, this`sessionOrder, this`settings
      modifies this`completions, this`desktop, this`alarm, this`broadcasts, acks
      ensures Valid()
      ensures var isNew := id !in old(sessions);
        sessions == old(sessions)[id := EventSession(old(sessions), id, status, displayName, env.now)]
        && sessionOrder == old(sessionOrder) + (if isNew then [id] else [])
        && settings == old(settings).(sources := EventSources(old(settings.sources), id, isNew, displayName, origin, domains))
      ensures status == "complete" ==>
        Effects() == AfterCompletion(old(Effects()), settings, audioReady, id, duration, origin, env)
        && broadcasts == old(broadcasts) + CompletionBroadcasts(id, duration, origin, env) + [SessionUpdate(id, status, env.now)]
      ensures status != "complete" ==>
        Effects() == old(Effects())
        && broadcasts == old(broadcasts) + [SessionUpdate(id, status, env.now)]
      ensures id in sessions && sessions[id].status == status && id in settings.sources
        && !IsTrue(settings.sources[id].hidden)
    {
      Upsert(id, status, displayName, origin, domains, env.now);
      Announce(id, status, duration, origin, env);
    }

    /** The completion policy when the status is "complete", then SESSION_UPDATE. */
    method Announce(id: string, status: string, duration: Option<int>, origin: string, env: Env)
      requires Valid()
      modifies this`completions, this`desktop, this`alarm, this`broadcasts, acks
      ensures Valid()
      ensures status == "complete" ==>
        Effects() == AfterCompletion(old(Effects()), settings, audioReady, id, duration, origin, env)
        && broadcasts == old(broadcasts) + CompletionBroadcasts(id, duration, origin, env) + [SessionUpdate(id, status, env.now)]
      ensures status != "complete" ==>
        Effects() == old(Effects()) && broadcasts == old(broadcasts) + [SessionUpdate(id, status, env.now)]
    {
      if status == "complete" {
        HandleCompletion(id, duration, origin, env);
      }
      broadcasts := broadcasts + [SessionUpdate(id, status, env.now)];
    }

    /**
      `POST /api/event`. Without a source or a status it answers 400 and
      changes nothing. Otherwise the session for the normalised id exists with
      the arriving status, the source entry is not hidden, and a completion
      status runs the completion policy before SESSION_UPDATE is broadcast.
     */
    method HandleEvent(source: string, status: string, duration: Option<int>, displayName: string,
                       origin: string, domains: Option<seq<string>>, env: Env)
      returns (r: Response)
      requires Valid()
      modifies this`sessions, this`sessionOrder, this`settings
      modifies this`completions, this`desktop, this`alarm, this`broadcasts, acks
      ensures Valid()
      ensures r == BadRequest <==> source == "" || status == ""
      ensures r == BadRequest ==> unchanged(this) && unchanged(acks)
      ensures r == Ok ==>
        var id := NormalizeSource(source);
        var isNew := id !in old(sessions);
        sessions == old(sessions)[id := EventSession(old(sessions), id, status, displayName, env.now)]
        && sessionOrder == old(sessionOrder) + (if isNew then [id] else [])
        && settings == old(settings).(sources := EventSources(old(settings.sources), id, isNew, displayName, origin, domains))
      ensures r == Ok && status == "complete" ==>
        var id := NormalizeSource(source);
        Effects() == AfterCompletion(old(Effects()), settings, audioReady, id, duration, origin, env)
        && broadcasts == old(broadcasts) + CompletionBroadcasts(id, duration, origin, env) + [SessionUpdate(id, status, env.now)]
      ensures r == Ok && status != "complete" ==>
        Effects() == old(Effects())
        && broadcasts == old(broadcasts) + [SessionUpdate(NormalizeSource(source), status, env.now)]
      ensures r == Ok ==>
        var id := NormalizeSource(source);
        id in sessions && sessions[id].status == status && id in settings.sources
        && !IsTrue(settings.sources[id].hidden)
    {
      if source == "" || status == "" {
        return BadRequest;
      }
      Accept(NormalizeSource(source), status, duration, displayName, origin, domains, env);
      return Ok;
    }

    /** An existing session takes `status` and is marked active at `now`; an unknown id changes nothing. */
    method Touch(id: string, status: string, now: int)
      requires Valid()
      modifies this`sessions
      ensures Valid()
      ensures sessions == if id in old(sessions)
                          then old(sessions)[id := old(sessions)[id].(status := status, lastActivity := Some(now))]
                          else old(sessions)
    {
      if id in sessions {
        sessions := sessions[id := sessions[id].(status := status, lastActivity := Some(now))];
      }
    }

    /** `POST /api/trigger/start`: an existing session turns generating; SESSION_UPDATE is broadcast either way. */
    method TriggerStart(source: string, env: Env) returns (r: Response)
      requires Valid()
      modifies this`sessions, this`broadcasts
      ensures Valid()
      ensures r == BadRequest <==> source == ""
      ensures r == BadRequest ==> unchanged(this)
      ensures r == Ok ==>
        var id := NormalizeSource(source);
        sessions == (if id in old(sessions)
                     then old(sessions)[id := old(sessions)[id].(status := "generating", lastActivity := Some(env.now))]
                     else old(sessions))
        && broadcasts == old(broadcasts) + [SessionUpdate(id, "generating", env.now)]
    {
      if source == "" {
        return BadRequest;
      }
      var id := NormalizeSource(source);
      Touch(id, "generating", env.now);
      broadcasts := broadcasts + [SessionUpdate(id, "generating", env.now)];
      return Ok;
    }

    /** `POST /api/trigger/complete`: an existing session turns complete, SESSION_UPDATE is broadcast, then the completion policy runs. */
    method TriggerComplete(source: string, env: Env) returns (r: Response)
      requires Valid()
      modifies this`sessions, this`completions, this`desktop, this`alarm, this`broadcasts, acks
      ensures Valid()
      ensures r == BadRequest <==> source == ""
      ensures r == BadRequest ==> unchanged(this) && unchanged(acks)
      ensures r == Ok ==>
        var id := NormalizeSource(source);
        sessions == (if id in old(sessions)
                     then old(sessions)[id := old(sessions)[id].(status := "complete", lastActivity := Some(env.now))]
                     else old(sessions))
        && Effects() == AfterCompletion(old(Effects()), settings, audioReady, id, None, "", env)
        && broadcasts == old(broadcasts) + [SessionUpdate(id, "complete", env.now)] + CompletionBroadcasts(id, None, "", env)
    {
      if source == "" {
        return BadRequest;
      }
      var id := NormalizeSource(source);
      Touch(id, "complete", env.now);
      broadcasts := broadcasts + [SessionUpdate(id, "complete", env.now)];
      HandleCompletion(id, None, "", env);
      return Ok;
    }

    /** `POST /api/settings` and the `UPDATE_SETTINGS` message: merge, then broadcast the merged settings. */
    method UpdateSettings(patch: SettingsPatch)
      requires Valid()
      modifies this`settings, this`broadcasts
      ensures Valid()
      ensures settings == Merge(old(settings), patch)
      ensures broadcasts == old(broadcasts) + [SettingsUpdated(settings)]
    {
      settings := Merge(settings, patch);
      broadcasts := broadcasts + [SettingsUpdated(settings)];
    }

    // ---------------------------------------------------- stale sessions

    /** `refreshStaleSessions` at time `now`: every session is swept once, in key order; nothing is recorded. */
    method RefreshStaleSessions(now: int)
      requires Valid()
      modifies this`sessions, this`broadcasts
      ensures Valid()
      ensures sessions.Keys == old(sessions).Keys
      ensures forall id :: id in sessions ==> sessions[id] == Refreshed(old(sessions)[id], now)
      ensures broadcasts == old(broadcasts) + DemotionMessages(sessionOrder, old(sessions), now)
    {
      var swept, sent := Sweep(sessionOrder, sessions, now);
      sessions, broadcasts := swept, broadcasts + sent;
    }

    // ------------------------------------------------------- WebSocket

    /** `updateAudioReadyCount`. */
    method UpdateAudioReadyCount()
      modifies this`audioReady
      ensures audioReady == ReadyCount(conns.clients)
    {
      audioReady := conns.CountReady();
    }

    /** A dashboard connects: it is added not ready, receives INIT, and CLIENTS_UPDATE is broadcast. */
    method Connect() returns (id: nat)
      requires Valid()
      modifies this`dashboards, this`audioReady, this`initSent, this`broadcasts, conns
      ensures Valid()
      ensures id == old(conns.nextClient) && conns.clients == old(conns.clients) + [Client(id, false)]
      ensures dashboards == old(dashboards) + 1 && audioReady == old(audioReady)
      ensures initSent == old(initSent) + [id]
      ensures broadcasts == old(broadcasts) + [ClientsUpdate(dashboards, audioReady)]
    {
      ghost var before := conns.clients;
      id := conns.Add();
      ReadyCountAppend(before, Client(id, false));
      var ready := conns.CountReady();
      dashboards, audioReady := |conns.clients|, ready;
      initSent := initSent + [id];
      broadcasts := broadcasts + [ClientsUpdate(dashboards, audioReady)];
    }

    /** A dashboard disconnects: it is removed, both counters recomputed, and CLIENTS_UPDATE broadcast. */
    method Close(id: nat)
      requires Valid()
      modifies this`dashboards, this`audioReady, this`broadcasts, conns`clients
      ensures Valid()
      ensures conns.clients == Without(old(conns.clients), id)
      ensures broadcasts == old(broadcasts) + [ClientsUpdate(dashboards, audioReady)]
    {
      conns.Delete(id);
      var ready := conns.CountReady();
      dashboards, audioReady := |conns.clients|, ready;
      broadcasts := broadcasts + [ClientsUpdate(dashboards, audioReady)];
    }

    /** `AUDIO_READY`: the client's flag becomes `ready === true`, the count is recomputed and broadcast. */
    method AudioReadyMessage(id: nat, ready: Option<bool>)
      requires Valid()
      modifies this`audioReady, this`broadcasts, conns`clients
      ensures Valid()
      ensures conns.clients == WithReady(old(conns.clients), id, IsTrue(ready))
      ensures broadcasts == old(broadcasts) + [ClientsUpdate(dashboards, audioReady)]
    {
      conns.SetReady(id, IsTrue(ready));
      UpdateAudioReadyCount();
      broadcasts := broadcasts + [ClientsUpdate(dashboards, audioReady)];
    }
  }
}
