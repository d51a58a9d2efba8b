# llm-notify, modelled in Dafny

llm-notify tells a user when an AI chat assistant has finished answering. Detectors in a
Chrome extension (chat sites) and in a VS Code extension (Claude Code and Codex sessions)
report "generating" and "complete" events to a local hub. The hub keeps one session per
source, applies the enable, Do Not Disturb and per-source policy, and keeps a history of
the last 50 completions. It drives a global alarm and asks connected dashboards to play
the sound, falling back to a local sound when no dashboard acknowledges in time.

This project models the coordination logic of those parts and proves what it promises.

- **Hub** (`server/index.js`):
  - `hub_source.dfy`: source-alias normalisation.
  - `hub_dnd.dfy`: the Do Not Disturb window with its midnight wrap.
  - `hub_settings.dfy`: the field-by-field settings merge used at load, by `POST /api/settings` and by the `UPDATE_SETTINGS` message (server/index.js:438-447).
  - `history.dfy`: the newest-first completion list capped at 50.
  - `hub_policy.dfy`: the completion policy, the stale-session sweep, event upserts and the audio-ready count as functions.
  - `hub.dfy`: the hub's mutable state. `Hub.HubState` owns sessions, completions, settings, the alarm and the broadcast log. `Hub.ClientSet` owns the connected clients. `Hub.AudioAcks` owns the pending audio acknowledgements with their timers, modelled as explicit ack and timeout events.
- **VS Code extension** (`vscode-extension/out/extension.js`):
  - `editor_hub.dfy`: the bounded, de-duplicating retry queue and the capped exponential back-off.
  - `editor_text.dfy`: the partial-line carry-over buffer, user-text extraction and the bounded SSE seen-id set.
  - `editor_sources.dfy`: source classification from terminal names and command lines.
  - `editor_generation.dfy`: the generating/complete flags.
- **Dashboard** (`dashboard/app.js`):
  - `dashboard.dfy`: derived session status, card ordering, the completion list, usage sources and CSV rows.
  - `dashboard_format.dfy`: duration and "time ago" text, and source colours.
- **Chrome extension**:
  - `ext_sites.dfy`: custom-site add, remove and toggle, the hub sync's normalisation, and match patterns.
  - `ext_completion.dfy`: the background worker's completion handling, preference choice and alarm flag.
  - `ext_content.dfy`: host matching, site detection, Gemini arming and duration bookkeeping in the content script.
  - `ext_popup.dfy`: `slugify`, `inferName`, `getKnownSite` and `saveNotificationSetting`.
  - `ext_detector.dfy`: the debounced generating-to-complete detector of `lib/detectors.js`.
- **Shared**: `options.dfy` and `strings.dfy` hold ASCII case mapping, JavaScript whitespace trimming, split and join, and decimal text.

Code that changes state in place is modelled as classes:
- The hub, the retry queue, the carry-over buffer, the seen-id set and the generation flags in the editor extension.
- The dashboard's state.
- The background worker, the content script, the detector and the popup's stored settings.

Each method's `ensures` gives the new state as a function of the old one. The properties are proved about those functions, and the loops are proved against them.

Behaviour of the code worth knowing:
- `startAlarm` in the hub does not check whether an alarm is already active. A completion during an alarm overwrites its source and start time and broadcasts `ALARM_START` again (server/index.js:645-660).
- The desktop notification is decided independently of the alarm and the sound, so it is not exclusive with either.
- The dashboard counts a source for usage unless `usageEnabled` is exactly `false`.
- The editor's carry-over buffer is empty both when the text ends with a newline and when the text is empty.
- The hub sync in the Chrome extension stores the normalised site list only when normalising dropped a duplicate. A known domain renamed without a duplicate is not persisted (background.js:379-383).
- In `lib/detectors.js`, `markGenerating` returns at the arming gate before it cancels the debounce timer, so a pending completion survives a gated generation signal.
- `enqueueHubEvent` has no caller inside `extension.js`. It is modelled all the same.

## Model

| member | source | states |
|---|---|---|
| SourceNames.NormalizeSource | server/index.js:696-715 | the id is lower case and is either one of the six canonical ids or the lower-cased name itself |
| SourceNames.NormalizeSourceAlias | server/index.js:697-714 | every alias of the table, in any ASCII case, maps to its canonical id |
| SourceNames.NormalizeSourceUnknown | server/index.js:714 | a name outside the table comes back lower-cased and otherwise unchanged |
| SourceNames.CanonicalIdsFixed | server/index.js:697-713 | each canonical id maps to itself |
| SourceNames.CanonicalIdFixed | server/index.js:714 | a lower-case name that is not an alias of another id is a fixed point |
| SourceNames.NormalizeSourceIdempotent | server/index.js:696-715 | normalising an already normalised id changes nothing |
| SourceNames.NormalizeSourceAsWritten | server/index.js:714 | the plain-object lookup returns an inherited member exactly for the prototype member names that are not aliases |
| SourceNames.AsWrittenReturnsInheritedMember | server/index.js:714 | "Constructor" yields Object's constructor function where the corrected model yields "constructor" |
| SourceNames.AsWrittenAgreesElsewhere | server/index.js:714 | on every other name the code as written returns the corrected id |
| DndSchedule.ToNumber | server/index.js:720-721 | `Number` of a clock field: never negative, and 0 for a blank field |
| DndSchedule.IsWithinDndSchedule | server/index.js:717-734 | quiet only when the schedule is enabled and both hours parse |
| DndSchedule.ScheduleIsWindow | server/index.js:723-733 | with both hours readable, the schedule is the quiet-window test on start and end minutes, a missing minute counting as 0 |
| DndSchedule.EqualBoundsAlwaysQuiet | server/index.js:729 | equal bounds are quiet at every minute |
| DndSchedule.SameDayWindow | server/index.js:730-732 | a same-day window is quiet from start inclusive to end exclusive |
| DndSchedule.WrapIsComplement | server/index.js:729-733 | an overnight window is the complement of the same-day window with the bounds swapped |
| DndSchedule.MissingMinuteIsZero | server/index.js:726-727 | "H" and "H:00" give the same answer |
| DndSchedule.ClockOf | server/index.js:720-721 | a well-formed "HH:MM" field reads as its hour and minute |
| DndSchedule.OvernightWindow | server/index.js:717-734 | a 22:00 to 07:00 schedule is quiet from 22:00 up to, not including, 07:00 |
| DndSchedule.OvernightExample | server/index.js:49-53 | the default bounds "22:00" and "07:00" give that overnight window |
| DndSchedule.SameBoundsExample | server/index.js:729 | "09:00" to "09:00" is quiet all day |
| HubSettings.MergeSchedule | server/index.js:128 | without an update the schedule is unchanged; each field present in the update replaces the old one |
| HubSettings.MergeNotifications | server/index.js:129 | without an update the notification settings are unchanged |
| HubSettings.MergeSources | server/index.js:130 | the merged ids are the old ones plus the updated ones; an updated id takes the update's entry whole, any other keeps its entry |
| HubSettings.Loaded | server/index.js:74-82 | without a settings file the hub starts from the defaults |
| HubSettings.MergeTopLevel | server/index.js:124-127 | top-level fields absent from the update keep their values; present ones are replaced |
| HubSettings.MergeNotificationsKeyByKey | server/index.js:129 | a notifications update changes exactly the keys it carries |
| HubSettings.MergeSourcesPerId | server/index.js:130 | per id: unmentioned keeps its entry, mentioned gets the update's entry, no id appears from nowhere |
| HubSettings.MergeNoChange | server/index.js:123-131 | the empty update changes nothing |
| HubSettings.MergeIdempotent | server/index.js:123-131 | applying the same update twice is the same as applying it once |
| History.PrependCapped | server/index.js:490-493 | the new entry is first, followed by the old list in order, cut to the cap |
| History.PrependCappedBounded | server/index.js:490-493 | the history never passes the cap and drops only its oldest entry when full |
| History.PrependCappedNewestFirst | server/index.js:483-493 | entries arriving in time order keep the history newest first |
| HubPolicy.CompletionOutcome | server/index.js:468-508 | suppressed exactly when disabled, do-not-disturb, inside the schedule, or the source is disabled; otherwise desktop iff enabled and not from the extension, alarm iff the alarm is on, one-shot sound iff the alarm is off and sound on |
| HubPolicy.UnknownSourceNotifies | server/index.js:476-479 | a source with no stored entry is never suppressed on its own account |
| HubPolicy.NewCompletion | server/index.js:483-488 | the record carries the source and the current time, and a zero duration is stored as null |
| HubPolicy.SoundMessages | server/index.js:623-642 | at most one PLAY_SOUND, and none without a ready dashboard |
| HubPolicy.ActionMessages | server/index.js:504-508 | at most one broadcast, an ALARM_START exactly for the alarm action |
| HubPolicy.CompletionMessages | server/index.js:490-508 | a suppressed completion broadcasts nothing; otherwise COMPLETION comes first |
| HubPolicy.AlarmOrSoundNeverBoth | server/index.js:504-508 | one completion never starts both the alarm and the one-shot sound |
| HubPolicy.Refreshed | server/index.js:511-538 | the sweep either leaves a session alone or only sets it idle |
| HubPolicy.RefreshedOnlyDemotesStale | server/index.js:511-538 | only a generating session quiet for over 15 minutes or a complete/ready one quiet for over 3 minutes is demoted; no timestamp or another status is never touched |
| HubPolicy.DemotionMessages | server/index.js:513-537 | at most one SESSION_UPDATE per session, each saying idle |
| HubPolicy.EventSession | server/index.js:151-166 | the session takes the status and the current time; the display name is the given one, else the old one, else the id |
| HubPolicy.EventSources | server/index.js:151-184 | the stored source ids grow by the event's id only when it is new or the event carries a name, origin or domains; other ids keep their entries |
| HubPolicy.EventSourceEntry | server/index.js:151-184 | after an event the source is never hidden; a new source's entry is `{enabled: true}` plus the event's name, origin and domains |
| HubPolicy.ReadyCount | server/index.js:380-386 | the count of ready clients is at most the number of clients |
| HubPolicy.Without | server/index.js:412 | exactly the other clients remain |
| HubPolicy.WithoutAscending | server/index.js:412 | removing a client keeps connection order |
| HubPolicy.WithReady | server/index.js:426 | only the client with that connection changes its ready flag |
| HubPolicy.ReadyCountAppend | server/index.js:380-386 | a new connection adds one to the count exactly when it is ready |
| HubPolicy.ReadyCountIsReadySet | server/index.js:380-386 | the ready count is the size of the set of ready connections |
| Hub.RegisterKeepsInvariant | server/index.js:623-630 | registering a sound request keeps the ack bookkeeping consistent; the id is pending with an armed timer |
| Hub.ImmediateKeepsInvariant | server/index.js:641 | playing the fallback at once keeps the bookkeeping and registers nothing |
| Hub.AckKeepsInvariant | server/index.js:430-437 | an acknowledged id leaves the table and, while ids are fresh, no armed timer can still play its fallback; an unknown id changes nothing |
| Hub.TimeoutKeepsInvariant | server/index.js:625-628 | an armed timer plays its fallback once, and, while ids are fresh, only for an id that was neither acknowledged nor fell back before |
| Hub.AudioAcks.Register | server/index.js:623-630 | the pending-ack tables after registering a request |
| Hub.AudioAcks.FallbackNow | server/index.js:641 | the tables after the immediate fallback |
| Hub.AudioAcks.Ack | server/index.js:430-437 | the tables after an AUDIO_PLAYED |
| Hub.AudioAcks.Timeout | server/index.js:625-628 | the tables after a timer fires |
| Hub.AudioAcks.constructor | server/index.js:378 | no audio acknowledgement is pending |
| Hub.ClientSet.Add | server/index.js:389-392 | the new connection is appended, not ready, with a fresh number |
| Hub.ClientSet.Delete | server/index.js:412 | the client list without that connection |
| Hub.ClientSet.SetReady | server/index.js:426 | the client list with that connection's flag set |
| Hub.ClientSet.CountReady | server/index.js:380-386 | the loop counts exactly the ready clients |
| Hub.ClientSet.constructor | server/index.js:377 | no client is connected |
| Hub.Sweep | server/index.js:511-538 | the loop refreshes every session and sends the demotion broadcasts in key order |
| Hub.AfterCompletion | server/index.js:468-508 | a suppressed completion changes nothing; otherwise it is first in the capped history, a desktop notice goes out iff enabled and not from the extension, the alarm starts iff it is on, and a sound request iff the alarm is off and sound on |
| Hub.AfterCompletionKeepsInvariants | server/index.js:490-493 | the history stays within 50 and the ack bookkeeping stays consistent |
| Hub.AfterCompletionNewestFirst | server/index.js:483-493 | completions in time order keep the history newest first |
| Hub.HubState.constructor | server/index.js:43-82 | the hub starts with the loaded settings, no sessions, no completions, no alarm and no clients |
| Hub.HubState.StartAlarm | server/index.js:645-660 | the alarm is (re)started for the source even when one is active, and ALARM_START is broadcast |
| Hub.HubState.DismissAlarm | server/index.js:662-671 | an active alarm is cleared with one ALARM_STOP; otherwise nothing happens |
| Hub.HubState.PlaySoundRequest | server/index.js:623-642 | with a ready dashboard a request is registered and PLAY_SOUND broadcast, else the fallback plays now |
| Hub.HubState.AudioPlayed | server/index.js:430-437 | an AUDIO_PLAYED acknowledgement as on the ack tables |
| Hub.HubState.AckTimeout | server/index.js:625-628 | the 800 ms timer as on the ack tables |
| Hub.HubState.ApplyOutcome | server/index.js:483-508 | the decided completion is recorded and broadcast, then the desktop notice and the alarm or sound |
| Hub.HubState.RunAction | server/index.js:504-508 | the alarm, the one-shot sound, or nothing, as the action says |
| Hub.HubState.Record | server/index.js:483-499 | the completion goes first in the capped history and COMPLETION is broadcast |
| Hub.HubState.HandleCompletion | server/index.js:468-508 | the new state is `AfterCompletion` of the old, with the completion's broadcasts appended |
| Hub.HubState.TestNotification | server/index.js:673-694 | a desktop test notification every time, whatever the desktop setting; then the alarm for "test" when on, else an untracked PLAY_SOUND when sound is on, else nothing more |
| Hub.HubState.Upsert | server/index.js:151-184 | the session and the stored source entry after an event, the new id appended to the key order |
| Hub.HubState.Accept | server/index.js:151-199 | the upsert, then the completion policy only on "complete", then SESSION_UPDATE |
| Hub.HubState.Announce | server/index.js:186-199 | the completion policy only on "complete", then SESSION_UPDATE |
| Hub.HubState.HandleEvent | server/index.js:138-201 | 400 and no change exactly when the source or status is missing; otherwise the session for the normalised id holds the status, its entry is not hidden, and the completion policy runs only on "complete" |
| Hub.HubState.Touch | server/index.js:330-333 | an existing session takes the status and the time; an unknown id changes nothing |
| Hub.HubState.TriggerStart | server/index.js:321-343 | 400 exactly without a source; otherwise an existing session turns generating and SESSION_UPDATE is broadcast either way |
| Hub.HubState.TriggerComplete | server/index.js:345-368 | 400 exactly without a source; otherwise SESSION_UPDATE, then the completion policy with no duration and no origin |
| Hub.HubState.UpdateSettings | server/index.js:123-135 | the settings are the merge of the old with the update, and the merged settings are broadcast |
| Hub.HubState.RefreshStaleSessions | server/index.js:511-538 | the same sessions, each refreshed, with the demotion broadcasts in key order |
| Hub.HubState.UpdateAudioReadyCount | server/index.js:380-386 | the counter equals the number of ready clients |
| Hub.HubState.Connect | server/index.js:388-401 | the client is added not ready, receives INIT, the dashboard count grows by one and CLIENTS_UPDATE is broadcast |
| Hub.HubState.Close | server/index.js:411-417 | the client is removed and CLIENTS_UPDATE broadcast |
| Hub.HubState.AudioReadyMessage | server/index.js:425-429 | the client's flag becomes `ready === true` and the recount is broadcast |
| EditorText.NonBlank | vscode-extension/out/extension.js:778 | the kept lines are exactly the parts that are not blank, in order |
| EditorText.NonBlankAppend | vscode-extension/out/extension.js:778 | filtering a concatenation filters each half |
| EditorText.CarryOverIsLastSegment | vscode-extension/out/extension.js:1084-1092 | in both branches the buffer is the segment after the last newline and the lines are the non-blank segments before it |
| EditorText.CarryOverBufferEmpty | vscode-extension/out/extension.js:1086-1091 | the buffer is empty exactly when the text is empty or ends with a newline |
| EditorText.CarryOverNoNewline | vscode-extension/out/extension.js:1084-1092 | neither the buffer nor any line handed to the parser holds a newline |
| EditorText.CarryOverLosesNothing | vscode-extension/out/extension.js:770-778 | the text is its newline-terminated segments followed by the buffer: nothing is lost between reads |
| EditorText.SplitRestores | vscode-extension/out/extension.js:771 | the newline split, re-joined, gives the text back |
| EditorText.LineTail.Feed | vscode-extension/out/extension.js:1084-1092 | one read returns the complete lines and keeps the partial last line for the next read |
| EditorText.LineTail.constructor | vscode-extension/out/extension.js:694 | the carried-over buffer starts empty |
| EditorText.TextParts | vscode-extension/out/extension.js:1073-1076 | at most one text per content part |
| EditorText.TextPartTrimmed | vscode-extension/out/extension.js:1073-1076 | every collected text is non-empty and already trimmed |
| EditorText.LastNonMarker | vscode-extension/out/extension.js:1080-1081 | the index of the last text that does not start with the opened-file marker, none when all do |
| EditorText.MeaningfulLast | vscode-extension/out/extension.js:1080-1081 | the marker filter keeps something exactly when some text is not a marker, and ends with the last such text |
| EditorText.ExtractUserTextChoice | vscode-extension/out/extension.js:1069-1082 | empty exactly when no text part is non-empty; otherwise the last non-marker text, or the last text when all are markers |
| EditorText.TrimIdempotent | vscode-extension/out/extension.js:1081 | the final trim of an already trimmed text changes nothing |
| EditorText.Remembered | vscode-extension/out/extension.js:308-311 | the id is remembered; a known id changes nothing; a new one is appended, and past 2000 only the newest 1000 stay |
| EditorText.RememberedKeepsBounds | vscode-extension/out/extension.js:308-311 | the ids stay distinct and never pass 2000 |
| EditorText.SeenIds.See | vscode-extension/out/extension.js:306-311 | an event is acted on exactly when its id was not seen, and the id set is updated as above |
| EditorText.SeenIds.constructor | vscode-extension/out/extension.js:64 | no id is seen yet |
| EditorSources.TerminalSource | vscode-extension/out/extension.js:1231-1237 | a classified terminal is always a canonical hub id |
| EditorSources.TerminalSourceChoice | vscode-extension/out/extension.js:1209-1237 | a terminal is classified exactly when it is an agent terminal, and one matching both is Codex |
| EditorSources.ExecutionSource | vscode-extension/out/extension.js:1672-1688 | a classified command is always a canonical hub id |
| EditorSources.ExecutionSourceChoice | vscode-extension/out/extension.js:1672-1688 | no command line names nothing; a command mentioning a Codex word is Codex when Codex detection is on; Claude Code needs its detection on and no Codex match |
| EditorSources.ClassifiedSourcesAreCanonical | vscode-extension/out/extension.js:1231-1237 | the hub keeps every source the extension names unchanged (`normalizeSource` is the identity on them) |
| EditorSources.SourceLabel | vscode-extension/out/extension.js:1669-1671 | "Codex" exactly for the codex source, "Claude Code" for everything else |
| EditorGeneration.MarkGeneratingFlag | vscode-extension/out/extension.js:1258-1276 | the returned flag is the one left; it is never cleared, set only when enabled, and "generating" is reported exactly when it is set |
| EditorGeneration.MarkGeneratingStarts | vscode-extension/out/extension.js:1258-1276 | outside the cooldown an enabled idle editor always starts generating |
| EditorGeneration.TriggerCompletionClears | vscode-extension/out/extension.js:1352-1393 | acts only when generating and enabled, then clears the flag; one "complete" with a non-empty source is reported exactly when the hub is up and the cooldown does not hold |
| EditorGeneration.StartThenComplete | vscode-extension/out/extension.js:1258-1393 | a start and then a completion from idle report "generating" then "complete" and nothing else |
| EditorGeneration.Generation.MarkGenerating | vscode-extension/out/extension.js:1258-1276 | the editor state and the returned flag after `markGenerating` |
| EditorGeneration.Generation.TriggerCompletion | vscode-extension/out/extension.js:1352-1393 | the editor state after `triggerCompletion` |
| EditorGeneration.Generation.constructor | vscode-extension/out/extension.js:44-52 | not generating, with no completion pending and no current source |
| EditorHub.LastMatch | vscode-extension/out/extension.js:1447-1452 | the backward scan stops at the most recent entry with the same source and status, none when there is none |
| EditorHub.KeepNewest | vscode-extension/out/extension.js:1454-1456 | the newest `n` entries, in order |
| EditorHub.Enqueued | vscode-extension/out/extension.js:1444-1457 | the queue holds between 1 and 50 entries and ends with the new event |
| EditorHub.EnqueuedShape | vscode-extension/out/extension.js:1444-1457 | besides the oldest entries cut by the cap only the latest same-key entry leaves; the rest keep their order |
| EditorHub.EnqueuedKeysUnique | vscode-extension/out/extension.js:1444-1457 | source and status stay unique in the queue, so replays never pile up duplicates |
| EditorHub.NextBackoff | vscode-extension/out/extension.js:1511-1512 | the first failure waits 1 s, later ones double, never above 60 s |
| EditorHub.BackoffClosedForm | vscode-extension/out/extension.js:1511-1512 | after k failures in a row the wait is 1 s doubled k-1 times, capped at 60 s |
| EditorHub.BackoffGrows | vscode-extension/out/extension.js:1511-1512 | the wait never shrinks while failures continue and stays between 1 s and 60 s |
| EditorHub.AfterReply | vscode-extension/out/extension.js:1499-1530 | a 200 resets the link; another status only disconnects; a failure disconnects and backs off from the request time |
| EditorHub.FlushPosts | vscode-extension/out/extension.js:1578-1580 | a flush posts at most the events it took |
| EditorHub.FlushAllAccepted | vscode-extension/out/extension.js:1571-1581 | with every reply a 200, the whole queue is posted in FIFO order |
| EditorHub.FlushStopsAfterFailure | vscode-extension/out/extension.js:1476-1477 | once the link is down the rest of the flush posts nothing: those events are lost, not re-queued |
| EditorHub.HubLink.Enqueue | vscode-extension/out/extension.js:1444-1457 | the queue after `enqueueHubEvent` |
| EditorHub.HubLink.Report | vscode-extension/out/extension.js:1472-1477 | a report is posted exactly when enabled, connected and past the back-off |
| EditorHub.HubLink.Replied | vscode-extension/out/extension.js:1497-1530 | the link after a reply |
| EditorHub.HubLink.Flush | vscode-extension/out/extension.js:1571-1581 | with a connected link past its back-off and a non-empty queue, the queue is emptied and its snapshot reported in order; otherwise nothing changes |
| EditorHub.HubLink.constructor | vscode-extension/out/extension.js:65-73 | an empty queue, no back-off and no hub request made |
| Dashboard.DerivedStatus | dashboard/app.js:294-301 | shows generating exactly when the raw status is generating, and ready only for a complete or ready session |
| Dashboard.DerivedStatusCases | dashboard/app.js:294-301 | generating whatever its age; otherwise idle without a time or after three quiet minutes; otherwise ready for complete or ready, else the lower-cased status |
| Dashboard.DerivedStatusStable | dashboard/app.js:294-301 | a session shown with its derived status in place of its own shows the same |
| Dashboard.Insert | dashboard/app.js:317-322 | inserting a card adds exactly that card |
| Dashboard.InsertSorted | dashboard/app.js:317-322 | inserting into a list sorted by the comparator keeps it sorted |
| Dashboard.SortCards | dashboard/app.js:312-322 | the display order holds the same cards, each as often |
| Dashboard.SortCardsSorted | dashboard/app.js:312-322 | the display order is sorted: generating, then ready, then the rest, most recent first within a rank, and a permutation of the cards |
| Dashboard.SessionEntries | dashboard/app.js:86-88 | exactly the session ids whose source entry is not `hidden: true` |
| Dashboard.Cards | dashboard/app.js:312-316 | one card per listed id, in list order, with its derived status and time |
| Dashboard.SessionCardsShown | dashboard/app.js:303-322 | the grid is sorted and shows exactly the sessions that are not hidden, each with its own status and time |
| Dashboard.CardsListed | dashboard/app.js:312-322 | any reordering of the cards holds a card for exactly the listed ids |
| Dashboard.CompletionSources | dashboard/app.js:503-505 | exactly the completions' non-empty sources |
| Dashboard.UsageSourceIds | dashboard/app.js:500-507 | the session entries and the non-empty completion sources, each exactly once |
| Dashboard.UsageSourceIdsOrder | dashboard/app.js:500-507 | the session entries come first, each once and in their order; after them only sources not among the entries, in the order they are first seen |
| Dashboard.UsageEnabled | dashboard/app.js:511 | exactly the ids whose entry does not say `usageEnabled: false` |
| Dashboard.ActiveUsageSourcesChoice | dashboard/app.js:509-513 | the usage-enabled ids when there is one, otherwise all ids, so the list is empty only when there are no ids |
| Dashboard.DashboardState.OnCompletion | dashboard/app.js:194-198 | the completion goes first and the list is cut to 50 |
| Dashboard.DashboardState.OnSessionUpdate | dashboard/app.js:186-190 | a known session takes the status and timestamp; an unknown id changes nothing |
| Dashboard.CompletionListBounded | dashboard/app.js:194-198 | the list holds at most 50 completions, the newest first |
| Dashboard.Exported | dashboard/app.js:1279-1283 | exactly the completions of the source, if one is given, inside the time range, in list order |
| Dashboard.CsvLinesAreExported | dashboard/app.js:1276-1291 | the file is the header and then exactly one row per exported completion, in list order |
| Dashboard.DashboardState.constructor | dashboard/app.js:10-12 | no sessions and no completions |
| DashboardFormat.FormatDurationParts | dashboard/app.js:724-730 | under a minute the text is the whole seconds; from a minute on it is minutes and a remainder below 60 that together make the whole seconds |
| DashboardFormat.FormatDurationReadable | dashboard/app.js:724-730 | from a minute on, equal texts mean equal whole seconds: the text can be read back |
| DashboardFormat.MinutesSecondsApart | dashboard/app.js:729 | digits joined by "m " and ending in "s" split back uniquely |
| DashboardFormat.FormatTimeAgoBuckets | dashboard/app.js:582-591 | "just now" exactly under a minute; otherwise n and the unit, where n whole units fit in the difference and n+1 do not, and n stays below the next unit |
| DashboardFormat.CharSumAppend | dashboard/app.js:103 | the hash of a concatenation is the sum of the hashes |
| DashboardFormat.CharSumSwap | dashboard/app.js:103 | the hash ignores the order of the id's halves |
| DashboardFormat.Hue | dashboard/app.js:104 | the hue lies in [0, 360) |
| DashboardFormat.SourceColorChoice | dashboard/app.js:100-107 | a non-empty colour override wins; otherwise the built-in colour; otherwise a hue in [0, 360) from the id alone |
| ExtSites.MatchPatternsShape | chrome-extension/background.js:548-557 | after stripping a leading "www.", an empty domain gives no pattern and any other gives exactly four: https and http, each for the domain itself and for all its subdomains |
| ExtSites.WwwPrefixIgnored | chrome-extension/background.js:548-557 | a leading "www." changes none of a domain's match patterns |
| ExtSites.CleanAll | chrome-extension/background.js:372 | the cleaned domain list holds no empty domain and is no longer than the input |
| ExtSites.CleanAllKeeps | chrome-extension/background.js:372 | every domain that does not clean to the empty string is kept |
| ExtSites.NewSiteDomains | chrome-extension/background.js:453 | the new site's domains are non-empty and pairwise distinct |
| ExtSites.AddCustomSiteOutcome | chrome-extension/background.js:446-467 | a site missing its id, name or domains is refused as invalid data, and one whose domains all clean away as an invalid domain; otherwise the new site, with its cleaned domains, is appended last, every other stored site shares neither its id nor a domain, and every stored site that shares neither is kept |
| ExtSites.AddedIdUnique | chrome-extension/background.js:460-467 | after a successful add, the new site is the only stored site with its id |
| ExtSites.RemoveCustomSiteExact | chrome-extension/background.js:486-492 | removing keeps exactly the sites whose id differs, in order, and removing twice is removing once |
| ExtSites.ToggleCustomSite | chrome-extension/background.js:494-500 | toggling keeps the number of sites |
| ExtSites.ToggleOnlyEnabled | chrome-extension/background.js:494-500 | every site with the id gets the new enabled value and every other site is unchanged, in place |
| ExtSites.FirstKnown | chrome-extension/background.js:373 | nothing is found exactly when no domain is well known; otherwise the result is the entry of the first well-known domain |
| ExtSites.CanonicalRewrite | chrome-extension/background.js:371-378 | the rewritten site takes the id and name of its first well-known domain, or keeps its own when it has none |
| ExtSites.CanonicalAll | chrome-extension/background.js:371-378 | every stored site is rewritten, one for one |
| ExtSites.FirstPerId | chrome-extension/background.js:376-377 | the kept sites carry pairwise distinct ids, none already seen |
| ExtSites.Normalized | chrome-extension/background.js:369-378 | the normalised list is no longer than the stored one and has pairwise distinct ids |
| ExtSites.FirstPerIdFirstWins | chrome-extension/background.js:376-377 | each kept site is the first site of its id |
| ExtSites.FirstPerIdCovers | chrome-extension/background.js:376-377 | no id is lost: every site's id is kept unless it was seen before |
| ExtSites.NormalizedFirstWins | chrome-extension/background.js:369-378 | for each id the rewritten sites carry, exactly the first stored site that rewrites to it survives, rewritten |
| ExtSites.NormalizeSites | chrome-extension/background.js:369-378 | the loop with its seen-id set computes the normalised list |
| ExtSites.SyncCustomSitesOutcome | chrome-extension/background.js:346-396 | an empty list is left alone; a hub with no extension source clears the list; if normalising dropped a duplicate the normalised list is written; otherwise nothing is written exactly when no site is hidden by the hub, and a write keeps exactly the sites it does not hide |
| ExtContent.SubdomainMatches | chrome-extension/content.js:30-34 | every subdomain of a domain matches it |
| ExtContent.NoMatchInsideLabel | chrome-extension/content.js:30-34 | a host that merely ends in the domain's text, with no dot before it, does not match |
| ExtContent.HostMatchesIgnoresCase | chrome-extension/content.js:30-34 | matching ignores case on both sides |
| ExtContent.DetectSiteFirst | chrome-extension/content.js:17-28 | the detected site is the first enabled site with domains, in list order, that has a domain the host matches; with none such nothing is detected |
| ExtContent.ToggledOffNotDetected | chrome-extension/content.js:20 | a site toggled off is never detected |
| ExtContent.RemovedNotDetected | chrome-extension/content.js:17-28 | a removed site is never detected |
| ExtContent.HubSourceNameRenamesClaude | chrome-extension/content.js:37-45 | "claude" is reported to the hub as "claude-ai" and every other site name unchanged |
| ExtContent.ArmingSwitch | chrome-extension/content.js:54-78 | on a page that needs no arming both do nothing; otherwise arming unlocks the detector and starts the two-minute timer, disarming locks it, clears the arming time and cancels the timer, and disarming after arming equals disarming |
| ExtContent.OnlyGeminiNeedsArming | chrome-extension/content.js:153-164 | after init a page needs arming exactly when it detected the site "gemini" with the extension not disabled |
| ExtContent.ResponseTiming | chrome-extension/content.js:194-207 | a completion after a start at t0 reports t1 - t0 and forgets the start, so a second completion reports no duration |
| ExtContent.CompletionResets | chrome-extension/content.js:199-204 | every completion clears the start time and relocks a page that needs arming |
| ExtContent.ContentScript.Init | chrome-extension/content.js:143-165 | the page state becomes the init step of the old state |
| ExtContent.ContentScript.ArmDetector | chrome-extension/content.js:68-78 | the page state becomes the arming step of the old state |
| ExtContent.ContentScript.DisarmDetector | chrome-extension/content.js:54-66 | the page state becomes the disarming step of the old state |
| ExtContent.ContentScript.OnArmTimer | chrome-extension/content.js:72-74 | the timer's firing disarms the detector |
| ExtContent.ContentScript.OnGeneratingStart | chrome-extension/content.js:194-197 | the start time is recorded and "generating" is reported to the hub |
| ExtContent.ContentScript.NotifyCompletion | chrome-extension/content.js:199-242 | returns the duration since the recorded start, if any, and the state becomes the completion step |
| ExtCompletion.PresetOf | chrome-extension/background.js:194-228 | the chosen preset is never empty |
| ExtCompletion.PrefsDefaults | chrome-extension/background.js:194-211 | custom mode with nothing else set gives desktop and sound on, the chime and no alarm, as does a missing global object |
| ExtCompletion.UnconfiguredSiteIsGlobal | chrome-extension/background.js:184-211 | a site with no stored settings is on and follows the global preferences |
| ExtCompletion.ValidPreset | chrome-extension/background.js:571-576 | the result is a valid preset; it is the input exactly when the input is valid, and "chime" otherwise |
| ExtCompletion.AlarmGuards | chrome-extension/background.js:563-732 | starting either alarm while one is active does nothing; dismissing with none active does nothing; clearing affects only an active silent alarm; a dismissed alarm is inactive, its loop is stopped and one dismissal is posted to the hub; a started alarm is active, not silent, with the validated preset |
| ExtCompletion.StartThenDismiss | chrome-extension/background.js:563-732 | starting then dismissing an alarm leaves it inactive, having played the loop and then stopped it, with one dismissal posted to the hub |
| ExtCompletion.NotificationText | chrome-extension/background.js:233-242 | the notification text ends with the fixed suffix " has finished responding" and has a non-empty name in front of it |
| ExtCompletion.NotificationTextName | chrome-extension/background.js:233-242 | the name is a non-empty display name if there is one, else the built-in name of the four known sites, else the site id, else "AI" |
| ExtCompletion.CompletionGates | chrome-extension/background.js:163-225 | a disabled extension or Do Not Disturb changes nothing, not even the record; a site that is off, or a hub that is down, only records the completion |
| ExtCompletion.CompletionNotifies | chrome-extension/background.js:180-265 | past the gates the completion is recorded, the desktop notification is shown exactly when the preferences ask for it, and with the hub playing audio the worker plays nothing |
| ExtCompletion.HubSoundPath | chrome-extension/background.js:246-251 | with the hub playing audio the worker sends no sound and changes the alarm only to set a silent one, which it does whenever an alarm is asked for |
| ExtCompletion.LocalSoundPath | chrome-extension/background.js:252-265 | playing locally, the worker adds at most one sound: the alarm loop exactly when an alarm is asked for, otherwise the single chime exactly when sound is on; without an alarm no silent alarm survives |
| ExtCompletion.Background.StartAlarm | chrome-extension/background.js:563-645 | the state becomes the alarm-start step of the old state |
| ExtCompletion.Background.StartSilentAlarm | chrome-extension/background.js:647-665 | the state becomes the silent-alarm step of the old state |
| ExtCompletion.Background.ClearSilentAlarmIfAny | chrome-extension/background.js:667-678 | the state becomes the silent-alarm-clearing step of the old state |
| ExtCompletion.Background.DismissAlarm | chrome-extension/background.js:680-732 | the state becomes the dismissal step of the old state: with an active alarm, the loop stopped, the flag cleared and one `POST /api/dismiss` sent to the hub; otherwise nothing |
| ExtCompletion.Background.PlaySound | chrome-extension/background.js:901-987 | one sound with the validated preset is sent |
| ExtCompletion.Background.HandleCompletion | chrome-extension/background.js:163-265 | the state becomes the completion-handling step of the old state |
| ExtPopup.DashRuns | chrome-extension/popup/popup.js:370 | the result holds only slug characters and dashes with no two dashes in a row, is empty exactly when the input is, and starts with a dash exactly when the input starts with a non-slug character |
| ExtPopup.TrimDashes | chrome-extension/popup/popup.js:370 | trimming never lengthens the text |
| ExtPopup.SlugifyIsSlug | chrome-extension/popup/popup.js:369-371 | every slug holds only lower-case letters, digits and single inner dashes |
| ExtPopup.TrimDashesIsSlug | chrome-extension/popup/popup.js:370 | dropping the edge dashes of slug characters and single dashes leaves a slug |
| ExtPopup.DashRunsOfSlug | chrome-extension/popup/popup.js:370 | replacing runs in a string of slug characters and single dashes changes nothing |
| ExtPopup.SlugifyIdempotent | chrome-extension/popup/popup.js:369-371 | slugifying twice is slugifying once |
| ExtPopup.GetKnownSite | chrome-extension/popup/popup.js:227-239 | a site is known exactly when the lower-cased domain is one of the eight known domains |
| ExtPopup.GetKnownSiteAgrees | chrome-extension/popup/popup.js:227-239 | the lookup ignores case and agrees with the background sync's table on every domain it knows |
| ExtPopup.PresetIndex | chrome-extension/popup/popup.js:354 | the index found is of a preset the domain equals or lies under, and none earlier is; with none found no preset matches |
| ExtPopup.NameIndex | chrome-extension/popup/popup.js:358-359 | the index found is of a preset name the lower-cased title contains, and none earlier is; with none found the title names no preset |
| ExtPopup.SpaceRuns | chrome-extension/popup/popup.js:365 | the result holds no dash and no underscore |
| ExtPopup.DomainName | chrome-extension/popup/popup.js:364-366 | the name made from a domain is never empty |
| ExtPopup.InferName | chrome-extension/popup/popup.js:343-366 | the inferred name is never empty |
| ExtPopup.InferNamePresetFirst | chrome-extension/popup/popup.js:354-355 | the first preset the domain equals or lies under names the site, whatever the title |
| ExtPopup.InferNameFromTitle | chrome-extension/popup/popup.js:357-360 | off the preset domains, the first preset name the title mentions names the site |
| ExtPopup.InferNameCleanedTitle | chrome-extension/popup/popup.js:361-362 | failing both, a cleaned title of three or more characters is the name |
| ExtPopup.InferNameFromDomain | chrome-extension/popup/popup.js:364-366 | failing all three, the name comes from the domain and holds no dash or underscore after its first character |
| ExtPopup.NotificationSettings.SaveNotificationSetting | chrome-extension/popup/popup.js:373-385 | the stored notification settings change at that key only, to the new value, and the whole new object is then posted to the hub's `/api/settings` |
| ExtPopup.SavedAlarmFlag | chrome-extension/popup/popup.js:373-376 | saving the alarm flag changes only the alarm among the preferences the background worker reads |
| ExtDetector.Init | chrome-extension/lib/detectors.js:25-53 | the callbacks are kept, no timer is pending and the page is not generating; events and activity time stay |
| ExtDetector.GateBlocks | chrome-extension/lib/detectors.js:98-101 | while the page needs arming and is not armed, a generation signal changes nothing |
| ExtDetector.MarkReportsStartOnce | chrome-extension/lib/detectors.js:98-120 | past the gate the page is generating with no completion pending, the start callback is made exactly on the transition into generating, and a second signal changes nothing |
| ExtDetector.DebounceRules | chrome-extension/lib/detectors.js:79-120 | when the debounce ends, a completion is reported exactly when the page was generating and has a completion callback, and the page is then not generating; a generation signal past the gate during the debounce cancels it and the page stays generating |
| ExtDetector.IdleRule | chrome-extension/lib/detectors.js:559-568 | the idle timer starts the debounce only if it was pending, the page is generating and no text arrived for 1200 ms |
| ExtDetector.TextActivityRestartsIdle | chrome-extension/lib/detectors.js:545-550 | new text always records its time and restarts the idle timer, even behind the arming gate, and an idle timer firing less than 1200 ms later starts no debounce |
| ExtDetector.QuietStepCompletes | chrome-extension/lib/detectors.js:79-96 | one step with no new generation signal never removes a report |
| ExtDetector.QuietRunCompletesOnce | chrome-extension/lib/detectors.js:79-96 | with no new generation signal at most one completion is reported, and none if the page was not generating |
| ExtDetector.InitSilences | chrome-extension/lib/detectors.js:25-53 | after initialisation no timer reports a completion until generation is seen again |
| ExtDetector.DetectorModule.InitDetector | chrome-extension/lib/detectors.js:25-53 | the detector's state becomes the init step of the old state |
| ExtDetector.DetectorModule.TriggerCompletionNow | chrome-extension/lib/detectors.js:79-87 | the debounce timer is (re)started |
| ExtDetector.DetectorModule.OnDebounceTimer | chrome-extension/lib/detectors.js:86-95 | the state becomes the debounce-fired step of the old state |
| ExtDetector.DetectorModule.MarkGeneratingNow | chrome-extension/lib/detectors.js:98-120 | the state becomes the mark-generating step of the old state |
| ExtDetector.DetectorModule.OnPoll | chrome-extension/lib/detectors.js:531-535 | a streaming poll marks generation, and a quiet poll while generating starts the debounce |
| ExtDetector.DetectorModule.OnTextMutation | chrome-extension/lib/detectors.js:545-550 | the state becomes the text-activity step of the old state |
| ExtDetector.DetectorModule.OnIdleTimer | chrome-extension/lib/detectors.js:559-568 | the state becomes the idle-fired step of the old state |
| ExtPopup.DomainNameNoDash | chrome-extension/popup/popup.js:364-366 | the name made from a domain holds no dash or underscore after its first character |
| ExtPopup.NotificationSettings.constructor | chrome-extension/popup/popup.js:374 | the settings start as the stored notification object, with nothing posted yet |
| ExtContent.ContentScript.constructor | chrome-extension/content.js:47-52 | no site detected, no arming needed, not armed, no timer and no start time |
| ExtDetector.DetectorModule.constructor | chrome-extension/lib/detectors.js:8-16 | not generating, no timer pending, no callbacks, activity time 0 |

## Left out

- Transport is not modelled: HTTP routing, CORS, WebSocket connection objects and JSON serialisation. Broadcasts and hub reports are logs of message records, and a reply from the hub is an input to the method that handles it.
- Clocks, `Date.now()` ids and random ids are not modelled. Time and ids are parameters, and every timer's expiry is an explicit method (ack, timeout, debounce, idle and arm timers).
- Persistence is not modelled: settings-file I/O, `chrome.storage`, `lib/storage.js` and the offscreen document. Stored data is plain state, and the offscreen readiness check is not modelled, so a sound message is recorded whether or not the document is ready.
- OS integration is left out: desktop-notification rendering, `afplay`, launch-at-login and browser auto-open. Only the fact that a notification or fallback sound was issued is recorded.
- Floating point is left out: volumes, alarm escalation and their clamps.
- Audio synthesis is left out.
- Character handling is simplified. Case mapping is ASCII only; JavaScript maps other letters too. `Number()` is modelled for digit strings only. String lengths count characters, not UTF-16 code units, except in the colour hash.
- `Array.prototype.sort` is modelled as a sort by the same comparator; its stability is not proved, only the result's order and contents.
- A WebSocket that times out and is destroyed may also emit `error`. The extra back-off step this could cause in `reportToHub` is not modelled.
- The JSON `eventId` of the SSE feed is not modelled. Ids are strings already extracted, and the SSE parser itself is left out.
- Object-literal lookups (`knownDomainMap`, `getKnownSite`, the `getHubSourceName` mapping, `siteSettings`, `siteNames`, `sourceColors`) are modelled as plain maps. They would also see members inherited from `Object.prototype`; only `normalizeSource`'s case is modelled, under Findings.
- Custom-site entries that are `null`, or whose `domains` is missing, are not modelled. Every stored site has the four fields, and missing text is "".
- The DOM side of the detectors is not modelled: page polling, selectors, `mutationsContainText` and `MutationObserver` setup. A poll is reduced to its streaming flag and a text mutation to its time. The site-specific `init*Detector` functions are not modelled.
- Terminal-output parsing and file watching in the editor extension are not modelled: regexes, ANSI stripping, log tailing and the VS Code API.
- Dashboard rendering, the chart and the tooltip are not modelled.
- `syncCustomContentScripts` is not modelled beyond its match patterns (script registration with Chrome).
- `reportHubIdle` is not modelled (a report to the hub).
- `normalizeNotifications` and `syncSettingsFromHub` are not modelled. They copy hub settings into the extension's storage and are not among the functions modelled here.
- The uptime check at the start of `syncCustomSitesFromHub` is not modelled. When the hub has restarted, that check clears the site list before the modelled part of the sync runs.
- `hubDesktopEnabled` in `handleCompletion` is computed but never used, so it is not modelled.
- Settings updates are typed. An update that carries `null` for a field, or a key the settings do not know, is not modelled; the source's spread copies both into the settings (server/index.js:127-130).
- Hub.HubState.RefreshStaleSessions: sessions are swept, and their demotions broadcast, in insertion order. JavaScript visits integer-like ids such as "42" first, in ascending numeric order, so for such ids the order of the broadcasts differs; the model assumes ids that are not integer-like.
- ExtCompletion.Background.StartAlarm, ExtCompletion.Background.StartSilentAlarm and ExtCompletion.AlarmGuards: each handler runs as one atomic step. In the source the check of `alarmState` and its update are separated by awaits (chrome-extension/background.js:565-589 and 648-651), so two completions close together could both pass the check and both start an alarm; the model does not capture that interleaving.
- EditorHub.HubLink.Flush and EditorHub.HubLink.FlushAllAccepted: a flush runs as one atomic step. In the source `checkHubConnection` (vscode-extension/out/extension.js:1535-1570, on the timer set at line 163) or a concurrent `reportToHub` can mark the hub disconnected part-way through a flush. The snapshot was already taken off the queue (vscode-extension/out/extension.js:1576-1577) and `reportToHub` does not re-queue once disconnected (lines 1477-1478), so the rest of the snapshot is then dropped; the model does not capture that interleaving.
- The content script's report to the hub (chrome-extension/content.js:117-131) is modelled by its source, status and duration. Its `displayName`, `origin: 'extension'`, `domains`, `url` and `timestamp` fields are not carried; what the hub does with an extension origin (no desktop notification) is modelled in HubPolicy.CompletionOutcome.
- Hub.AckKeepsInvariant: the promise that a fallback never fires after an acknowledgement or twice for one id is proved for fresh request ids. The source builds ids from `Date.now()` and a random suffix and does not guard against a collision.
- Hub.TimeoutKeepsInvariant: likewise proved for fresh request ids only.

## Findings

| source | as written | input that shows it | evidently intended | confidence | as-written member | corrected member |
|---|---|---|---|---|---|---|
| server/index.js:714 | `mapping[source.toLowerCase()] \|\| source.toLowerCase()` reads a plain object, so a key that names an `Object.prototype` member finds that inherited member | source "Constructor": the key "constructor" yields Object's constructor function, which becomes the session id | an unknown name comes back lower-cased: "constructor" | not executed | SourceNames.AsWrittenReturnsInheritedMember | SourceNames.NormalizeSource |
