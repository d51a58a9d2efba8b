/**
  The completion detector shared by every site (chrome-extension/lib/detectors.js):
  the generating flag, the 500 ms debounce before a completion is reported,
  the arming gate, and the text-activity fallback that reports a completion
  after 1200 ms without new text. The page observers that decide whether a
  site is streaming are left out; what they report arrives here as a
  `streaming` flag or a text-activity event. Timers are flags saying that a
  callback is scheduled; their firing is a step of its own. The two
  callbacks the content script passes in are recorded as events.
 */
module ExtDetector {
  import opened Options

  /** Debounce delay before a completion is reported (`DEBOUNCE_DELAY`). */
  const DebounceDelay: nat := 500
  /** Quiet time after the last text change before the fallback reports a completion. */
  const IdleDelay: nat := 1200

  /** A callback the detector made. */
  datatype Event = GenerationStarted | ResponseComplete

  datatype Detector = Detector(
    generating: bool,
    debouncePending: bool,
    idlePending: bool,
    lastActivity: int,
    onComplete: bool,
    onGeneratingStart: bool,
    events: seq<Event>)

  /** `window.__llmNotifyRequireArm && !window.__llmNotifyArmed` is false. */
  predicate Unlocked(requireArm: bool, armed: Option<bool>) {
    !requireArm || IsTrue(armed)
  }

  function CountComplete(events: seq<Event>): (n: nat)
    ensures n <= |events|
  {
    if events == [] then 0
    else CountComplete(events[..|events| - 1]) + (if events[|events| - 1] == ResponseComplete then 1 else 0)
  }

  // --------------------------------------------------------------- steps

  /** `initDetector(site, onComplete, onGeneratingStart)`: callbacks kept, timers cleared, not generating. */
  function Init(d: Detector, onComplete: bool, onGeneratingStart: bool): (r: Detector)
    ensures !r.generating && !r.debouncePending && !r.idlePending
    ensures r.onComplete == onComplete && r.onGeneratingStart == onGeneratingStart
    ensures r.events == d.events && r.lastActivity == d.lastActivity
  {
    Detector(false, false, false, d.lastActivity, onComplete, onGeneratingStart, d.events)
  }

  /** `triggerCompletion()`: (re)schedule the debounced completion. */
  function TriggerCompletion(d: Detector): Detector {
    d.(debouncePending := true)
  }

  /** The debounce timer of `triggerCompletion` firing. */
  function DebounceFired(d: Detector): Detector {
    if !d.debouncePending then d
    else if !d.generating then d.(debouncePending := false)
    else d.(debouncePending := false, generating := false,
            events := d.events + (if d.onComplete then [ResponseComplete] else []))
  }

  /** `markGenerating()` with the page's arming flags. */
  function MarkGenerating(d: Detector, requireArm: bool, armed: Option<bool>): Detector {
    if !Unlocked(requireArm, armed) then d
    else
      var started := !d.generating && d.onGeneratingStart;
      d.(generating := true, debouncePending := false,
         events := d.events + (if started then [GenerationStarted] else []))
  }

  /** A site detector's poll: streaming marks generation, its end triggers the completion. */
  function Observe(d: Detector, streaming: bool, requireArm: bool, armed: Option<bool>): Detector {
    if streaming then MarkGenerating(d, requireArm, armed)
    else if d.generating then TriggerCompletion(d)
    else d
  }

  /** The activity observer seeing new text at `now`, then `scheduleIdleCompletion()`. */
  function TextActivity(d: Detector, now: int, requireArm: bool, armed: Option<bool>): Detector {
    MarkGenerating(d.(lastActivity := now), requireArm, armed).(idlePending := true)
  }

  /** The idle timer of `scheduleIdleCompletion` firing at `now`. */
  function IdleFired(d: Detector, now: int): Detector {
    if !d.idlePending then d
    else
      var e := d.(idlePending := false);
      if e.generating && now - e.lastActivity >= IdleDelay as int then TriggerCompletion(e) else e
  }

  // --------------------------------------------------------------- properties

  /** While the page requires arming and is not armed, a generation signal changes nothing. */
  lemma GateBlocks(d: Detector, requireArm: bool, armed: Option<bool>)
    requires requireArm && !IsTrue(armed)
    ensures MarkGenerating(d, requireArm, armed) == d
    ensures Observe(d, true, requireArm, armed) == d
  {
  }

  /**
    Past the gate the detector is generating with no completion pending,
    and the start callback is made exactly when generation was not already
    under way: a stream of signals reports its start once.
   */
  lemma MarkReportsStartOnce(d: Detector, requireArm: bool, armed: Option<bool>)
    requires Unlocked(requireArm, armed)
    ensures var m := MarkGenerating(d, requireArm, armed);
      m.generating && !m.debouncePending
      && (m.events != d.events <==> !d.generating && d.onGeneratingStart)
      && MarkGenerating(m, requireArm, armed) == m
  {
  }

  /**
    A completion is reported only for a generation in progress, and only
    when the debounce ends; a generation signal within the debounce window
    cancels it, and the response goes on.
   */
  lemma DebounceRules(d: Detector, requireArm: bool, armed: Option<bool>)
    ensures var f := DebounceFired(TriggerCompletion(d));
      (f.events != d.events <==> d.generating && d.onComplete)
      && !f.generating && !f.debouncePending
    ensures Unlocked(requireArm, armed) ==>
      var m := MarkGenerating(TriggerCompletion(d), requireArm, armed);
      DebounceFired(m) == m && m.generating
  {
  }

  /**
    The fallback triggers a completion only when its timer is pending, the
    page is generating, and no text has arrived for 1200 ms.
   */
  lemma IdleRule(d: Detector, now: int)
    ensures var r := IdleFired(d, now);
      !r.idlePending && r.generating == d.generating && r.events == d.events
      && (r.debouncePending <==> d.debouncePending || (d.idlePending && d.generating && now - d.lastActivity >= 1200))
  {
  }

  /** New text always restarts the quiet period, even behind the arming gate. */
  lemma TextActivityRestartsIdle(d: Detector, now: int, requireArm: bool, armed: Option<bool>)
    ensures var r := TextActivity(d, now, requireArm, armed);
      r.lastActivity == now && r.idlePending
      && IdleFired(r, now + IdleDelay as int - 1).debouncePending == r.debouncePending
  {
  }

  // --------------------------------------------------------------- runs

  /** A step that carries no sign of generation. */
  datatype QuietStep = Trigger | DebounceFire | IdleFire(now: int) | NotStreaming

  function QuietApply(d: Detector, step: QuietStep): Detector {
    match step
    case Trigger => TriggerCompletion(d)
    case DebounceFire => DebounceFired(d)
    case IdleFire(now) => IdleFired(d, now)
    case NotStreaming => Observe(d, false, false, None)
  }

  function QuietRun(d: Detector, steps: seq<QuietStep>): Detector
    decreases |steps|
  {
    if steps == [] then d else QuietRun(QuietApply(d, steps[0]), steps[1..])
  }

  lemma CountCompleteAppend(a: seq<Event>, b: seq<Event>)
    requires |b| <= 1
    ensures CountComplete(a + b) == CountComplete(a) + CountComplete(b)
  {
    if b != [] {
      assert (a + b)[..|a + b| - 1] == a && (a + b)[|a + b| - 1] == b[0];
      assert b[..|b| - 1] == [];
      assert CountComplete(b) == if b[0] == ResponseComplete then 1 else 0;
    } else {
      assert a + b == a;
    }
  }

  /** One quiet step reports a completion only by ending a generation. */
  lemma QuietStepCompletes(d: Detector, step: QuietStep)
    ensures var e := QuietApply(d, step);
      CountComplete(d.events) <= CountComplete(e.events)
      <= CountComplete(d.events) + (if d.generating && !e.generating then 1 else 0)
      && (e.generating ==> d.generating)
  {
    var e := QuietApply(d, step);
    var added := e.events[|d.events|..];
    assert e.events == d.events + added;
    CountCompleteAppend(d.events, added);
  }

  /**
    Without a new sign of generation the detector reports at most one
    completion, and none when it was not generating: one response, one
    notification.
   */
  lemma {:induction false} QuietRunCompletesOnce(d: Detector, steps: seq<QuietStep>)
    ensures var r := QuietRun(d, steps);
      CountComplete(d.events) <= CountComplete(r.events) <= CountComplete(d.events) + (if d.generating then 1 else 0)
      && (r.generating ==> d.generating)
    decreases |steps|
  {
    if steps != [] {
      QuietStepCompletes(d, steps[0]);
      QuietRunCompletesOnce(QuietApply(d, steps[0]), steps[1..]);
    }
  }

  /** After `initDetector` no timer can report a completion until generation is seen again. */
  lemma InitSilences(d: Detector, onComplete: bool, onGeneratingStart: bool, steps: seq<QuietStep>)
    ensures CountComplete(QuietRun(Init(d, onComplete, onGeneratingStart), steps).events) == CountComplete(d.events)
  {
    QuietRunCompletesOnce(Init(d, onComplete, onGeneratingStart), steps);
  }

  // --------------------------------------------------------------- the module

  /** The detector module's variables; the page observers and timer handles are left out. */
  class DetectorModule {
    var isGenerating: bool
    var debounceTimer: bool
    var activityIdleTimer: bool
    var lastActivityTs: int
    var completionCallback: bool
    var generatingCallback: bool
    var callbacks: seq<Event>

    function State(): Detector
      reads this
    {
      Detector(isGenerating, debounceTimer, activityIdleTimer, lastActivityTs,
               completionCallback, generatingCallback, callbacks)
    }

    constructor()
      ensures State() == Detector(false, false, false, 0, false, false, [])
    {
      isGenerating, debounceTimer, activityIdleTimer := false, false, false;
      lastActivityTs := 0;
      completionCallback, generatingCallback := false, false;
      callbacks := [];
    }

    method InitDetector(onComplete: bool, onGeneratingStart: bool)
      modifies this
      ensures State() == Init(old(State()), onComplete, onGeneratingStart)
    {
      completionCallback := onComplete;
      generatingCallback := onGeneratingStart;
      debounceTimer := false;
      activityIdleTimer := false;
      isGenerating := false;
    }

    method TriggerCompletionNow()
      modifies this
      ensures State() == TriggerCompletion(old(State()))
    {
      debounceTimer := true;
    }

    method OnDebounceTimer()
      modifies this
      ensures State() == DebounceFired(old(State()))
    {
      if debounceTimer {
        debounceTimer := false;
        if isGenerating {
          isGenerating := false;
          if completionCallback {
            callbacks := callbacks + [ResponseComplete];
          }
        }
      }
    }

    method MarkGeneratingNow(requireArm: bool, armed: Option<bool>)
      modifies this
      ensures State() == MarkGenerating(old(State()), requireArm, armed)
    {
      if requireArm && !IsTrue(armed) {
        return;
      }
      if !isGenerating {
        isGenerating := true;
        if generatingCallback {
          callbacks := callbacks + [GenerationStarted];
        }
      }
      debounceTimer := false;
    }

    method OnPoll(streaming: bool, requireArm: bool, armed: Option<bool>)
      modifies this
      ensures State() == Observe(old(State()), streaming, requireArm, armed)
    {
      if streaming {
        MarkGeneratingNow(requireArm, armed);
      } else if isGenerating {
        TriggerCompletionNow();
      }
    }

    method OnTextMutation(now: int, requireArm: bool, armed: Option<bool>)
      modifies this
      ensures State() == TextActivity(old(State()), now, requireArm, armed)
    {
      lastActivityTs := now;
      MarkGeneratingNow(requireArm, armed);
      activityIdleTimer := true;
    }

    method OnIdleTimer(now: int)
      modifies this
      ensures State() == IdleFired(old(State()), now)
    {
      if activityIdleTimer {
        activityIdleTimer := false;
        if isGenerating && now - lastActivityTs >= IdleDelay as int {
          TriggerCompletionNow();
        }
      }
    }
  }
}
