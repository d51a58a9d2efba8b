/**
  The editor extension's link to the hub (vscode-extension/out/extension.js):
  the bounded, de-duplicating queue of hub events (`enqueueHubEvent`,
  `flushPendingHubEvents`), the capped exponential back-off after a failed
  request, and the gate `reportToHub` checks before every `POST /api/event`.

  The HTTP request itself is an input: each report that passes the gate is
  appended to `posted`, and its reply (a status code, or an error or a
  timeout) is a parameter.
 */
module EditorHub {
  import opened Options

  const MaxPendingHubEvents := 50
  const HubBackoffMaxMs := 60000
  const HubBackoffFirstMs := 1000

  datatype HubEvent = HubEvent(source: string, status: string, duration: Option<int>, ts: int)

  predicate SameKey(e: HubEvent, source: string, status: string) {
    e.source == source && e.status == status
  }

  // ---------------------------------------------------------------- queue

  /** Where the backward scan of `enqueueHubEvent` stops: the most recent entry with this source and status. */
  function LastMatch(q: seq<HubEvent>, source: string, status: string): (r: Option<nat>)
    ensures r.Some? ==> r.value < |q| && SameKey(q[r.value], source, status)
    ensures r.Some? ==> forall k :: r.value < k < |q| ==> !SameKey(q[k], source, status)
    ensures r.None? ==> forall k :: 0 <= k < |q| ==> !SameKey(q[k], source, status)
  {
    if q == [] then None
    else if SameKey(q[|q| - 1], source, status) then Some(|q| - 1)
    else LastMatch(q[..|q| - 1], source, status)
  }

  /** The queue without the entry at `at`, if any. */
  function Without(q: seq<HubEvent>, at: Option<nat>): seq<HubEvent>
    requires at.Some? ==> at.value < |q|
  {
    match at
    case None => q
    case Some(i) => q[..i] + q[i + 1..]
  }

  /** `q.slice(-n)` when the queue is longer than `n`. */
  function KeepNewest(q: seq<HubEvent>, n: nat): (r: seq<HubEvent>)
    ensures |r| == if |q| <= n then |q| else n
    ensures r == q[|q| - |r|..]
  {
    if |q| > n then q[|q| - n..] else q
  }

  /** The queue after `enqueueHubEvent(e.source, e.status, e.duration)` at time `e.ts`. */
  function Enqueued(q: seq<HubEvent>, e: HubEvent): (r: seq<HubEvent>)
    ensures 1 <= |r| <= MaxPendingHubEvents && r[|r| - 1] == e
  {
    KeepNewest(Without(q, LastMatch(q, e.source, e.status)) + [e], MaxPendingHubEvents)
  }

  /** No two queued entries share a source and a status. */
  predicate KeysUnique(q: seq<HubEvent>) {
    forall i, j :: 0 <= i < j < |q| ==> !SameKey(q[j], q[i].source, q[i].status)
  }

  /**
    At most one entry leaves besides the oldest ones cut by the cap: the most
    recent one with the same source and status. Everything else keeps its
    order, and the new event is last.
   */
  lemma EnqueuedShape(q: seq<HubEvent>, e: HubEvent)
    ensures var m := LastMatch(q, e.source, e.status);
      var kept := Without(q, m);
      |kept| == (if m.Some? then |q| - 1 else |q|)
      && Enqueued(q, e) == KeepNewest(kept + [e], MaxPendingHubEvents)
      && (m.Some? ==> multiset(kept) + multiset{q[m.value]} == multiset(q))
      && (m.None? ==> kept == q)
  {
    var m := LastMatch(q, e.source, e.status);
    if m.Some? {
      var i := m.value;
      assert q == q[..i] + [q[i]] + q[i + 1..];
    }
  }

  /** Enqueueing keeps source and status unique when they were, so replays never pile up duplicates. */
  lemma EnqueuedKeysUnique(q: seq<HubEvent>, e: HubEvent)
    requires KeysUnique(q)
    ensures KeysUnique(Enqueued(q, e))
  {
    var m := LastMatch(q, e.source, e.status);
    var kept := Without(q, m);
    var grown := kept + [e];
    forall k | 0 <= k < |kept| ensures !SameKey(kept[k], e.source, e.status) {
      match m
      case None =>
      case Some(i) =>
        if k < i {
          assert kept[k] == q[k];
          assert !SameKey(q[i], q[k].source, q[k].status);
        } else {
          assert kept[k] == q[k + 1];
        }
    }
    assert KeysUnique(kept) by {
      forall a, b | 0 <= a < b < |kept| ensures !SameKey(kept[b], kept[a].source, kept[a].status) {
        match m
        case None =>
        case Some(i) =>
          var qa := if a < i then a else a + 1;
          var qb := if b < i then b else b + 1;
          assert kept[a] == q[qa] && kept[b] == q[qb];
      }
    }
    assert KeysUnique(grown);
    var r := KeepNewest(grown, MaxPendingHubEvents);
    var off := |grown| - |r|;
    forall a, b | 0 <= a < b < |r| ensures !SameKey(r[b], r[a].source, r[a].status) {
      assert r[a] == grown[off + a] && r[b] == grown[off + b];
    }
  }

  // -------------------------------------------------------------- back-off

  /** `Math.min(HUB_BACKOFF_MAX_MS, hubBackoffMs ? hubBackoffMs * 2 : 1000)`. */
  function NextBackoff(prev: nat): (next: nat)
    ensures next <= HubBackoffMaxMs
    ensures prev == 0 ==> next == HubBackoffFirstMs
    ensures prev != 0 ==> next == if 2 * prev < HubBackoffMaxMs then 2 * prev else HubBackoffMaxMs
  {
    var doubled := if prev != 0 then prev * 2 else HubBackoffFirstMs;
    if HubBackoffMaxMs < doubled then HubBackoffMaxMs else doubled
  }

  function Pow2(k: nat): (p: nat)
    ensures p >= 1
  {
    if k == 0 then 1 else 2 * Pow2(k - 1)
  }

  /** The back-off after `k` failures in a row, starting from a reset link. */
  function BackoffAfter(k: nat): nat {
    if k == 0 then 0 else NextBackoff(BackoffAfter(k - 1))
  }

  /** After `k` >= 1 failures in a row the back-off is 1 s doubled `k - 1` times, capped at 60 s. */
  lemma {:induction false} BackoffClosedForm(k: nat)
    requires k >= 1
    ensures BackoffAfter(k) == if HubBackoffFirstMs * Pow2(k - 1) < HubBackoffMaxMs
                               then HubBackoffFirstMs * Pow2(k - 1) else HubBackoffMaxMs
  {
    if k > 1 {
      BackoffClosedForm(k - 1);
      var p := HubBackoffFirstMs * Pow2(k - 2);
      assert HubBackoffFirstMs * Pow2(k - 1) == 2 * p;
    }
  }

  /** The back-off never decreases while failures continue, and stays between 1 s and 60 s. */
  lemma BackoffGrows(prev: nat)
    requires prev == 0 || HubBackoffFirstMs <= prev <= HubBackoffMaxMs
    ensures HubBackoffFirstMs <= NextBackoff(prev) <= HubBackoffMaxMs
    ensures prev <= NextBackoff(prev)
  {
  }

  // ------------------------------------------------------------------ gate

  /** A reply to one `POST /api/event`: a status code, or an error or a 2 s timeout. */
  datatype Reply = Status(code: int) | Failure

  /** `reportToHub` sends only when enabled, connected and past `nextHubAttemptAt`. */
  predicate MaySend(enabled: bool, connected: bool, nextAttemptAt: int, now: int) {
    enabled && connected && now >= nextAttemptAt
  }

  /** The link's connection flag and back-off. */
  datatype Link = Link(connected: bool, backoffMs: nat, nextAttemptAt: int)

  /** The link after a reply to a request sent at `now`: 200 resets it, any other code only disconnects, a failure backs off. */
  function AfterReply(l: Link, reply: Reply, now: int): (r: Link)
    ensures reply == Status(200) ==> r == Link(true, 0, 0)
    ensures reply.Status? && reply.code != 200 ==> r == l.(connected := false)
    ensures reply.Failure? ==> !r.connected && r.backoffMs == NextBackoff(l.backoffMs)
                               && r.nextAttemptAt == now + r.backoffMs
  {
    match reply
    case Status(code) => if code == 200 then Link(true, 0, 0) else l.(connected := false)
    case Failure => var b := NextBackoff(l.backoffMs); Link(false, b, now + b)
  }

  /**
    The reports of one flush, in queue order: each event passes the gate on
    the link as the previous replies left it, and a sent one consumes the
    next reply.
   */
  function FlushPosts(batch: seq<HubEvent>, replies: seq<Reply>, l: Link, enabled: bool, now: int): (r: (seq<HubEvent>, Link))
    ensures |r.0| <= |batch|
    decreases |batch|
  {
    if batch == [] then ([], l)
    else if MaySend(enabled, l.connected, l.nextAttemptAt, now) then
      var reply := if replies != [] then replies[0] else Failure;
      var rest := FlushPosts(batch[1..], if replies != [] then replies[1..] else [], AfterReply(l, reply, now), enabled, now);
      ([batch[0]] + rest.0, rest.1)
    else
      var rest := FlushPosts(batch[1..], replies, l, enabled, now);
      (rest.0, rest.1)
  }

  /** With every reply a 200, a flush posts the whole queue in FIFO order. */
  lemma {:induction false} FlushAllAccepted(batch: seq<HubEvent>, replies: seq<Reply>, l: Link, enabled: bool, now: int)
    requires enabled && l.connected && now >= l.nextAttemptAt && now >= 0
    requires |replies| >= |batch| && forall k :: 0 <= k < |replies| ==> replies[k] == Status(200)
    ensures FlushPosts(batch, replies, l, enabled, now).0 == batch
    decreases |batch|
  {
    if batch != [] {
      FlushAllAccepted(batch[1..], replies[1..], Link(true, 0, 0), enabled, now);
    }
  }

  /** Once a request fails, the rest of the flush posts nothing: those events are lost, not re-queued. */
  lemma {:induction false} FlushStopsAfterFailure(batch: seq<HubEvent>, replies: seq<Reply>, l: Link, enabled: bool, now: int)
    requires !l.connected
    ensures FlushPosts(batch, replies, l, enabled, now).0 == []
    decreases |batch|
  {
    if batch != [] {
      FlushStopsAfterFailure(batch[1..], replies, l, enabled, now);
    }
  }

  /**
    The module-level state of the extension's hub link: `pendingHubEvents`,
    `hubConnected`, `hubBackoffMs`, `nextHubAttemptAt`, and the log of
    requests sent.
   */
  class HubLink {
    var queue: seq<HubEvent>
    var connected: bool
    var backoffMs: nat
    var nextAttemptAt: int
    var posted: seq<HubEvent>

    function State(): Link
      reads this
    {
      Link(connected, backoffMs, nextAttemptAt)
    }

    constructor()
      ensures queue == [] && State() == Link(false, 0, 0) && posted == []
    {
      queue, connected, backoffMs, nextAttemptAt, posted := [], false, 0, 0, [];
    }

    /** `enqueueHubEvent`: scan back for the most recent same source and status, drop it, append, keep the newest 50. */
    method Enqueue(source: string, status: string, duration: Option<int>, now: int)
      modifies this`queue
      ensures queue == Enqueued(old(queue), HubEvent(source, status, duration, now))
    {
      var i := |queue| - 1;
      var found: Option<nat> := None;
      while i >= 0
        invariant -1 <= i < |queue|
        invariant forall k :: i < k < |queue| ==> !SameKey(queue[k], source, status)
        decreases i
      {
        if queue[i].source == source && queue[i].status == status {
          found := Some(i);
          break;
        }
        i := i - 1;
      }
      assert found == LastMatch(queue, source, status);
      if found.Some? {
        queue := queue[..found.value] + queue[found.value + 1..];
      }
      queue := queue + [HubEvent(source, status, duration, now)];
      if |queue| > MaxPendingHubEvents {
        queue := queue[|queue| - MaxPendingHubEvents..];
      }
    }

    /** `reportToHub`'s gate: a report that passes it is posted; the reply comes back separately. */
    method Report(e: HubEvent, enabled: bool, now: int) returns (sent: bool)
      modifies this`posted
      ensures sent == MaySend(enabled, connected, nextAttemptAt, now)
      ensures posted == old(posted) + (if sent then [e] else [])
    {
      sent := enabled && connected && now >= nextAttemptAt;
      if sent {
        posted := posted + [e];
      }
    }

    /** The reply to a request sent at `now`. */
    method Replied(reply: Reply, now: int)
      modifies this`connected, this`backoffMs, this`nextAttemptAt
      ensures State() == AfterReply(old(State()), reply, now)
    {
      match reply
      case Status(code) =>
        connected := code == 200;
        if connected {
          backoffMs, nextAttemptAt := 0, 0;
        }
      case Failure =>
        connected := false;
        backoffMs := if backoffMs != 0 then backoffMs * 2 else HubBackoffFirstMs;
        if HubBackoffMaxMs < backoffMs {
          backoffMs := HubBackoffMaxMs;
        }
        nextAttemptAt := now + backoffMs;
    }

    /**
      `flushPendingHubEvents`: with a connected link past its back-off and a
      non-empty queue, empty the queue and report the snapshot in order,
      each report awaiting its reply (missing replies count as failures).
     */
    method Flush(enabled: bool, replies: seq<Reply>, now: int)
      modifies this
      ensures var go := old(connected) && |old(queue)| > 0 && now >= old(nextAttemptAt);
        var r := FlushPosts(old(queue), replies, old(State()), enabled, now);
        (go ==> queue == [] && posted == old(posted) + r.0 && State() == r.1)
        && (!go ==> queue == old(queue) && posted == old(posted) && State() == old(State()))
    {
      if !connected || |queue| == 0 {
        return;
      }
      if now < nextAttemptAt {
        return;
      }
      var batch := queue;
      queue := [];
      var i := 0;
      var left := replies;
      ghost var sentSoFar: seq<HubEvent> := [];
      ghost var total := FlushPosts(batch, replies, State(), enabled, now);
      assert batch[0..] == batch;
      while i < |batch|
        invariant 0 <= i <= |batch|
        invariant queue == []
        invariant posted == old(posted) + sentSoFar
        invariant total.0 == sentSoFar + FlushPosts(batch[i..], left, State(), enabled, now).0
        invariant total.1 == FlushPosts(batch[i..], left, State(), enabled, now).1
      {
        assert batch[i..][1..] == batch[i + 1..];
        ghost var step := FlushPosts(batch[i..], left, State(), enabled, now);
        var sent := Report(batch[i], enabled, now);
        if sent {
          var reply := if left != [] then left[0] else Failure;
          left := if left != [] then left[1..] else [];
          Replied(reply, now);
          assert step == ([batch[i]] + FlushPosts(batch[i + 1..], left, State(), enabled, now).0,
                          FlushPosts(batch[i + 1..], left, State(), enabled, now).1);
          sentSoFar := sentSoFar + [batch[i]];
        } else {
          assert step == FlushPosts(batch[i + 1..], left, State(), enabled, now);
        }
        i := i + 1;
      }
      assert batch[i..] == [];
    }
  }
}
