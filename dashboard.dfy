/**
  The dashboard's view of the hub state (dashboard/app.js): the status a
  session card shows, the order of the cards, which sessions and usage
  sources are listed, the completion list kept from `COMPLETION` messages,
  and the rows of the usage CSV export. Times are milliseconds; a timestamp
  that is missing or does not parse is None.
 */
module Dashboard {
  import opened Options
  import opened Strings
  import opened HubSettings
  import History

  const SessionIdleAfterMs := 3 * 60 * 1000
  const MaxCompletions: nat := 50

  /** A session as the dashboard holds it. */
  datatype DashSession = DashSession(status: Option<string>, lastActivity: Option<int>)

  /** `session.lastActivity ? new Date(...).getTime() : 0`, with NaN read as 0 (it is falsy as well). */
  function LastMillis(s: DashSession): int {
    if s.lastActivity.Some? then s.lastActivity.value else 0
  }

  /** `(session.status || 'idle').toLowerCase()`. */
  function RawStatus(s: DashSession): string {
    Lower(if s.status.Some? && s.status.value != "" then s.status.value else "idle")
  }

  /** `getDerivedSessionStatus` at time `now`. */
  function DerivedStatus(s: DashSession, now: int): (r: string)
    ensures r == "generating" <==> RawStatus(s) == "generating"
    ensures r == "ready" ==> RawStatus(s) == "complete" || RawStatus(s) == "ready"
  {
    var status := RawStatus(s);
    if status == "generating" then "generating"
    else
      var last := LastMillis(s);
      if last == 0 || now - last > SessionIdleAfterMs then "idle"
      else if status == "complete" || status == "ready" then "ready"
      else status
  }

  /**
    A generating session shows as generating however old it is; any other
    session without a time or quiet for more than three minutes shows as
    idle; a fresh complete or ready one as ready; anything else as its
    lower-cased status.
   */
  lemma DerivedStatusCases(s: DashSession, now: int)
    ensures var last := LastMillis(s);
      var recent := last != 0 && now - last <= SessionIdleAfterMs;
      (RawStatus(s) == "generating" ==> DerivedStatus(s, now) == "generating")
      && (RawStatus(s) != "generating" && !recent ==> DerivedStatus(s, now) == "idle")
      && (RawStatus(s) != "generating" && recent ==>
            DerivedStatus(s, now) == (if RawStatus(s) in {"complete", "ready"} then "ready" else RawStatus(s)))
  {
  }

  /** Showing a session with its derived status in place of its own changes nothing on screen. */
  lemma DerivedStatusStable(s: DashSession, now: int)
    ensures var r := DerivedStatus(s, now);
      DerivedStatus(s.(status := Some(r)), now) == r
  {
    var r := DerivedStatus(s, now);
    var raw := if s.status.Some? && s.status.value != "" then s.status.value else "idle";
    if r == RawStatus(s) {
      LowerIsLowerCase(raw);
      LowerOfLowerCase(r);
    } else {
      ShownStatusesLower(r);
    }
    assert r != "";
    assert RawStatus(s.(status := Some(r))) == r;
  }

  /** The statuses the dashboard writes itself are already lower case. */
  lemma ShownStatusesLower(r: string)
    requires r == "idle" || r == "ready"
    ensures Lower(r) == r
  {
    assert forall i :: 0 <= i < |r| ==> !IsUpperAscii(r[i]);
    LowerOfLowerCase(r);
  }

  // ---------------------------------------------------------------- order

  /** One card: the session id, its derived status and `last || 0`. */
  datatype Card = Card(id: string, derived: string, last: int)

  /** generating before ready before everything else. */
  function Rank(derived: string): nat {
    if derived == "generating" then 0 else if derived == "ready" then 1 else 2
  }

  /** The comparator's "a may come first": lower rank, or the same rank and at least as recent. */
  predicate Precedes(a: Card, b: Card) {
    Rank(a.derived) < Rank(b.derived) || (Rank(a.derived) == Rank(b.derived) && a.last >= b.last)
  }

  predicate SortedCards(cards: seq<Card>) {
    forall i, j :: 0 <= i < j < |cards| ==> Precedes(cards[i], cards[j])
  }

  /** Place `c` before the first card it may precede. */
  function Insert(c: Card, sorted: seq<Card>): (r: seq<Card>)
    ensures multiset(r) == multiset(sorted) + multiset{c}
  {
    if sorted == [] then [c]
    else if Precedes(c, sorted[0]) then [c] + sorted
    else
      assert sorted == [sorted[0]] + sorted[1..];
      [sorted[0]] + Insert(c, sorted[1..])
  }

  /** Inserting into a sorted list keeps it sorted. */
  lemma {:induction false} InsertSorted(c: Card, sorted: seq<Card>)
    requires SortedCards(sorted)
    ensures SortedCards(Insert(c, sorted))
    decreases |sorted|
  {
    if sorted != [] && !Precedes(c, sorted[0]) {
      var rest := Insert(c, sorted[1..]);
      InsertSorted(c, sorted[1..]);
      forall k | 0 <= k < |rest| ensures Precedes(sorted[0], rest[k]) {
        assert rest[k] in multiset(rest);
        assert rest[k] == c || rest[k] in sorted[1..];
      }
    }
  }

  /** The cards in display order (the comparator of `renderSessions`). */
  function SortCards(cards: seq<Card>): (r: seq<Card>)
    ensures multiset(r) == multiset(cards)
  {
    if cards == [] then []
    else
      assert cards == [cards[0]] + cards[1..];
      Insert(cards[0], SortCards(cards[1..]))
  }

  /** The display order is sorted by the comparator and holds every card exactly as often as before. */
  lemma {:induction false} SortCardsSorted(cards: seq<Card>)
    ensures SortedCards(SortCards(cards)) && multiset(SortCards(cards)) == multiset(cards)
    decreases |cards|
  {
    if cards != [] {
      SortCardsSorted(cards[1..]);
      InsertSorted(cards[0], SortCards(cards[1..]));
    }
  }

  /** `hidden === true` on the id's source entry. */
  predicate Hidden(sources: map<string, SourceEntry>, id: string) {
    id in sources && IsTrue(sources[id].hidden)
  }

  /** `getSessionEntries`: the session ids whose source entry is not `hidden: true`, in key order. */
  function SessionEntries(ids: seq<string>, sources: map<string, SourceEntry>): (r: seq<string>)
    ensures forall id :: id in r <==> id in ids && !Hidden(sources, id)
  {
    if ids == [] then []
    else (if Hidden(sources, ids[0]) then [] else [ids[0]]) + SessionEntries(ids[1..], sources)
  }

  /** The card of session `id`. */
  function CardOf(id: string, s: DashSession, now: int): Card {
    Card(id, DerivedStatus(s, now), LastMillis(s))
  }

  /** One card per listed id, in list order. */
  function Cards(entries: seq<string>, sessions: map<string, DashSession>, now: int): (r: seq<Card>)
    requires forall id :: id in entries ==> id in sessions
    ensures |r| == |entries|
    ensures forall k :: 0 <= k < |r| ==> r[k] == CardOf(entries[k], sessions[entries[k]], now)
  {
    if entries == [] then []
    else [CardOf(entries[0], sessions[entries[0]], now)] + Cards(entries[1..], sessions, now)
  }

  /** The cards of `renderSessions`, in display order. */
  function SessionCards(ids: seq<string>, sessions: map<string, DashSession>, sources: map<string, SourceEntry>, now: int): seq<Card>
    requires forall id :: id in ids ==> id in sessions
  {
    SortCards(Cards(SessionEntries(ids, sources), sessions, now))
  }

  /** The session grid is sorted, and shows exactly the sessions that are not hidden, each with its own status and time. */
  lemma SessionCardsShown(ids: seq<string>, sessions: map<string, DashSession>, sources: map<string, SourceEntry>, now: int)
    requires forall id :: id in ids ==> id in sessions
    ensures var r := SessionCards(ids, sessions, sources, now);
      SortedCards(r)
      && (forall c :: c in r ==> c.id in ids && !Hidden(sources, c.id) && c == CardOf(c.id, sessions[c.id], now))
      && (forall id :: id in ids && !Hidden(sources, id) ==> exists c :: c in r && c.id == id)
  {
    var entries := SessionEntries(ids, sources);
    var cards := Cards(entries, sessions, now);
    SortCardsSorted(cards);
    CardsListed(entries, sessions, now, SortCards(cards));
  }

  /** A reordering of the cards holds a card for exactly the listed ids. */
  lemma CardsListed(entries: seq<string>, sessions: map<string, DashSession>, now: int, r: seq<Card>)
    requires forall id :: id in entries ==> id in sessions
    requires multiset(r) == multiset(Cards(entries, sessions, now))
    ensures forall c :: c in r ==> c.id in entries && c == CardOf(c.id, sessions[c.id], now)
    ensures forall id :: id in entries ==> exists c :: c in r && c.id == id
  {
    var cards := Cards(entries, sessions, now);
    forall c | c in r ensures c.id in entries && c == CardOf(c.id, sessions[c.id], now) {
      assert c in multiset(cards);
      var k :| 0 <= k < |cards| && cards[k] == c;
      assert entries[k] in entries;
    }
    forall id | id in entries ensures exists c :: c in r && c.id == id {
      var k :| 0 <= k < |entries| && entries[k] == id;
      assert cards[k] in multiset(r);
    }
  }

  // ------------------------------------------------------- usage sources

  /** The sources of the completions that have one. */
  function CompletionSources(sources: seq<string>): (r: seq<string>)
    ensures forall id :: id in r <==> id in sources && id != ""
  {
    if sources == [] then []
    else (if sources[0] != "" then [sources[0]] else []) + CompletionSources(sources[1..])
  }

  /** `getUsageSourceIds`: the listed sessions, then the completion sources, each once. */
  function UsageSourceIds(entries: seq<string>, completionSources: seq<string>): (r: seq<string>)
    ensures forall id :: id in r <==> id in entries || (id in completionSources && id != "")
    ensures forall i, j :: 0 <= i < j < |r| ==> r[i] != r[j]
  {
    Dedupe(entries + CompletionSources(completionSources))
  }

  /**
    The usage sources are the session entries first, each once and in their
    own order, then the completion sources not already listed, in the order
    the completions first name them.
   */
  lemma UsageSourceIdsOrder(entries: seq<string>, completionSources: seq<string>)
    ensures |Dedupe(entries)| <= |UsageSourceIds(entries, completionSources)|
    ensures UsageSourceIds(entries, completionSources)[..|Dedupe(entries)|] == Dedupe(entries)
    ensures forall k :: |Dedupe(entries)| <= k < |UsageSourceIds(entries, completionSources)| ==>
      UsageSourceIds(entries, completionSources)[k] !in entries
    ensures forall i, j :: 0 <= i < j < |UsageSourceIds(entries, completionSources)| ==>
      IndexOf(entries + CompletionSources(completionSources), UsageSourceIds(entries, completionSources)[i])
      < IndexOf(entries + CompletionSources(completionSources), UsageSourceIds(entries, completionSources)[j])
  {
    DedupeAppend(entries, CompletionSources(completionSources));
    DedupeFirstSeenOrder(entries + CompletionSources(completionSources));
  }

  /** The ids whose entry does not say `usageEnabled: false`. */
  function UsageEnabled(ids: seq<string>, sources: map<string, SourceEntry>): (r: seq<string>)
    ensures forall id :: id in r <==> id in ids && !(id in sources && !NotFalse(sources[id].usageEnabled))
  {
    if ids == [] then []
    else
      var id := ids[0];
      (if id in sources && !NotFalse(sources[id].usageEnabled) then [] else [id]) + UsageEnabled(ids[1..], sources)
  }

  /** `getActiveUsageSources`: the enabled ids, or every id when none is enabled. */
  function ActiveUsageSources(ids: seq<string>, sources: map<string, SourceEntry>): seq<string> {
    var active := UsageEnabled(ids, sources);
    if active != [] then active else ids
  }

  /**
    The active sources are the usage-enabled ids when there is one, and all
    ids otherwise; so the list is empty only when there are no ids at all.
   */
  lemma ActiveUsageSourcesChoice(ids: seq<string>, sources: map<string, SourceEntry>)
    ensures var r := ActiveUsageSources(ids, sources);
      (r == [] <==> ids == [])
      && (forall id :: id in r ==> id in ids)
      && ((exists id :: id in ids && !(id in sources && !NotFalse(sources[id].usageEnabled))) ==>
            forall id :: id in r <==> id in ids && !(id in sources && !NotFalse(sources[id].usageEnabled)))
  {
    var active := UsageEnabled(ids, sources);
    if active == [] && ids != [] {
      assert ids[0] in ids;
    }
  }

  // ---------------------------------------------------------- completions

  /** A completion as the dashboard receives it: its timestamp text and that text's parsed time. */
  datatype DashCompletion = DashCompletion(source: string, timestamp: string, time: Option<int>, duration: Option<int>)

  /** The dashboard's copy of the hub state that `handleMessage` updates in place. */
  class DashboardState {
    var sessions: map<string, DashSession>
    var completions: seq<DashCompletion>

    constructor()
      ensures sessions == map[] && completions == []
    {
      sessions, completions := map[], [];
    }

    /** `COMPLETION`: unshift, then keep the first 50. */
    method OnCompletion(c: DashCompletion)
      modifies this`completions
      ensures completions == History.PrependCapped(old(completions), c, MaxCompletions)
    {
      completions := [c] + completions;
      if |completions| > MaxCompletions {
        completions := completions[..MaxCompletions];
      }
    }

    /** `SESSION_UPDATE`: only a session the dashboard already knows is updated. */
    method OnSessionUpdate(source: string, status: string, timestamp: Option<int>)
      modifies this`sessions
      ensures source in old(sessions) ==> sessions == old(sessions)[source := DashSession(Some(status), timestamp)]
      ensures source !in old(sessions) ==> sessions == old(sessions)
    {
      if source in sessions {
        sessions := sessions[source := DashSession(Some(status), timestamp)];
      }
    }
  }

  /** The dashboard's list holds at most 50 completions, the newest first. */
  lemma CompletionListBounded(list: seq<DashCompletion>, c: DashCompletion)
    requires |list| <= MaxCompletions
    ensures var r := History.PrependCapped(list, c, MaxCompletions);
      |r| <= MaxCompletions && r[0] == c
      && (|list| < MaxCompletions ==> r[1..] == list)
      && (|list| == MaxCompletions ==> r[1..] == list[..MaxCompletions - 1])
  {
    History.PrependCappedBounded(list, c, MaxCompletions);
  }

  // ------------------------------------------------------------ CSV export

  /** The filter of `exportUsageCsv`: the source, if one is given, and a time inside `[start, end]`. */
  predicate InExport(c: DashCompletion, source: string, start: int, end: int) {
    (source == "" || c.source == source)
    && c.time.Some? && start <= c.time.value <= end
  }

  const CsvHeader := "timestamp,source,duration_ms"

  /** `[r.timestamp, r.source, r.duration || ''].join(',')`. */
  function CsvRow(c: DashCompletion): string {
    c.timestamp + "," + c.source + "," + (if c.duration.Some? && c.duration.value != 0 then IntToString(c.duration.value) else "")
  }

  /** The completions the export keeps (the `filter` of `exportUsageCsv`), in list order. */
  function Exported(list: seq<DashCompletion>, source: string, start: int, end: int): (r: seq<DashCompletion>)
    ensures forall c :: c in r <==> c in list && InExport(c, source, start, end)
  {
    if list == [] then []
    else (if InExport(list[0], source, start, end) then [list[0]] else []) + Exported(list[1..], source, start, end)
  }

  /** The rows of the export: each completion that passes the filter, rendered where it stands. */
  function ExportRows(list: seq<DashCompletion>, source: string, start: int, end: int): seq<string> {
    if list == [] then []
    else if InExport(list[0], source, start, end) then [CsvRow(list[0])] + ExportRows(list[1..], source, start, end)
    else ExportRows(list[1..], source, start, end)
  }

  /** The lines of the CSV file: the header, then the rows. */
  function CsvLines(list: seq<DashCompletion>, source: string, start: int, end: int): seq<string> {
    [CsvHeader] + ExportRows(list, source, start, end)
  }

  /**
    The file is the header followed by exactly one line per completion
    inside the range (and of the source, if given), each that completion's
    row, in list order.
   */
  lemma {:induction false} CsvLinesAreExported(list: seq<DashCompletion>, source: string, start: int, end: int)
    ensures var lines := CsvLines(list, source, start, end);
      var kept := Exported(list, source, start, end);
      lines[0] == CsvHeader && |lines| == 1 + |kept|
      && forall k :: 0 <= k < |kept| ==> lines[k + 1] == CsvRow(kept[k])
    decreases |list|
  {
    if list != [] {
      CsvLinesAreExported(list[1..], source, start, end);
    }
  }
}
