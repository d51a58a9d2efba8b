/**
  Text handling in the editor extension (vscode-extension/out/extension.js):
  the partial-line carry-over used when tailing a JSONL session file
  (`processCodexSessionContent`, `processClaudeProjectContent`), the user
  text pulled out of a Claude project entry (`extractClaudeProjectUserText`),
  and the bounded set of server-sent event ids already acted on.
 */
module EditorText {
  import opened Options
  import opened Strings

  // ------------------------------------------------------ line carry-over

  /** `parts.filter(l => l.trim())`: the parts that are not blank, in order. */
  function NonBlank(parts: seq<string>): (r: seq<string>)
    ensures |r| <= |parts|
    ensures forall x :: x in r <==> x in parts && !IsBlank(x)
  {
    if parts == [] then []
    else (if IsBlank(parts[0]) then [] else [parts[0]]) + NonBlank(parts[1..])
  }

  lemma {:induction false} NonBlankAppend(a: seq<string>, b: seq<string>)
    ensures NonBlank(a + b) == NonBlank(a) + NonBlank(b)
    decreases |a|
  {
    if a != [] {
      assert (a + b)[1..] == a[1..] + b;
      NonBlankAppend(a[1..], b);
    } else {
      assert a + b == b;
    }
  }

  /** What one read of the file yields: the complete lines to parse, and the text kept for the next read. */
  datatype Chunk = Chunk(lines: seq<string>, buffer: string)

  /**
    `text.split('\n')`, then: when the text ends with a newline the buffer
    is emptied and every part is filtered, otherwise the last part is
    popped into the buffer first.
   */
  function CarryOver(text: string): Chunk {
    var parts := Split(text, '\n');
    if EndsWith(text, "\n") then Chunk(NonBlank(parts), "")
    else Chunk(NonBlank(parts[..|parts| - 1]), parts[|parts| - 1])
  }

  /**
    In both branches the buffer is the last segment after the final newline
    and the lines are the non-blank segments before it.
   */
  lemma CarryOverIsLastSegment(text: string)
    ensures var parts := Split(text, '\n');
      CarryOver(text).buffer == parts[|parts| - 1]
      && CarryOver(text).lines == NonBlank(parts[..|parts| - 1])
  {
    var parts := Split(text, '\n');
    SplitLastEmpty(text, '\n');
    if EndsWith(text, "\n") {
      assert text[|text| - 1] == '\n';
      assert parts == parts[..|parts| - 1] + [""];
      NonBlankAppend(parts[..|parts| - 1], [""]);
      assert IsBlank("");
    }
  }

  /** The buffer is empty exactly when the text is empty or ends with a newline. */
  lemma CarryOverBufferEmpty(text: string)
    ensures CarryOver(text).buffer == "" <==> (text == "" || text[|text| - 1] == '\n')
  {
    CarryOverIsLastSegment(text);
    SplitLastEmpty(text, '\n');
  }

  /** Neither the buffer nor any line handed to the parser holds a newline. */
  lemma CarryOverNoNewline(text: string)
    ensures forall j :: 0 <= j < |CarryOver(text).buffer| ==> CarryOver(text).buffer[j] != '\n'
    ensures forall x, j :: x in CarryOver(text).lines && 0 <= j < |x| ==> x[j] != '\n'
  {
    var parts := Split(text, '\n');
    CarryOverIsLastSegment(text);
    SplitPartsFree(text, '\n');
    forall x, j | x in CarryOver(text).lines && 0 <= j < |x| ensures x[j] != '\n' {
      assert x in parts[..|parts| - 1];
      var k :| 0 <= k < |parts| - 1 && parts[k] == x;
    }
  }

  /** Each segment followed by its newline: the text the complete lines came from. */
  function Terminated(parts: seq<string>): string {
    if parts == [] then "" else parts[0] + "\n" + Terminated(parts[1..])
  }

  /** Nothing is lost between reads: the text is its newline-terminated segments followed by the buffer. */
  lemma {:induction false} CarryOverLosesNothing(text: string)
    ensures var parts := Split(text, '\n');
      text == Terminated(parts[..|parts| - 1]) + CarryOver(text).buffer
    decreases |text|
  {
    CarryOverIsLastSegment(text);
    SplitRestores(text);
  }

  lemma {:induction false} SplitRestores(s: string)
    ensures var parts := Split(s, '\n');
      s == Terminated(parts[..|parts| - 1]) + parts[|parts| - 1]
    decreases |s|
  {
    if s != [] {
      var rest := Split(s[1..], '\n');
      SplitRestores(s[1..]);
      var parts := Split(s, '\n');
      if s[0] == '\n' {
        assert parts == [""] + rest;
        assert parts[..|parts| - 1] == [""] + rest[..|rest| - 1];
        assert Terminated(parts[..|parts| - 1]) == "\n" + Terminated(rest[..|rest| - 1]);
      } else if |rest| == 1 {
        assert parts == [[s[0]] + rest[0]];
      } else {
        var inner := rest[1..|rest| - 1];
        assert parts[..|parts| - 1] == [[s[0]] + rest[0]] + inner;
        assert rest[..|rest| - 1] == [rest[0]] + inner;
        assert Terminated(rest[..|rest| - 1]) == rest[0] + "\n" + Terminated(inner);
        assert parts[|parts| - 1] == rest[|rest| - 1];
      }
      assert s == [s[0]] + s[1..];
    }
  }

  /** A file being tailed: the partial line carried between reads (`state.buffer`). */
  class LineTail {
    var buffer: string

    constructor()
      ensures buffer == ""
    {
      buffer := "";
    }

    /** One read of new content: returns the lines to parse and keeps the trailing partial line. */
    method Feed(content: string) returns (lines: seq<string>)
      modifies this
      ensures lines == CarryOver(old(buffer) + content).lines
      ensures buffer == CarryOver(old(buffer) + content).buffer
    {
      var text := buffer + content;
      var parts := Split(text, '\n');
      if EndsWith(text, "\n") {
        buffer := "";
      } else {
        buffer := parts[|parts| - 1];
        parts := parts[..|parts| - 1];
      }
      lines := NonBlank(parts);
    }
  }

  // ---------------------------------------------------- user text of entry

  /** One element of `entry.message.content`; `text` is None unless it is a string. */
  datatype ContentPart = ContentPart(kind: string, text: Option<string>)

  const IdeOpenedFileMarker := "<ide_opened_file>"

  /** The trimmed, non-empty texts of the `text` parts, in order. */
  function TextParts(parts: seq<ContentPart>): (r: seq<string>)
    ensures |r| <= |parts|
  {
    if parts == [] then []
    else
      var p := parts[0];
      (if p.kind == "text" && p.text.Some? && Trim(p.text.value) != "" then [Trim(p.text.value)] else [])
      + TextParts(parts[1..])
  }

  /** Every text part is already trimmed and non-empty. */
  lemma {:induction false} TextPartTrimmed(parts: seq<ContentPart>, k: nat)
    requires k < |TextParts(parts)|
    ensures TextParts(parts)[k] != "" && Trim(TextParts(parts)[k]) == TextParts(parts)[k]
    decreases |parts|
  {
    var p := parts[0];
    var rest := TextParts(parts[1..]);
    if p.kind == "text" && p.text.Some? && Trim(p.text.value) != "" {
      var t := Trim(p.text.value);
      assert TextParts(parts) == [t] + rest;
      if k == 0 {
        TrimIdempotent(p.text.value);
      } else {
        TextPartTrimmed(parts[1..], k - 1);
        assert TextParts(parts)[k] == rest[k - 1];
      }
    } else {
      assert TextParts(parts) == rest;
      TextPartTrimmed(parts[1..], k);
    }
  }

  /** `texts.filter(t => !t.startsWith('<ide_opened_file>'))`. */
  function Meaningful(texts: seq<string>): seq<string> {
    if texts == [] then []
    else
      var init := Meaningful(texts[..|texts| - 1]);
      var last := texts[|texts| - 1];
      if StartsWith(last, IdeOpenedFileMarker) then init else init + [last]
  }

  /** The index of the last text that is not an opened-file marker. */
  function LastNonMarker(texts: seq<string>): (r: Option<nat>)
    ensures r.Some? ==> r.value < |texts| && !StartsWith(texts[r.value], IdeOpenedFileMarker)
    ensures r.Some? ==> forall k :: r.value < k < |texts| ==> StartsWith(texts[k], IdeOpenedFileMarker)
    ensures r.None? ==> forall k :: 0 <= k < |texts| ==> StartsWith(texts[k], IdeOpenedFileMarker)
  {
    if texts == [] then None
    else if !StartsWith(texts[|texts| - 1], IdeOpenedFileMarker) then Some(|texts| - 1)
    else LastNonMarker(texts[..|texts| - 1])
  }

  /** The filter keeps something exactly when some text is not a marker, and its last element is the last such text. */
  lemma {:induction false} MeaningfulLast(texts: seq<string>)
    ensures var f := Meaningful(texts);
      (f == [] <==> LastNonMarker(texts).None?)
      && (f != [] ==> f[|f| - 1] == texts[LastNonMarker(texts).value])
    decreases |texts|
  {
    if texts != [] {
      MeaningfulLast(texts[..|texts| - 1]);
    }
  }

  /**
    `extractClaudeProjectUserText` on `entry.message.content`, which is None
    when it is not an array.
   */
  function ExtractUserText(content: Option<seq<ContentPart>>): string {
    if content.None? then ""
    else
      var texts := TextParts(content.value);
      if texts == [] then ""
      else
        var filtered := Meaningful(texts);
        Trim(if filtered != [] then filtered[|filtered| - 1] else texts[|texts| - 1])
  }

  /**
    The result is empty exactly when there is no non-empty text part;
    otherwise it is the last text part that is not a marker, or the last
    text part when every one is a marker.
   */
  lemma ExtractUserTextChoice(content: Option<seq<ContentPart>>)
    ensures var texts := if content.Some? then TextParts(content.value) else [];
      (ExtractUserText(content) == "" <==> texts == [])
      && (texts != [] ==>
            ExtractUserText(content) == texts[match LastNonMarker(texts) case Some(k) => k case None => |texts| - 1])
  {
    if content.Some? && TextParts(content.value) != [] {
      var texts := TextParts(content.value);
      MeaningfulLast(texts);
      var k := match LastNonMarker(texts) case Some(k) => k case None => |texts| - 1;
      TextPartTrimmed(content.value, k);
    }
  }

  lemma TrimIdempotent(s: string)
    ensures Trim(Trim(s)) == Trim(s)
  {
    var t := Trim(s);
    if t != [] {
      assert TrimStart(t) == t;
      assert TrimEnd(t) == t;
    }
  }

  // -------------------------------------------------- server-sent event ids

  const SeenIdsLimit := 2000
  const SeenIdsKept := 1000

  /** The ids after inserting `id` into a Set: appended if new, then the newest 1000 when above 2000. */
  function Remembered(ids: seq<string>, id: string): (r: seq<string>)
    ensures id in r
    ensures id in ids ==> r == ids
    ensures id !in ids && |ids| < SeenIdsLimit ==> r == ids + [id]
    ensures id !in ids && |ids| >= SeenIdsLimit ==> r == (ids + [id])[|ids| + 1 - SeenIdsKept..]
  {
    if id in ids then ids
    else
      var grown := ids + [id];
      assert grown[|grown| - 1] == id;
      if |grown| > SeenIdsLimit then grown[|grown| - SeenIdsKept..] else grown
  }

  predicate Distinct(ids: seq<string>) {
    forall i, j :: 0 <= i < j < |ids| ==> ids[i] != ids[j]
  }

  /** Insertion keeps the ids distinct and at most 2000 of them. */
  lemma RememberedKeepsBounds(ids: seq<string>, id: string)
    requires Distinct(ids) && |ids| <= SeenIdsLimit
    ensures Distinct(Remembered(ids, id)) && |Remembered(ids, id)| <= SeenIdsLimit
  {
    if id !in ids {
      var grown := ids + [id];
      assert forall i :: 0 <= i < |ids| ==> grown[i] == ids[i] && grown[i] != id;
    }
  }

  /** `claudeSseSeenIds`, as its insertion order. */
  class SeenIds {
    var ids: seq<string>

    ghost predicate Valid()
      reads this
    {
      Distinct(ids) && |ids| <= SeenIdsLimit
    }

    constructor()
      ensures Valid() && ids == []
    {
      ids := [];
    }

    /** Check an event id and remember it; `isNew` says whether the event is acted on. */
    method See(id: string) returns (isNew: bool)
      requires Valid()
      modifies this
      ensures Valid()
      ensures isNew <==> id !in old(ids)
      ensures ids == Remembered(old(ids), id)
    {
      if id in ids {
        return false;
      }
      RememberedKeepsBounds(ids, id);
      ids := ids + [id];
      if |ids| > SeenIdsLimit {
        ids := ids[|ids| - SeenIdsKept..];
      }
      isNew := true;
    }
  }
}
