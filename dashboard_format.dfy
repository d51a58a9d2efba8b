/**
  The dashboard's small formatters (dashboard/app.js): `formatDuration`,
  `formatTimeAgo` and `getSourceColor`. Times are integer milliseconds;
  `Math.floor(x / 1000)` is Dafny's `/` on a positive divisor, which rounds
  down for negative numbers too.
 */
module DashboardFormat {
  import opened Options
  import opened Strings
  import opened HubSettings

  // ------------------------------------------------------------- duration

  /** `formatDuration(ms)`. */
  function FormatDuration(ms: int): string {
    var seconds := ms / 1000;
    if seconds < 60 then IntToString(seconds) + "s"
    else NatToString(seconds / 60) + "m " + NatToString(seconds % 60) + "s"
  }

  /**
    Under a minute the text is the whole seconds; from a minute on it is
    minutes and a remainder below 60 that together give the whole seconds.
   */
  lemma FormatDurationParts(ms: int)
    ensures var seconds := ms / 1000;
      (seconds < 60 ==> FormatDuration(ms) == IntToString(seconds) + "s")
      && (seconds >= 60 ==>
            exists m: nat, r: nat :: r < 60 && m * 60 + r == seconds
              && FormatDuration(ms) == NatToString(m) + "m " + NatToString(r) + "s")
  {
    var seconds := ms / 1000;
    if seconds >= 60 {
      var m, r := seconds / 60, seconds % 60;
      assert m * 60 + r == seconds;
      assert FormatDuration(ms) == NatToString(m) + "m " + NatToString(r) + "s";
    }
  }

  /** The minutes and seconds shown can be read back: they determine the whole seconds. */
  lemma FormatDurationReadable(a: int, b: int)
    requires a / 1000 >= 60 && b / 1000 >= 60
    requires FormatDuration(a) == FormatDuration(b)
    ensures a / 1000 == b / 1000
  {
    var sa, sb := a / 1000, b / 1000;
    var ma, ra, mb, rb := sa / 60, sa % 60, sb / 60, sb % 60;
    var left := NatToString(ma) + "m " + NatToString(ra) + "s";
    var right := NatToString(mb) + "m " + NatToString(rb) + "s";
    MinutesSecondsApart(NatToString(ma), NatToString(ra), NatToString(mb), NatToString(rb));
    NatToStringInjective(ma, mb);
    NatToStringInjective(ra, rb);
  }

  /** Digit strings joined by "m " and ending in "s" split back uniquely. */
  lemma MinutesSecondsApart(m1: string, s1: string, m2: string, s2: string)
    requires forall i :: 0 <= i < |m1| ==> IsDigit(m1[i])
    requires forall i :: 0 <= i < |m2| ==> IsDigit(m2[i])
    requires m1 + "m " + s1 + "s" == m2 + "m " + s2 + "s"
    ensures m1 == m2 && s1 == s2
  {
    var t1, t2 := m1 + "m " + s1 + "s", m2 + "m " + s2 + "s";
    FirstLetterAfterDigits(m1, " " + s1 + "s");
    FirstLetterAfterDigits(m2, " " + s2 + "s");
    var k := if |m1| < |m2| then |m1| else |m2|;
    assert t1[k] == t2[k];
    assert |m1| == |m2|;
    assert m1 == t1[..|m1|] && m2 == t2[..|m2|];
    assert s1 == t1[|m1| + 2..|t1| - 1] && s2 == t2[|m2| + 2..|t2| - 1];
  }

  /** In digits followed by "m", the first 'm' sits right after the digits. */
  lemma FirstLetterAfterDigits(m: string, rest: string)
    requires forall i :: 0 <= i < |m| ==> IsDigit(m[i])
    ensures (m + "m" + rest)[|m|] == 'm'
    ensures forall i :: 0 <= i < |m| ==> (m + "m" + rest)[i] != 'm'
  {
    assert !IsDigit('m');
  }

  // ------------------------------------------------------------- time ago

  /** `formatTimeAgo` for a timestamp `past` read at `now`. */
  function FormatTimeAgo(now: int, past: int): string {
    var diff := (now - past) / 1000;
    if diff < 60 then "just now"
    else if diff < 3600 then NatToString(diff / 60) + "m ago"
    else if diff < 86400 then NatToString(diff / 3600) + "h ago"
    else NatToString(diff / 86400) + "d ago"
  }

  /**
    Under a minute is "just now"; otherwise the text is `n` and the unit's
    letter, where `n` whole units fit in the difference and `n + 1` do not,
    and `n` stays below the next unit up (under 60 minutes, under 24 hours).
   */
  lemma FormatTimeAgoBuckets(now: int, past: int)
    ensures var diff := (now - past) / 1000;
      var text := FormatTimeAgo(now, past);
      (diff < 60 <==> text == "just now")
      && (60 <= diff < 3600 ==>
            exists n: nat :: 1 <= n < 60 && n * 60 <= diff < n * 60 + 60 && text == NatToString(n) + "m ago")
      && (3600 <= diff < 86400 ==>
            exists n: nat :: 1 <= n < 24 && n * 3600 <= diff < n * 3600 + 3600 && text == NatToString(n) + "h ago")
      && (86400 <= diff ==>
            exists n: nat :: 1 <= n && n * 86400 <= diff < n * 86400 + 86400 && text == NatToString(n) + "d ago")
  {
    var diff := (now - past) / 1000;
    var text := FormatTimeAgo(now, past);
    if diff >= 60 {
      assert text != "just now" by {
        assert |text| >= 5 && text[|text| - 4..] == " ago";
        assert "just now"[4..] == " now";
      }
      if diff < 3600 {
        assert text == NatToString(diff / 60) + "m ago";
      } else if diff < 86400 {
        assert text == NatToString(diff / 3600) + "h ago";
      } else {
        assert text == NatToString(diff / 86400) + "d ago";
      }
    }
  }

  // ---------------------------------------------------------------- colour

  /**
    `ch.charCodeAt(0)` for a character of `Array.from(id)`: the UTF-16 code
    unit, so a character beyond U+FFFF counts as its high surrogate.
   */
  function CharCode(c: char): nat {
    if c as int < 0x1_0000 then c as int else 0xD800 + (c as int - 0x1_0000) / 0x400
  }

  /** The hash of `getSourceColor`: the sum of the character codes. */
  function CharSum(id: string): nat {
    if id == [] then 0 else CharSum(id[..|id| - 1]) + CharCode(id[|id| - 1])
  }

  lemma {:induction false} CharSumAppend(a: string, b: string)
    ensures CharSum(a + b) == CharSum(a) + CharSum(b)
    decreases |b|
  {
    if b == [] {
      assert a + b == a;
    } else {
      CharSumAppend(a, b[..|b| - 1]);
      assert (a + b)[..|a + b| - 1] == a + b[..|b| - 1];
    }
  }

  /** Rearranging the two halves of an id does not change its hue: the hash ignores order. */
  lemma CharSumSwap(a: string, b: string)
    ensures CharSum(a + b) == CharSum(b + a)
  {
    CharSumAppend(a, b);
    CharSumAppend(b, a);
  }

  function Hue(id: string): (h: nat)
    ensures h < 360
  {
    CharSum(id) % 360
  }

  /** The built-in colours of the known sources (`sourceColors`). */
  function BuiltinColor(id: string): Option<string> {
    if id == "claude-ai" then Some("#D4A574")
    else if id == "chatgpt" then Some("#10A37F")
    else if id == "gemini" then Some("#4285F4")
    else if id == "grok" then Some("#0F172A")
    else if id == "claude-code" then Some("#7C3AED")
    else if id == "codex" then Some("#EA580C")
    else None
  }

  /** `getSourceColor(id)` with the stored source entries. */
  function SourceColor(id: string, sources: map<string, SourceEntry>): string {
    if id in sources && sources[id].color.Some? && sources[id].color.value != "" then sources[id].color.value
    else if BuiltinColor(id).Some? then BuiltinColor(id).value
    else "hsl(" + NatToString(Hue(id)) + " 70% 55%)"
  }

  /**
    A non-empty colour override wins; otherwise a built-in colour; otherwise
    a hue in [0, 360) computed from the id alone.
   */
  lemma SourceColorChoice(id: string, sources: map<string, SourceEntry>)
    ensures var override := if id in sources then sources[id].color else None;
      (override.Some? && override.value != "" ==> SourceColor(id, sources) == override.value)
      && (!(override.Some? && override.value != "") && BuiltinColor(id).Some? ==> SourceColor(id, sources) == BuiltinColor(id).value)
      && (!(override.Some? && override.value != "") && BuiltinColor(id).None? ==>
            exists h: nat :: h < 360 && h == CharSum(id) % 360 && SourceColor(id, sources) == "hsl(" + NatToString(h) + " 70% 55%)")
  {
    var override := if id in sources then sources[id].color else None;
    if !(override.Some? && override.value != "") && BuiltinColor(id).None? {
      var h := Hue(id);
      assert SourceColor(id, sources) == "hsl(" + NatToString(h) + " 70% 55%)";
    }
  }
}
