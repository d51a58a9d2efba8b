/**
  The popup's helpers (chrome-extension/popup/popup.js): the slug a custom
  site's id is made from, the name proposed for a page, the lookup of a
  well-known domain, and saving one notification setting.
 */
module ExtPopup {
  import opened Options
  import opened Strings
  import opened ExtSites
  import opened ExtCompletion

  // ---------------------------------------------------------------- slugify

  predicate IsSlugChar(c: char) {
    'a' <= c <= 'z' || '0' <= c <= '9'
  }

  /** Only slug characters and single dashes, with no dash at either end. */
  predicate IsSlug(s: string) {
    (forall i :: 0 <= i < |s| ==> IsSlugChar(s[i]) || s[i] == '-')
    && (forall i :: 0 <= i < |s| - 1 ==> !(s[i] == '-' && s[i + 1] == '-'))
    && (s == [] || (s[0] != '-' && s[|s| - 1] != '-'))
  }

  /** `.replace(/[^a-z0-9]+/g, '-')`: each maximal run of other characters becomes one dash. */
  function DashRuns(s: string): (r: string)
    ensures forall i :: 0 <= i < |r| ==> IsSlugChar(r[i]) || r[i] == '-'
    ensures forall i :: 0 <= i < |r| - 1 ==> !(r[i] == '-' && r[i + 1] == '-')
    ensures r == [] <==> s == []
    ensures r != [] && r[0] == '-' <==> s != [] && !IsSlugChar(s[0])
    decreases |s|
  {
    if s == [] then []
    else if IsSlugChar(s[0]) then [s[0]] + DashRuns(s[1..])
    else if |s| > 1 && !IsSlugChar(s[1]) then DashRuns(s[1..])
    else "-" + DashRuns(s[1..])
  }

  /** `.replace(/(^-|-$)/g, '')`: a dash at the start and one at the end go. */
  function TrimDashes(s: string): (r: string)
    ensures |r| <= |s|
  {
    var a := if s != [] && s[0] == '-' then s[1..] else s;
    if a != [] && a[|a| - 1] == '-' then a[..|a| - 1] else a
  }

  /** `slugify(text)`. */
  function Slugify(text: string): string {
    TrimDashes(DashRuns(Lower(text)))
  }

  /** A slug holds only lower-case letters, digits and single inner dashes. */
  lemma SlugifyIsSlug(text: string)
    ensures IsSlug(Slugify(text))
  {
    TrimDashesIsSlug(DashRuns(Lower(text)));
  }

  /** Slug characters and dashes, never two dashes in a row. */
  predicate DashSafe(s: string) {
    (forall i :: 0 <= i < |s| ==> IsSlugChar(s[i]) || s[i] == '-')
    && (forall i :: 0 <= i < |s| - 1 ==> !(s[i] == '-' && s[i + 1] == '-'))
  }

  /** Dropping an end of a dash-safe string keeps it dash-safe. */
  lemma DashSafeSlices(s: string)
    requires DashSafe(s) && s != []
    ensures DashSafe(s[1..]) && DashSafe(s[..|s| - 1])
  {
    assert forall i :: 0 <= i < |s| - 1 ==> s[1..][i] == s[i + 1];
    assert forall i :: 0 <= i < |s| - 1 ==> s[..|s| - 1][i] == s[i];
  }

  /** Dropping the edge dashes of a string of slug characters and single dashes leaves a slug. */
  lemma TrimDashesIsSlug(r: string)
    requires forall i :: 0 <= i < |r| ==> IsSlugChar(r[i]) || r[i] == '-'
    requires forall i :: 0 <= i < |r| - 1 ==> !(r[i] == '-' && r[i + 1] == '-')
    ensures IsSlug(TrimDashes(r))
  {
    var a := if r != [] && r[0] == '-' then r[1..] else r;
    if r != [] && r[0] == '-' {
      DashSafeSlices(r);
      assert a != [] ==> a[0] == r[1];
    }
    assert DashSafe(a) && (a != [] ==> a[0] != '-');
    if a != [] && a[|a| - 1] == '-' {
      DashSafeSlices(a);
      var b := a[..|a| - 1];
      assert b != [] ==> b[0] == a[0] && b[|b| - 1] == a[|a| - 2];
    }
  }

  /** A string that is already a slug is left as it is. */
  lemma {:induction false} DashRunsOfSlug(s: string)
    requires forall i :: 0 <= i < |s| ==> IsSlugChar(s[i]) || s[i] == '-'
    requires forall i :: 0 <= i < |s| - 1 ==> !(s[i] == '-' && s[i + 1] == '-')
    ensures DashRuns(s) == s
    decreases |s|
  {
    if s != [] {
      DashRunsOfSlug(s[1..]);
      assert s == [s[0]] + s[1..];
    }
  }

  /** Slugifying a slug changes nothing, so slugifying twice is slugifying once. */
  lemma SlugifyIdempotent(text: string)
    ensures Slugify(Slugify(text)) == Slugify(text)
  {
    var s := Slugify(text);
    SlugifyIsSlug(text);
    assert IsLowerCase(s) by {
      forall i | 0 <= i < |s| ensures !IsUpperAscii(s[i]) {
        assert IsSlugChar(s[i]) || s[i] == '-';
      }
    }
    LowerOfLowerCase(s);
    DashRunsOfSlug(s);
  }

  // ---------------------------------------------------------- known sites

  /** `getKnownSite(domain)`: the exact domain, ignoring case, in the table of eight. */
  function GetKnownSite(domain: Option<string>): (r: Option<KnownSite>)
    ensures r.Some? <==> Lower(domain.GetOr("")) in KnownDomains
  {
    var key := Lower(domain.GetOr(""));
    if key in KnownDomains then Some(KnownDomains[key]) else None
  }

  /**
    The lookup ignores case, and it agrees with the hub sync's table: a
    domain it knows is renamed by the sync to the same id and name.
   */
  lemma GetKnownSiteAgrees(domain: string)
    ensures GetKnownSite(Some(domain)) == GetKnownSite(Some(Lower(domain)))
    ensures var key := Lower(domain);
      key in KnownDomains ==> FirstKnown([key]) == GetKnownSite(Some(domain))
  {
    LowerIdempotent(domain);
  }

  // ------------------------------------------------------------- inferName

  /** `presets` of `inferName`, in their written order: a domain and the name it proposes. */
  const Presets: seq<(string, string)> := [
    ("perplexity.ai", "Perplexity"),
    ("chatgpt.com", "ChatGPT"),
    ("chat.openai.com", "ChatGPT"),
    ("claude.ai", "Claude"),
    ("gemini.google.com", "Gemini"),
    ("aistudio.google.com", "Gemini"),
    ("grok.com", "Grok"),
    ("x.com", "Grok")
  ]

  /** Every preset proposes a name. */
  predicate NamesGiven(presets: seq<(string, string)>) {
    forall k :: 0 <= k < |presets| ==> presets[k].1 != ""
  }

  /** `domain === d || domain.endsWith('.' + d)`, case-sensitively. */
  predicate UnderDomain(domain: string, d: string) {
    domain == d || EndsWith(domain, "." + d)
  }

  /** The index of the first preset whose domain the page is on or under. */
  function PresetIndex(presets: seq<(string, string)>, domain: string, from: nat): (r: Option<nat>)
    requires from <= |presets|
    ensures r.Some? ==> from <= r.value < |presets| && UnderDomain(domain, presets[r.value].0)
                        && forall j :: from <= j < r.value ==> !UnderDomain(domain, presets[j].0)
    ensures r.None? ==> forall j :: from <= j < |presets| ==> !UnderDomain(domain, presets[j].0)
    decreases |presets| - from
  {
    if from == |presets| then None
    else if UnderDomain(domain, presets[from].0) then Some(from)
    else PresetIndex(presets, domain, from + 1)
  }

  /** The index of the first preset name the lower-cased title mentions. */
  function NameIndex(presets: seq<(string, string)>, lowerTitle: string, from: nat): (r: Option<nat>)
    requires from <= |presets|
    ensures r.Some? ==> from <= r.value < |presets| && Contains(lowerTitle, Lower(presets[r.value].1))
                        && forall j :: from <= j < r.value ==> !Contains(lowerTitle, Lower(presets[j].1))
    ensures r.None? ==> forall j :: from <= j < |presets| ==> !Contains(lowerTitle, Lower(presets[j].1))
    decreases |presets| - from
  {
    if from == |presets| then None
    else if Contains(lowerTitle, Lower(presets[from].1)) then Some(from)
    else NameIndex(presets, lowerTitle, from + 1)
  }

  /** The en dash as the file spells it: its UTF-8 bytes read as Windows-1252 ("â€“"). */
  const MisencodedDash := "\U{00E2}\U{20AC}\U{201C}"

  /** `title.split('|')[0].split('â€“')[0].split('-')[0].trim()`. */
  function CleanTitle(title: string): string {
    Trim(Before(Before(Before(title, "|"), MisencodedDash), "-"))
  }

  /** `domain.split('.').slice(0, -1).join('.')`: the domain without its last label. */
  function DomainRoot(domain: string): string {
    var parts := Split(domain, '.');
    Join(parts[..|parts| - 1], ".")
  }

  /** `.replace(/[-_]+/g, ' ')`: each run of dashes and underscores becomes one space. */
  function SpaceRuns(s: string): (r: string)
    ensures forall i :: 0 <= i < |r| ==> r[i] != '-' && r[i] != '_'
    decreases |s|
  {
    if s == [] then []
    else if s[0] != '-' && s[0] != '_' then [s[0]] + SpaceRuns(s[1..])
    else if |s| > 1 && (s[1] == '-' || s[1] == '_') then SpaceRuns(s[1..])
    else " " + SpaceRuns(s[1..])
  }

  /** The name made from the domain: its root, dashes and underscores as spaces, trimmed, capitalised. */
  function DomainName(domain: string): (r: string)
    ensures r != []
  {
    var normalized := Trim(SpaceRuns(DomainRoot(domain)));
    if normalized != [] then [UpperChar(normalized[0])] + normalized[1..] else "Custom LLM"
  }

  /**
    `inferName(title, domain)` over a preset table; an absent or empty title
    is skipped.
   */
  function InferNameWith(presets: seq<(string, string)>, title: Option<string>, domain: string): (name: string)
    requires NamesGiven(presets)
    ensures name != []
  {
    var preset := PresetIndex(presets, domain, 0);
    if preset.Some? then presets[preset.value].1
    else if title.Some? && title.value != "" && NameIndex(presets, Lower(title.value), 0).Some? then
      presets[NameIndex(presets, Lower(title.value), 0).value].1
    else if title.Some? && title.value != "" && |CleanTitle(title.value)| >= 3 then CleanTitle(title.value)
    else DomainName(domain)
  }

  /** `inferName(title, domain)` with the popup's own presets. */
  function InferName(title: Option<string>, domain: string): (name: string)
    ensures name != []
  {
    assert NamesGiven(Presets);
    InferNameWith(Presets, title, domain)
  }

  /** No preset domain covers the page. */
  predicate NoPresetDomain(presets: seq<(string, string)>, domain: string) {
    forall k :: 0 <= k < |presets| ==> !UnderDomain(domain, presets[k].0)
  }

  /** The title mentions no preset name. */
  predicate NoPresetName(presets: seq<(string, string)>, title: string) {
    forall k :: 0 <= k < |presets| ==> !Contains(Lower(title), Lower(presets[k].1))
  }

  /** The first preset the page is on or under names it, whatever the title says. */
  lemma InferNamePresetFirst(presets: seq<(string, string)>, title: Option<string>, domain: string, k: nat)
    requires NamesGiven(presets)
    requires k < |presets| && UnderDomain(domain, presets[k].0)
    requires forall j :: 0 <= j < k ==> !UnderDomain(domain, presets[j].0)
    ensures InferNameWith(presets, title, domain) == presets[k].1
  {
    var r := PresetIndex(presets, domain, 0);
    assert r.Some? && r.value == k;
  }

  /** Off the preset domains, the first preset name the title mentions names the page. */
  lemma InferNameFromTitle(presets: seq<(string, string)>, title: string, domain: string, k: nat)
    requires NamesGiven(presets)
    requires NoPresetDomain(presets, domain) && title != ""
    requires k < |presets| && Contains(Lower(title), Lower(presets[k].1))
    requires forall j :: 0 <= j < k ==> !Contains(Lower(title), Lower(presets[j].1))
    ensures InferNameWith(presets, Some(title), domain) == presets[k].1
  {
    assert PresetIndex(presets, domain, 0).None?;
    var r := NameIndex(presets, Lower(title), 0);
    assert r.Some? && r.value == k;
  }

  /** Failing both, a cleaned title of three characters or more is the name. */
  lemma InferNameCleanedTitle(presets: seq<(string, string)>, title: string, domain: string)
    requires NamesGiven(presets)
    requires NoPresetDomain(presets, domain) && title != "" && NoPresetName(presets, title)
    requires |CleanTitle(title)| >= 3
    ensures InferNameWith(presets, Some(title), domain) == CleanTitle(title)
  {
    assert PresetIndex(presets, domain, 0).None?;
    assert NameIndex(presets, Lower(title), 0).None?;
  }

  /**
    Failing all three, the name comes from the domain and holds no dash or
    underscore after its first character.
   */
  lemma InferNameFromDomain(presets: seq<(string, string)>, title: Option<string>, domain: string)
    requires NamesGiven(presets)
    requires NoPresetDomain(presets, domain)
    requires title.None? || title.value == "" || (NoPresetName(presets, title.value) && |CleanTitle(title.value)| < 3)
    ensures var name := InferNameWith(presets, title, domain);
      name == DomainName(domain) && forall i :: 1 <= i < |name| ==> name[i] != '-' && name[i] != '_'
  {
    assert PresetIndex(presets, domain, 0).None?;
    if title.Some? && title.value != "" {
      assert NameIndex(presets, Lower(title.value), 0).None?;
    }
    DomainNameNoDash(domain);
  }

  /** The name made from a domain keeps no dash or underscore after its first character. */
  lemma DomainNameNoDash(domain: string)
    ensures var name := DomainName(domain);
      forall i :: 1 <= i < |name| ==> name[i] != '-' && name[i] != '_'
  {
    var spaced := SpaceRuns(DomainRoot(domain));
    TrimKeeps(spaced, (c: char) => c != '-' && c != '_');
  }

  // ------------------------------------------------ notification settings

  /** The popup's view of the stored `notifications` object. */
  class NotificationSettings {
    var notifications: map<string, Setting>
    /** The `notifications` objects posted to the hub's `/api/settings`, in order. */
    var hubPosts: seq<map<string, Setting>>

    constructor(stored: map<string, Setting>)
      ensures notifications == stored && hubPosts == []
    {
      notifications := stored;
      hubPosts := [];
    }

    /**
      `saveNotificationSetting(key, value)`: this key and no other is stored,
      and the whole stored object is then posted to the hub.
     */
    method SaveNotificationSetting(key: string, value: Setting)
      modifies this`notifications, this`hubPosts
      ensures notifications == old(notifications)[key := value]
      ensures hubPosts == old(hubPosts) + [notifications]
    {
      notifications := notifications[key := value];
      hubPosts := hubPosts + [notifications];
    }
  }

  /**
    Saving the alarm flag changes only the alarm in the preferences the
    background worker reads: desktop, sound and preset stay as they were.
   */
  lemma SavedAlarmFlag(stored: map<string, Setting>, on: bool)
    ensures var before := GlobalPrefs(Some(stored));
      GlobalPrefs(Some(stored["alarm" := Flag(on)])) == before.(alarm := on)
  {
    var after := stored["alarm" := Flag(on)];
    assert after - {"alarm"} == stored - {"alarm"};
    assert "desktop" in after <==> "desktop" in stored;
    assert "sound" in after <==> "sound" in stored;
    assert "soundPreset" in after <==> "soundPreset" in stored;
  }
}
