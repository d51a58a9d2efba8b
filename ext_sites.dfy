/**
  The browser extension's list of custom sites (chrome-extension/background.js):
  the match patterns a site is registered under, adding, removing and
  toggling a site, and the clean-up the extension runs when it syncs with
  the hub. The list is what `chrome.storage.sync` holds under `customSites`;
  every operation reads it and computes the list to store.
 */
module ExtSites {
  import opened Options
  import opened Strings
  import opened HubSettings

  /**
    One stored custom site. A missing or empty id or name is the empty
    string (both are falsy); missing domains are the empty list.
   */
  datatype CustomSite = CustomSite(id: string, name: string, enabled: Option<bool>, domains: seq<string>)

  /** The canonical id and display name of a well-known assistant site. */
  datatype KnownSite = KnownSite(id: string, name: string)

  /**
    The eight well-known domains: `knownDomainMap` in the hub sync and the
    table of `getKnownSite` in the popup hold the same entries.
   */
  const KnownDomains: map<string, KnownSite> := map[
    "chat.openai.com" := KnownSite("chatgpt", "ChatGPT"),
    "chatgpt.com" := KnownSite("chatgpt", "ChatGPT"),
    "grok.com" := KnownSite("grok", "Grok"),
    "x.com" := KnownSite("grok", "Grok"),
    "gemini.google.com" := KnownSite("gemini", "Gemini"),
    "aistudio.google.com" := KnownSite("gemini", "Gemini"),
    "bard.google.com" := KnownSite("gemini", "Gemini"),
    "claude.ai" := KnownSite("claude", "Claude")
  ]

  // ------------------------------------------------------- list filtering

  /** `sites.filter(keep)`. */
  function Keep(sites: seq<CustomSite>, keep: CustomSite -> bool): (r: seq<CustomSite>)
    ensures forall s :: s in r <==> s in sites && keep(s)
    ensures |r| <= |sites|
  {
    if sites == [] then []
    else (if keep(sites[0]) then [sites[0]] else []) + Keep(sites[1..], keep)
  }

  /** Filtering keeps the order: it distributes over concatenation. */
  lemma {:induction false} KeepAppend(a: seq<CustomSite>, b: seq<CustomSite>, keep: CustomSite -> bool)
    ensures Keep(a + b, keep) == Keep(a, keep) + Keep(b, keep)
  {
    if a != [] {
      assert (a + b)[1..] == a[1..] + b;
      KeepAppend(a[1..], b, keep);
    } else {
      assert a + b == b;
    }
  }

  /** A filter every site passes changes nothing. */
  lemma {:induction false} KeepAll(sites: seq<CustomSite>, keep: CustomSite -> bool)
    requires forall s :: s in sites ==> keep(s)
    ensures Keep(sites, keep) == sites
  {
    if sites != [] {
      KeepAll(sites[1..], keep);
    }
  }

  // ------------------------------------------------------- match patterns

  /** `.replace(/^www\./, '')`: one leading "www." goes, case-sensitively. */
  function StripWww(d: string): string
  {
    if StartsWith(d, "www.") then d[4..] else d
  }

  const Schemes: set<string> := {"https", "http"}

  /** `buildMatchPatterns(domain)`. */
  function BuildMatchPatterns(domain: Option<string>): (patterns: seq<string>)
  {
    var d := StripWww(domain.GetOr(""));
    if d == "" then []
    else ["https://" + d + "/*", "https://*." + d + "/*", "http://" + d + "/*", "http://*." + d + "/*"]
  }

  /**
    With "www." stripped, an empty domain has no pattern; any other has four,
    exactly the schemes https and http crossed with the domain itself and
    all its subdomains.
   */
  lemma MatchPatternsShape(domain: Option<string>)
    ensures var d := StripWww(domain.GetOr(""));
      var patterns := BuildMatchPatterns(domain);
      (d == "" <==> patterns == [])
      && (d != "" ==>
            |patterns| == 4
            && (forall scheme, host :: scheme in Schemes && (host == d || host == "*." + d) ==> scheme + "://" + host + "/*" in patterns)
            && (forall p :: p in patterns ==>
                  exists scheme, host :: scheme in Schemes && (host == d || host == "*." + d) && p == scheme + "://" + host + "/*"))
  {
    var d := StripWww(domain.GetOr(""));
    if d != "" {
      var patterns := BuildMatchPatterns(domain);
      assert patterns[0] == "https" + "://" + d + "/*";
      assert patterns[1] == "https" + "://" + ("*." + d) + "/*";
      assert patterns[2] == "http" + "://" + d + "/*";
      assert patterns[3] == "http" + "://" + ("*." + d) + "/*";
    }
  }

  /** A "www." in front of a domain changes none of its patterns. */
  lemma WwwPrefixIgnored(d: string)
    requires !StartsWith(d, "www.")
    ensures BuildMatchPatterns(Some("www." + d)) == BuildMatchPatterns(Some(d))
  {
    assert StartsWith("www." + d, "www.") && ("www." + d)[4..] == d;
  }

  // -------------------------------------------------------- adding a site

  /** `domains.map(clean).filter(Boolean)`. */
  function CleanAll(domains: seq<string>, clean: string -> string): (r: seq<string>)
    ensures forall d :: d in r ==> d != ""
    ensures |r| <= |domains|
  {
    if domains == [] then []
    else
      var d := clean(domains[0]);
      (if d == "" then [] else [d]) + CleanAll(domains[1..], clean)
  }

  /** A domain that does not clean to the empty string is kept. */
  lemma {:induction false} CleanAllKeeps(domains: seq<string>, clean: string -> string, k: nat)
    requires k < |domains| && clean(domains[k]) != ""
    ensures clean(domains[k]) in CleanAll(domains, clean)
  {
    if k > 0 {
      assert domains[1..][k - 1] == domains[k];
      CleanAllKeeps(domains[1..], clean, k - 1);
    }
  }

  /** `d.toLowerCase().trim()`, as `addCustomSite` cleans a domain. */
  function CleanDomain(d: string): string {
    Trim(Lower(d))
  }

  /** `[...new Set(cleaned)]`: the new site's domains. */
  function NewSiteDomains(domains: seq<string>): (r: seq<string>)
    ensures forall d :: d in r ==> d != ""
    ensures forall i, j :: 0 <= i < j < |r| ==> r[i] != r[j]
  {
    Dedupe(CleanAll(domains, CleanDomain))
  }

  /** Some domain of `s`, lower-cased, is among `domains`. */
  predicate SharesDomain(s: CustomSite, domains: seq<string>) {
    exists k :: 0 <= k < |s.domains| && Lower(s.domains[k]) in domains
  }

  /** Neither the same id nor a shared domain. */
  predicate Unrelated(s: CustomSite, id: string, domains: seq<string>) {
    s.id != id && !SharesDomain(s, domains)
  }

  datatype AddError = InvalidSiteData | InvalidDomain

  datatype AddResult = Added(sites: seq<CustomSite>) | Rejected(error: AddError)

  /** `addCustomSite(site)` on the stored list `sites`: the list it stores, or why it refuses. */
  function AddCustomSite(sites: seq<CustomSite>, site: CustomSite): (r: AddResult)
  {
    if site.id == "" || site.name == "" || site.domains == [] then Rejected(InvalidSiteData)
    else
      var domains := NewSiteDomains(site.domains);
      if domains == [] then Rejected(InvalidDomain)
      else Added(Keep(sites, (s: CustomSite) => Unrelated(s, site.id, domains)) + [site.(domains := domains)])
  }

  /**
    A site lacking an id, a name or domains is refused as invalid data, and
    one whose domains are all blank as an invalid domain. Otherwise the new
    site, with its cleaned domains, is last; no other stored site keeps its
    id or any of its domains; and every stored site unrelated to it stays.
   */
  lemma AddCustomSiteOutcome(sites: seq<CustomSite>, site: CustomSite)
    ensures var r := AddCustomSite(sites, site);
      var domains := NewSiteDomains(site.domains);
      (r == Rejected(InvalidSiteData) <==> site.id == "" || site.name == "" || site.domains == [])
      && (r == Rejected(InvalidDomain) <==> site.id != "" && site.name != "" && site.domains != [] && domains == [])
      && (r.Added? ==>
            |r.sites| >= 1
            && r.sites[|r.sites| - 1] == site.(domains := domains)
            && (forall k :: 0 <= k < |r.sites| - 1 ==> Unrelated(r.sites[k], site.id, domains))
            && (forall s :: s in sites && Unrelated(s, site.id, domains) ==> s in r.sites[..|r.sites| - 1]))
  {
    var r := AddCustomSite(sites, site);
    if r.Added? {
      var domains := NewSiteDomains(site.domains);
      var kept := Keep(sites, (s: CustomSite) => Unrelated(s, site.id, domains));
      assert r.sites[..|r.sites| - 1] == kept;
      forall k | 0 <= k < |r.sites| - 1 ensures Unrelated(r.sites[k], site.id, domains) {
        assert r.sites[k] == kept[k] && kept[k] in kept;
      }
    }
  }

  /** After a successful add, the new site is the only one with its id. */
  lemma AddedIdUnique(sites: seq<CustomSite>, site: CustomSite)
    requires AddCustomSite(sites, site).Added?
    ensures var stored := AddCustomSite(sites, site).sites;
      forall k :: 0 <= k < |stored| && stored[k].id == site.id ==> k == |stored| - 1
  {
    AddCustomSiteOutcome(sites, site);
  }

  // ------------------------------------------------- removing and toggling

  /** `removeCustomSite(id)`. */
  function RemoveCustomSite(sites: seq<CustomSite>, id: string): seq<CustomSite> {
    Keep(sites, (s: CustomSite) => s.id != id)
  }

  /**
    Removing drops exactly the sites with that id and keeps the others in
    order; removing again changes nothing.
   */
  lemma RemoveCustomSiteExact(sites: seq<CustomSite>, id: string, a: seq<CustomSite>, b: seq<CustomSite>)
    ensures forall s :: s in RemoveCustomSite(sites, id) <==> s in sites && s.id != id
    ensures RemoveCustomSite(a + b, id) == RemoveCustomSite(a, id) + RemoveCustomSite(b, id)
    ensures RemoveCustomSite(RemoveCustomSite(sites, id), id) == RemoveCustomSite(sites, id)
  {
    KeepAppend(a, b, (s: CustomSite) => s.id != id);
    KeepAll(RemoveCustomSite(sites, id), (s: CustomSite) => s.id != id);
  }

  /** `toggleCustomSite(id, enabled)`. */
  function ToggleCustomSite(sites: seq<CustomSite>, id: string, enabled: bool): (r: seq<CustomSite>)
    ensures |r| == |sites|
  {
    seq(|sites|, k requires 0 <= k < |sites| => if sites[k].id == id then sites[k].(enabled := Some(enabled)) else sites[k])
  }

  /**
    Toggling keeps every site in its place with its id, name and domains;
    only the sites with that id change, and only in `enabled`, which then
    holds the new value.
   */
  lemma ToggleOnlyEnabled(sites: seq<CustomSite>, id: string, enabled: bool)
    ensures var r := ToggleCustomSite(sites, id, enabled);
      forall k :: 0 <= k < |sites| ==>
        r[k].id == sites[k].id && r[k].name == sites[k].name && r[k].domains == sites[k].domains
        && (sites[k].id == id ==> r[k].enabled == Some(enabled))
        && (sites[k].id != id ==> r[k] == sites[k])
  {
  }

  // ------------------------------------------------------- hub sync clean-up

  /** `normalizeDomain` of the hub sync: lower-cased, one leading "www." dropped, then trimmed. */
  function SyncDomain(d: string): string {
    Trim(StripWww(Lower(d)))
  }

  /** `domains.map(d => knownDomainMap[d]).find(Boolean) || null`. */
  function FirstKnown(domains: seq<string>): (r: Option<KnownSite>)
    ensures r.None? <==> forall k :: 0 <= k < |domains| ==> domains[k] !in KnownDomains
    ensures r.Some? ==> exists k :: 0 <= k < |domains| && domains[k] in KnownDomains && r.value == KnownDomains[domains[k]]
                                    && forall j :: 0 <= j < k ==> domains[j] !in KnownDomains
  {
    if domains == [] then None
    else if domains[0] in KnownDomains then Some(KnownDomains[domains[0]])
    else
      var r := FirstKnown(domains[1..]);
      if r.Some? then
        var k :| 0 <= k < |domains| - 1 && domains[1..][k] in KnownDomains && r.value == KnownDomains[domains[1..][k]]
                 && forall j :: 0 <= j < k ==> domains[1..][j] !in KnownDomains;
        assert domains[k + 1] in KnownDomains && forall j :: 1 <= j < k + 1 ==> domains[j] == domains[1..][j - 1];
        r
      else r
  }

  /**
    A site as the sync rewrites it: cleaned domains, and the id and name of
    the first well-known domain among them, if any.
   */
  function Canonical(site: CustomSite): CustomSite
  {
    var domains := CleanAll(site.domains, SyncDomain);
    var known := FirstKnown(domains);
    site.(id := if known.Some? then known.value.id else site.id,
          name := if known.Some? then known.value.name else site.name,
          domains := domains)
  }

  /**
    The rewrite keeps `enabled`, cleans the domains, and takes the id and
    name of the first well-known domain, or keeps the site's own.
   */
  lemma CanonicalRewrite(site: CustomSite)
    ensures var r := Canonical(site);
      var domains := CleanAll(site.domains, SyncDomain);
      var known := FirstKnown(domains);
      r.enabled == site.enabled && r.domains == domains
      && (known.Some? ==> r.id == known.value.id && r.name == known.value.name)
      && (known.None? ==> r.id == site.id && r.name == site.name)
  {
  }

  /** Every stored site rewritten. */
  function CanonicalAll(sites: seq<CustomSite>): (r: seq<CustomSite>)
    ensures |r| == |sites|
  {
    seq(|sites|, k requires 0 <= k < |sites| => Canonical(sites[k]))
  }

  /** The first site of each id not yet seen, in order: what the loop's `seenIds` test keeps. */
  function FirstPerId(sites: seq<CustomSite>, seen: set<string>): (r: seq<CustomSite>)
    ensures |r| <= |sites|
    ensures forall o :: o in r ==> o.id !in seen
    ensures forall i, j :: 0 <= i < j < |r| ==> r[i].id != r[j].id
  {
    if sites == [] then []
    else if sites[0].id in seen then FirstPerId(sites[1..], seen)
    else [sites[0]] + FirstPerId(sites[1..], seen + {sites[0].id})
  }

  /** The sites the sync keeps: the rewritten sites, one per id. */
  function Normalized(sites: seq<CustomSite>): (r: seq<CustomSite>)
    ensures |r| <= |sites|
    ensures forall i, j :: 0 <= i < j < |r| ==> r[i].id != r[j].id
  {
    FirstPerId(CanonicalAll(sites), {})
  }

  /**
    Every site kept is the first of its id: some site is it, and no
    earlier site has its id.
   */
  lemma {:induction false} FirstPerIdFirstWins(sites: seq<CustomSite>, seen: set<string>, o: CustomSite)
    requires o in FirstPerId(sites, seen)
    ensures exists k :: 0 <= k < |sites| && o == sites[k] && forall j :: 0 <= j < k ==> sites[j].id != o.id
  {
    var rest := if sites[0].id in seen then seen else seen + {sites[0].id};
    if o != sites[0] || sites[0].id in seen {
      assert o in FirstPerId(sites[1..], rest);
      FirstPerIdFirstWins(sites[1..], rest, o);
      var k :| 0 <= k < |sites| - 1 && o == sites[1..][k] && forall j :: 0 <= j < k ==> sites[1..][j].id != o.id;
      assert o.id != sites[0].id;
      assert forall j :: 1 <= j < k + 1 ==> sites[j] == sites[1..][j - 1];
    }
  }

  /** No id is lost: each site's id is kept unless it was already seen. */
  lemma {:induction false} FirstPerIdCovers(sites: seq<CustomSite>, seen: set<string>, k: nat)
    requires k < |sites|
    ensures sites[k].id in seen || exists o :: o in FirstPerId(sites, seen) && o.id == sites[k].id
  {
    if k > 0 {
      var rest := if sites[0].id in seen then seen else seen + {sites[0].id};
      FirstPerIdCovers(sites[1..], rest, k - 1);
      assert sites[1..][k - 1] == sites[k];
      if sites[0].id !in seen && sites[k].id == sites[0].id {
        assert sites[0] in FirstPerId(sites, seen);
      }
    }
  }

  /**
    The sync keeps, for each id the rewritten sites carry, exactly one site:
    the first stored site that rewrites to that id, rewritten.
   */
  lemma NormalizedFirstWins(sites: seq<CustomSite>)
    ensures forall k :: 0 <= k < |sites| ==> exists o :: o in Normalized(sites) && o.id == Canonical(sites[k]).id
    ensures forall o :: o in Normalized(sites) ==>
      exists k :: 0 <= k < |sites| && o == Canonical(sites[k]) && forall j :: 0 <= j < k ==> Canonical(sites[j]).id != o.id
  {
    var renamed := CanonicalAll(sites);
    forall k | 0 <= k < |sites| ensures exists o :: o in Normalized(sites) && o.id == Canonical(sites[k]).id {
      FirstPerIdCovers(renamed, {}, k);
      assert renamed[k] == Canonical(sites[k]);
    }
    forall o | o in Normalized(sites)
      ensures exists k :: 0 <= k < |sites| && o == Canonical(sites[k]) && forall j :: 0 <= j < k ==> Canonical(sites[j]).id != o.id
    {
      FirstPerIdFirstWins(renamed, {}, o);
      assert forall j :: 0 <= j < |sites| ==> renamed[j] == Canonical(sites[j]);
    }
  }

  /** One step of the loop: the site at `i` is kept exactly when its id is new. */
  lemma FirstPerIdStep(sites: seq<CustomSite>, i: nat, seen: set<string>)
    requires i < |sites|
    ensures FirstPerId(sites[i..], seen)
         == if sites[i].id in seen then FirstPerId(sites[i + 1..], seen)
            else [sites[i]] + FirstPerId(sites[i + 1..], seen + {sites[i].id})
  {
    assert sites[i..][0] == sites[i] && sites[i..][1..] == sites[i + 1..];
  }

  /** The sync loop: one rewritten site per id, the first, in stored order. */
  method NormalizeSites(customSites: seq<CustomSite>) returns (normalized: seq<CustomSite>)
    ensures normalized == Normalized(customSites)
  {
    ghost var renamed := CanonicalAll(customSites);
    normalized := [];
    var seenIds: set<string> := {};
    var i := 0;
    while i < |customSites|
      invariant 0 <= i <= |customSites|
      invariant normalized + FirstPerId(renamed[i..], seenIds) == FirstPerId(renamed, {})
    {
      var site := Canonical(customSites[i]);
      FirstPerIdStep(renamed, i, seenIds);
      if site.id !in seenIds {
        seenIds := seenIds + {site.id};
        normalized := normalized + [site];
      }
      i := i + 1;
    }
    assert renamed[i..] == [];
  }

  /** The hub lists some source that a browser extension registered. */
  predicate HasExtensionSources(sources: map<string, SourceEntry>) {
    exists id :: id in sources && sources[id].origin == Some("extension")
  }

  /** The hub hides a source that came from a browser extension. */
  predicate HiddenByHub(id: string, sources: map<string, SourceEntry>) {
    id in sources && sources[id].origin == Some("extension") && sources[id].hidden == Some(true)
  }

  /** What the sync stores: nothing, or a new list. */
  datatype SyncWrite = NoWrite | Write(sites: seq<CustomSite>)

  /**
    `syncCustomSitesFromHub` from the read of the hub's sources on: `sources`
    is the hub's `settings.sources`, `customSites` the stored list. The sites
    to remove are those the hub hides, and a site goes when its id is one of
    theirs, which is the same as the hub hiding its own id.
   */
  function SyncCustomSites(customSites: seq<CustomSite>, sources: map<string, SourceEntry>): SyncWrite {
    if customSites == [] then NoWrite
    else if !HasExtensionSources(sources) then Write([])
    else
      var normalized := Normalized(customSites);
      if |normalized| != |customSites| then Write(normalized)
      else if forall k :: 0 <= k < |customSites| ==> !HiddenByHub(customSites[k].id, sources) then NoWrite
      else Write(Keep(customSites, (s: CustomSite) => !HiddenByHub(s.id, sources)))
  }

  /**
    An empty list is left alone; a hub without extension sources clears the
    list; a list with two sites of one id stores the rewritten list; and
    otherwise the sync drops exactly the sites the hub hides, writing only
    when there is one.
   */
  lemma SyncCustomSitesOutcome(customSites: seq<CustomSite>, sources: map<string, SourceEntry>)
    ensures var w := SyncCustomSites(customSites, sources);
      var normalized := Normalized(customSites);
      (customSites == [] ==> w == NoWrite)
      && (customSites != [] && !HasExtensionSources(sources) ==> w == Write([]))
      && (customSites != [] && HasExtensionSources(sources) && |normalized| != |customSites| ==> w == Write(normalized))
      && (customSites != [] && HasExtensionSources(sources) && |normalized| == |customSites| ==>
            (w == NoWrite <==> forall k :: 0 <= k < |customSites| ==> !HiddenByHub(customSites[k].id, sources))
            && (w.Write? ==> forall s :: s in w.sites <==> s in customSites && !HiddenByHub(s.id, sources)))
  {
    var w := SyncCustomSites(customSites, sources);
    if customSites != [] && HasExtensionSources(sources) && |Normalized(customSites)| == |customSites| && w.Write? {
      var k :| 0 <= k < |customSites| && HiddenByHub(customSites[k].id, sources);
      assert customSites[k] !in w.sites;
    }
  }
}
