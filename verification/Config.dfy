/** The configuration the filter engine reads: sources, shared rule profiles,
    and how the two combine into the rules a source is filtered by. */
module Config {
  import opened Text

  const FIELD_GROUP := "group"
  const FIELD_NAME := "name"
  const FIELD_URL := "url"
  const FIELD_ANY := "any"

  const ACTION_INCLUDE := "include"
  const ACTION_EXCLUDE := "exclude"

  const DEFAULT_KEEP := "keep"
  const DEFAULT_DROP := "drop"

  const MODE_OFF := ""
  const MODE_INCLUDE := "include"
  const MODE_EXCLUDE := "exclude"

  const LIVE := "live"
  const VOD := "vod"
  const SERIES := "series"

  const MAX_FILTER_RULES := 200
  const MAX_FILTER_PATTERN_LENGTH := 500

  const DEFAULT_QUALITY_TIERS := ["4k|uhd|2160p", "fhd|full ?hd|1080p", "hd|720p", "sd|480p"]

  predicate IsContentTypeName(v: string) {
    v == LIVE || v == VOD || v == SERIES
  }

  datatype FilterRule = FilterRule(field: string, action: string, pattern: string, note: string)

  datatype FilterProfile = FilterProfile(id: int, name: string, fallback: string, rules: seq<FilterRule>)

  /** The part of the running configuration the engine consults. */
  datatype Config = Config(filterProfiles: seq<FilterProfile>)

  /** A source's import filters. */
  datatype Source = Source(
    name: string,
    url: string,
    filterProfile: string,
    filterRules: seq<FilterRule>,
    filterDefault: string,
    groupFilterMode: string,
    groupFilterList: seq<string>,
    groupFilterRegex: string,
    importTypes: seq<string>,
    groupTypeOverrides: map<string, string>,
    qualityDedupe: bool,
    qualityTiers: seq<string>,
    liveCategory: string,
    vodCategory: string,
    seriesCategory: string,
    liveInclude: string,
    liveExclude: string,
    seriesInclude: string,
    seriesExclude: string,
    vodInclude: string,
    vodExclude: string)
  {
    predicate HasContentFilters() {
      || filterProfile != "" || filterRules != [] || filterDefault == DEFAULT_DROP
      || qualityDedupe
      || groupFilterMode != MODE_OFF || groupFilterRegex != ""
      || importTypes != [] || groupTypeOverrides != map[]
      || liveCategory != "" || vodCategory != "" || seriesCategory != ""
      || liveInclude != "" || liveExclude != ""
      || seriesInclude != "" || seriesExclude != ""
      || vodInclude != "" || vodExclude != ""
    }
  }

  /** The regular expression engine, uninterpreted: which patterns compile,
      whether one matches a subject, and the leftmost match it finds. */
  datatype Engine = Engine(
    alphabet: Alphabet,
    compiles: string -> bool,
    matches: (string, string) -> bool,
    find: (string, string) -> Option<(nat, nat)>)
  {
    ghost predicate Lawful() {
      && alphabet.Lawful()
      && forall p, s :: find(p, s).Some? ==> find(p, s).value.0 <= find(p, s).value.1 <= |s|
    }
  }

  /** A group label as it is compared: lower-cased, trimmed, inner runs of
      whitespace collapsed. */
  function GroupKey(a: Alphabet, name: string): string {
    Join(a.Fields(a.Lower(name)), " ")
  }

  /** What a rule pattern compiles to: case-insensitive unless the operator
      opened with a flag group. */
  function RulePattern(pattern: string): string {
    if "(?" <= pattern then pattern else "(?i)" + pattern
  }

  function QualityTierPattern(tier: string): string {
    "(?i)\\b(?:" + tier + ")\\b"
  }

  // ---- effective rules -----------------------------------------------------

  /** The first profile of that name. */
  function FilterProfileByName(profiles: seq<FilterProfile>, name: string): (r: Option<FilterProfile>)
    ensures r.None? <==> forall i :: 0 <= i < |profiles| ==> profiles[i].name != name
    ensures r.Some? ==> exists i :: 0 <= i < |profiles| && profiles[i] == r.value && profiles[i].name == name
                                    && forall j :: 0 <= j < i ==> profiles[j].name != name
  {
    if profiles == [] then None
    else if profiles[0].name == name then Some(profiles[0])
    else
      var r := FilterProfileByName(profiles[1..], name);
      assert forall i :: 0 < i < |profiles| ==> profiles[i] == profiles[1..][i - 1];
      assert r.Some? ==> exists i :: 1 <= i < |profiles| && profiles[i] == r.value && profiles[i].name == name
                                    && forall j :: 0 <= j < i ==> profiles[j].name != name by {
        if r.Some? {
          var k :| 0 <= k < |profiles[1..]| && profiles[1..][k] == r.value && profiles[1..][k].name == name
            && forall j :: 0 <= j < k ==> profiles[1..][j].name != name;
          assert profiles[k + 1] == r.value;
        }
      }
      r
  }

  /** The profile a source names, when it names one that exists. */
  function ProfileOf(cfg: Config, source: Source): Option<FilterProfile> {
    if source.filterProfile == "" then None else FilterProfileByName(cfg.filterProfiles, source.filterProfile)
  }

  datatype RuleSet = RuleSet(rules: seq<FilterRule>, origins: seq<string>, fallback: string)

  const ORIGIN_SOURCE := "source"

  function Repeat(s: string, n: nat): (r: seq<string>)
    ensures |r| == n && forall i :: 0 <= i < n ==> r[i] == s
  {
    seq(n, _ => s)
  }

  /** The rules of the profile a source names, then its own. */
  function EffectiveRules(cfg: Config, source: Source): seq<FilterRule> {
    match ProfileOf(cfg, source)
    case Some(p) => p.rules + source.filterRules
    case None => source.filterRules
  }

  function EffectiveOrigins(cfg: Config, source: Source): (r: seq<string>)
    ensures |r| == |EffectiveRules(cfg, source)|
  {
    match ProfileOf(cfg, source)
    case Some(p) => Repeat("profile:" + p.name, |p.rules|) + Repeat(ORIGIN_SOURCE, |source.filterRules|)
    case None => Repeat(ORIGIN_SOURCE, |source.filterRules|)
  }

  /** The source's own choice, else its profile's, else keep. */
  function EffectiveDefault(cfg: Config, source: Source): string {
    if source.filterDefault != "" then source.filterDefault
    else match ProfileOf(cfg, source)
      case Some(p) => if p.fallback != "" then p.fallback else DEFAULT_KEEP
      case None => DEFAULT_KEEP
  }

  /** No config means no profiles exist. */
  function ResolvedRules(source: Source, cfg: Option<Config>): (r: RuleSet)
    ensures |r.origins| == |r.rules|
  {
    var c := if cfg.Some? then cfg.value else Config([]);
    RuleSet(EffectiveRules(c, source), EffectiveOrigins(c, source), EffectiveDefault(c, source))
  }

  /** Appends the profile's rules and then the source's, one at a time. */
  method CollectEffectiveRules(cfg: Config, source: Source) returns (rules: seq<FilterRule>, origins: seq<string>)
    ensures rules == EffectiveRules(cfg, source)
    ensures origins == EffectiveOrigins(cfg, source)
  {
    rules, origins := [], [];
    if source.filterProfile != "" {
      var profile := FilterProfileByName(cfg.filterProfiles, source.filterProfile);
      if profile.Some? {
        for i := 0 to |profile.value.rules|
          invariant rules == profile.value.rules[..i]
          invariant origins == Repeat("profile:" + profile.value.name, i)
        {
          rules := rules + [profile.value.rules[i]];
          origins := origins + ["profile:" + profile.value.name];
        }
      }
    }
    ghost var rules0, origins0 := rules, origins;
    for i := 0 to |source.filterRules|
      invariant rules == rules0 + source.filterRules[..i]
      invariant origins == origins0 + Repeat(ORIGIN_SOURCE, i)
    {
      rules := rules + [source.filterRules[i]];
      origins := origins + [ORIGIN_SOURCE];
    }
  }

  method ResolveRules(source: Source, cfg: Option<Config>) returns (r: RuleSet)
    ensures r == ResolvedRules(source, cfg)
  {
    if cfg.None? {
      var origins := [];
      for i := 0 to |source.filterRules|
        invariant origins == Repeat(ORIGIN_SOURCE, i)
      {
        origins := origins + [ORIGIN_SOURCE];
      }
      var fallback := source.filterDefault;
      if fallback == "" {
        fallback := DEFAULT_KEEP;
      }
      r := RuleSet(source.filterRules, origins, fallback);
    } else {
      var rules, origins := CollectEffectiveRules(cfg.value, source);
      r := RuleSet(rules, origins, EffectiveDefault(cfg.value, source));
    }
  }
}
