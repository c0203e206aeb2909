# kptv-proxy: a verified model of its import, buffering and guide logic

kptv-proxy imports channel catalogs from upstream sources, filters them, serves
the streams through ring buffers, remembers which streams are dead and answers
guide queries. This project models the parts of it that decide something and
proves what they promise, for every input and every run.

| file | what it models |
|---|---|
| Text.dfy, Sorting.dfy | strings, words, joins and the library sorts the rest is built on |
| Config.dfy | sources, shared rule profiles, effective rules |
| GroupKeys.dfy | the canonical form of a group label, on the server and in the browser |
| Normalize.dfy, NormalizeLaws.dfy | the tidying every stored source goes through, and that it keeps what the operator said |
| Stages.dfy | the stages of a pass that look at one stream alone |
| Quality.dfy | the whole-catalog quality stage |
| Reports.dfy | the counters of a pass, and which rule decided what |
| Signatures.dfy, Manager.dfy | the signature of a source's filters and the cache of compiled filters keyed by it |
| Pass.dfy, PassLaws.dfy | one pass over a catalog, and what every pass guarantees |
| ImportPolicy.dfy | what a pass keeps, said on the stored settings and the stream with nothing compiled |
| ReportLaws.dfy | what a finished report says, counted on the verdicts |
| CacheLaws.dfy | when a reused filter gives a catalog the verdicts of a fresh one |
| RingBuffers.dfy, RingProtocol.dfy, RingWatch.dfy | the ring buffer as an object with a history, as interleaved steps of many threads, and as an onlooker sees those |
| Profiles.dfy, ProfileLaws.dfy, RequestLaws.dfy | shared profiles as two tables changed by requests, what every run keeps, and what each request answers and leaves |
| DeadStreams.dfy, DeadLaws.dfy | the dead-stream table and its snapshot, one call at a time with failing database calls |
| DeadStreamsProtocol.dfy, DeadWatch.dfy | the same calls interleaved, and as an onlooker sees them |
| ProgrammeGuide.dfy, GuideLaws.dfy | collecting, publishing and asking the programme guide |
| PreviewPages.dfy, PageLaws.dfy | one page of a preview's verdicts |

Code that changes state is modelled as classes and loops, proved against
functions of the old state; the laws are lemmas about those functions. Regular
expressions are uninterpreted (`Engine`): which patterns compile, whether one
matches a subject, the span of the leftmost match. Letter case and white space
are an uninterpreted alphabet (`Alphabet`) whose lower-casing is idempotent and
leaves spaces alone.

## What turned out otherwise than documented

- A verdict carries a rule number together with the stage group, type, pattern
  or quality exactly when a rule lets the stream in and the group stage, the type
  gate, the patterns or a better variant then stop it; the comment at
  work/filter/report.go:65 says 0. `PassLaws.RuleNumberWithoutRuleStage` is the
  condition, `PassLaws.RuleNumberOnGroupDrop` a case.
- A rule is numbered among the rules that compile, in verdicts and in the report;
  the comments at work/filter/report.go:34 and :65 speak of positions in the
  effective list. The two agree exactly as long as every rule before it compiles
  (`ImportPolicy.NumberIsPositionIff`).
- The signature of a source's filters does not tell an empty list from a list of
  one blank entry: for the groups, where that is the "(no group)" entry, for the
  import types and for the quality tiers. A cached filter can outlive such an
  edit. `CacheLaws.ServedIsFresh` says exactly when the filter served gives a
  catalog the verdicts of a fresh one; `CacheLaws.StaleSelection`,
  `CacheLaws.StaleGate` and `CacheLaws.StaleTiers` are cases where it does not. A
  bar in a profile's name makes two rule lists share their text:
  `Manager.StaleProfile` moves a source between two such profiles and gets the old
  filter back.
- A save lets a source through whose filters are refused but equal to the stored
  ones. The fields before the refusal have been tidied by then and a refused
  default or rule list blanked, so a source stored before these checks existed
  gets through exactly when the refused run changes nothing:
  `ProfileLaws.UnchangedSourceLetThrough` is the condition, field by field.
  `ProfileLaws.UntidyLabelRefused` (a label stored with a blank in front of it)
  and `ProfileLaws.BadDefaultRefused` are sources that cannot be saved.
- A save deletes the stored sources and writes them again one by one, outside any
  transaction. When it fails half way, integrity holds but the live sources are
  no longer the stored ones; `ProfileLaws.SaveKeepsIntact` says exactly when, and
  `ProfileLaws.FailedSaveLosesSources` shows the loss going live with the next
  profile.
- An explicit default of keep is stored as empty. Tidying keeps the default in
  force exactly when it is not a keep that the profile's own default then
  replaces (`Normalize.DefaultSurvivesTidyingIff`);
  `Normalize.KeepTurnsIntoDrop` is a source whose keep turns into drop.
- A mark or revival that runs while the snapshot cannot be loaded publishes a
  snapshot that misses the rest of the table, and a revival whose second
  statement fails leaves the snapshot behind. `DeadStreams.AgreementExactly` is
  the exact condition over all operations and all failures;
  `DeadStreams.BlindMarkForgets`, `DeadStreams.BlindMarkLosesOrder` and
  `DeadStreams.HalfRevivalLeftBehind` are cases.
- Two operations on one stream in flight at once can leave table and snapshot
  apart for good (`DeadStreamsProtocol.OverlapDisagrees`).
- A page number is not bounded when nothing matches the search, and the page's
  start then can overflow the machine's integer and stop the call.
  `PreviewPages.PagePreviewVerdicts` states exactly when,
  `PreviewPages.EmptySearchOverflows` gives a request.

## Model

| member | source | states |
|---|---|---|
| Config.FilterProfileByName | work/config/filterrules.go:231-238 | the first profile of that name, and none exactly when no profile has it |
| Config.CollectEffectiveRules | work/config/filterrules.go:196-213 | the rules of the named profile, when it exists, followed by the source's own, each with its origin |
| Config.ResolveRules | work/filter/filter.go:88-102 | the rules, origins and default in force, with or without a configuration |
| GroupKeys.KeyWords | work/config/sourcefilters.go:42-44 | splitting a key into words gives back the lower-cased words of the label |
| GroupKeys.GroupKeyIdempotent | work/config/sourcefilters.go:42-44 | the key of a key is the key |
| GroupKeys.SameKeyIffSameWords | work/config/sourcefilters.go:42-44 | two labels share a key exactly when their lower-cased word lists agree |
| GroupKeys.BrowserKeyAgrees | static/src/filters.js:36-38 | over one alphabet the browser's trim, split, drop and join computes the server's key |
| Normalize.NormalizeRules | work/config/filterrules.go:89-135 | the tidied rules in order without the blank ones, or the first rule that cannot be honoured by number and reason |
| Normalize.NormalRulesAreCanonical | work/config/filterrules.go:89-135 | every rule that comes out is canonical and there are no more than went in |
| Normalize.CanonicalRulesAreFixed | work/config/filterrules.go:89-135 | canonical rules come through unchanged |
| Normalize.DedupeGroups | work/config/sourcefilters.go:320-339 | the trimmed labels, first spelling of each group key, in order |
| Normalize.DedupeKeepsEveryGroup | work/config/sourcefilters.go:316-339 | the set of group keys is kept and no key has two labels |
| Normalize.DedupeKeepsSpellings | work/config/sourcefilters.go:316-339 | every label kept is one the operator wrote, trimmed |
| Normalize.NormalizeTypes | work/config/sourcefilters.go:241-258 | the distinct import types in order, none for all three, or the first unknown one |
| Normalize.NormalizeOverrides | work/config/sourcefilters.go:260-285 | the overrides in the sorted order of their labels: one label per group, or the first unknown type or conflict |
| Normalize.NormalOverridesAreCanonical | work/config/sourcefilters.go:260-285 | what comes out is distinct under the group key, trimmed and of known types |
| Normalize.CanonicalOverridesAreFixed | work/config/sourcefilters.go:260-285 | a canonical map is rebuilt entry by entry |
| Normalize.NormalizeQualityTiers | work/config/sourcefilters.go:60-71 | the trimmed tiers without the blank ones |
| Normalize.FirstBadTier | work/config/sourcefilters.go:287-292 | a tier is reported exactly when one does not compile |
| Normalize.FirstBad | work/config/sourcefilters.go:294-312 | a pattern is reported exactly when one is set and does not compile |
| Normalize.SourceConfig.NormalizeFilters | work/config/sourcefilters.go:218-314 | the fields and the error after a run, wherever it stopped |
| Normalize.SourceConfig.NormalizeGroups | work/config/sourcefilters.go:230-239 | the mode check, the group list and the selection that keeps nothing |
| Normalize.SourceConfig.NormalizeTypeGate | work/config/sourcefilters.go:241-285 | import types, then overrides, stopping at the first error |
| Normalize.SourceConfig.NormalizePatterns | work/config/sourcefilters.go:287-313 | tiers, then patterns, stopping at the first that does not compile |
| Normalize.NormalizedIsCanonical | work/config/sourcefilters.go:213-314 | a successful run leaves a canonical source |
| Normalize.CanonicalIffFixed | work/config/sourcefilters.go:213-314 | exactly the canonical sources come through unchanged and unrefused |
| Normalize.NormalizingTwice | work/config/sourcefilters.go:213-314 | a second run succeeds and changes nothing |
| Normalize.DefaultSurvivesTidyingIff | work/config/filterrules.go:137-148 | tidying keeps the default in force as typed exactly when it is not a keep that the named profile's own default replaces |
| Normalize.KeepTurnsIntoDrop | work/config/filterrules.go:137-148 | a source that says keep under a profile that says drop: keep before tidying, drop after |
| NormalizeLaws.RulesMeanWhatTheySay | work/config/filterrules.go:89-135 | refused exactly above 200 rules or when one not left blank is at fault; else the rules left are those not blank, in order, each meaning what it said, a blank field the group and a blank action include |
| NormalizeLaws.ErrorNamesTheRule | work/config/filterrules.go:89-135 | the error names the first rule at fault, counted from one with the blank ones, and the first fault it has: length, field, action, pattern |
| NormalizeLaws.DefaultMeansWhatItSays | work/config/filterrules.go:137-148 | drop in any case and spacing is drop, nothing and keep are nothing, anything else is refused |
| NormalizeLaws.LabelsKeepTheirOrder | work/config/sourcefilters.go:316-339 | each group once, in the order and spelling in which it is first named |
| NormalizeLaws.TypesMeanWhatTheySay | work/config/sourcefilters.go:241-258 | the tidied gate lets a type through exactly when no type was typed or that one was, in any case and spacing; refused exactly when a value is none of the three |
| NormalizeLaws.OverridesMeanWhatTheySay | work/config/sourcefilters.go:260-285 | accepted exactly when every entry that says something names a known type and no group is given two; each group keeps its type under the spelling that sorts first, and nothing is added |
| NormalizeLaws.TiersKeepTheirOrder | work/config/sourcefilters.go:60-71 | the tiers trimmed, in order, without the blank ones |
| NormalizeLaws.AcceptedIffHonourable | work/config/sourcefilters.go:213-314 | a source is accepted exactly when default, rules, mode, selection, types, overrides, tiers and each of the ten patterns can be honoured |
| NormalizeLaws.AcceptedMeansWhatItSays | work/config/sourcefilters.go:213-314 | an accepted source says what was typed: default, rules, labels, gate, forced types and tiers, and every other field as it was |
| NormalizeLaws.BadPatternIsNamed | work/config/sourcefilters.go:294-312 | the setting named holds a pattern that is set and does not compile |
| Stages.ContentTypeOfStream | work/utils/utils.go:52-82 | always live, vod or series, and an explicit type verbatim |
| Stages.MatchesRule | work/filter/rules.go:68-75 | a rule matches exactly when one of the values its field names is not empty and hit |
| Stages.RuleVerdict | work/filter/rules.go:82-99 | the first matching rule decides; the match counters grow by every match, or by the deciding one alone |
| Stages.MatchSubjects | work/filter/filter.go:271-286 | name, group attributes and address, lower-cased and trimmed, blanks left out |
| Stages.SubjectsAreTheProbes | work/filter/filter.go:271-296 | a pattern hits the subjects exactly when it hits one of the four values |
| Stages.MatchesAny | work/filter/filter.go:289-296 | true exactly when some subject matches |
| Stages.ResolveContentType | work/filter/filter.go:308-321 | the forced type of the group, else series, vod, live by category pattern, else the importer's |
| Stages.PassesGroupFilter | work/filter/filter.go:243-255 | off passes all; include keeps and exclude drops what is listed or hit by the group pattern |
| Stages.ImportsType | work/filter/filter.go:258-264 | no gate passes every type, a gate its own |
| Stages.ShouldIncludeStream | work/filter/filter.go:513-564 | the include pattern of the type hits if there is one, and its exclude pattern does not |
| Quality.QualityRank | work/filter/filter.go:443-455 | the first tier whose marker the name carries and the name without it, or neither |
| Quality.BaseIsCore | work/filter/filter.go:448-453 | a base is the lower-cased words of the name without its marker, with every separator at the ends gone and no other, and each remainder has one such core only |
| Quality.VariantKeyInjective | work/filter/filter.go:484 | the key of a variant tells both its type and its base name |
| Quality.MarkAll | work/filter/filter.go:471-489 | one mark per outcome, and the best rank seen under every key |
| Quality.DropBeaten | work/filter/filter.go:491-501 | drops exactly the marks with a better one under their key and counts them |
| Quality.ApplyQualityDedupe | work/filter/filter.go:462-502 | a kept outcome is dropped exactly when a kept variant of its key has a better tier; all others are untouched; the count is theirs |
| Quality.BeatsMeansOutranks | work/filter/filter.go:462-502 | comparing keys is comparing type and base name |
| Quality.BestSurvives | work/filter/filter.go:462-502 | whatever is dropped has a better variant that is not |
| Quality.EveryChannelStays | work/filter/filter.go:462-502 | every key with a marked kept stream keeps one |
| Reports.GroupStat.Note | work/filter/report.go:156-170 | the group's counters and first samples describe one more stream |
| Reports.GroupStat.Settle | work/filter/report.go:178-184 | the type with the most streams, live before vod before series |
| Reports.Report.constructor | work/filter/report.go:126-138 | an empty report with every content type present |
| Reports.Report.Observe | work/filter/report.go:141-170 | totals, types, groups and samples describe one more stream, one entry per group key |
| Reports.Report.StartRules | work/filter/report.go:86-105 | one zero counter per rule, match counters with statistics only |
| Reports.Report.ObserveRules | work/filter/report.go:110-122 | the verdict of the first matching rule or the default, counted where it belongs |
| Reports.Report.FinishRules | work/filter/report.go:186-194 | match counts from the statistics, or the decided counts without them |
| Reports.Report.SettleGroups | work/filter/report.go:177-185 | every group gets its dominant type |
| Reports.Report.SortGroups | work/filter/report.go:196-201 | the same groups, largest first and then by name |
| Reports.Report.Finish | work/filter/report.go:176-202 | types settled, rule counts folded in, groups ordered |
| Reports.EveryStreamIsDecidedOnce | work/filter/report.go:110-122 | the decided counts of all rules and of the default add up to the catalog |
| Reports.DecidedIsMatched | work/filter/report.go:186-194 | no rule decides more streams than it matches |
| Reports.DeadIffShadowed | work/filter/rules.go:77-99 | a rule decides nothing exactly when every stream it matches is matched by an earlier rule |
| Reports.Report.GroupsConserve | work/filter/report.go:141-170 | group counters add up to the totals |
| Reports.Report.TypesConserve | work/filter/report.go:141-170 | type counters add up to the totals |
| Signatures.FilterSignature | work/filter/filter.go:107-139 | the text of every part that decides, overrides sorted |
| Signatures.OverridePartsOrderFree | work/filter/filter.go:108-112 | equal maps give equal text, whatever order they are visited in |
| Signatures.SignatureDetermines | work/filter/filter.go:107-139 | without separators in the values, equal signatures mean equal rules up to notes, equal patterns and overrides, and equal lists up to one blank entry |
| Signatures.SameInputsSameSignature | work/filter/filter.go:107-139 | and the other way round |
| Manager.CompileRules | work/filter/rules.go:25-49 | the rules that compile, in order, each with its origin |
| Manager.CompileGroupTypes | work/filter/filter.go:196-204 | the forced types by group key, labels visited in sorted order |
| Manager.LastLabelWins | work/filter/filter.go:201-203 | a key's type is that of the last label visited under it |
| Manager.GroupTypesOrderFree | work/filter/filter.go:196-204 | for labels distinct under the key the order of visits does not show |
| Manager.CompileTiers | work/filter/filter.go:205-215 | the tier patterns that compile, in order |
| Manager.Compile | work/filter/filter.go:166-215 | the compiled filter of a source and its resolved rules |
| Manager.FilterManager.GetOrCreateFilter | work/filter/filter.go:144-221 | the cached filter while its signature fits, else a fresh one that replaces it |
| Manager.FilterManager.ClearFilters | work/filter/filter.go:224-229 | nothing is cached |
| Manager.FilterManager.RemoveFilter | work/filter/filter.go:232-237 | one source's filter is gone, the others stay |
| Manager.CanonicalHasNoBlankLists | work/config/sourcefilters.go:218-314 | a tidied source has no type or tier list of one blank entry |
| Manager.ServedFrom | work/filter/filter.go:144-221 | after any calls what is served is the filter of the source the address was last compiled for, while its signature fits, and a fresh one otherwise |
| Manager.StaleProfile | work/filter/filter.go:117 | with a bar in a profile's name, a source that changes profiles is served the old filter, which drops a stream the new rules keep |
| Pass.JudgeStream | work/filter/filter.go:374-399 | one stream stamped with its type and judged by rules, group, type and patterns in that order |
| Pass.LaterStages | work/filter/filter.go:388-397 | the first later stage that rejects names the verdict |
| Pass.JudgeAll | work/filter/filter.go:374-399 | every stream of the catalog, a stream that occurs twice included |
| Pass.DecideQuality | work/filter/filter.go:401-403 | the quality stage turns the early outcomes into the final verdicts |
| Pass.Tally | work/filter/filter.go:405-418 | every verdict into the report, the kept streams in order |
| Pass.KeepAll | work/filter/filter.go:352-364 | the early return stamps and observes every stream |
| Pass.StampedType | work/filter/filter.go:340-346 | a stamped stream is classified as it was |
| Pass.StampedStages | work/filter/filter.go:340-346 | and every stage answers as before |
| Pass.NoFiltersCompileIdle | work/config/sourcefilters.go:187-196 | a source without filters compiles to one that stops nothing, profiles or not |
| Pass.IdleKeepsAll | work/filter/filter.go:350-367 | running every stage of such a filter gives what the early return gives |
| Pass.Apply | work/filter/filter.go:347-423 | kept streams, stamps, report and cache of a pass, the same for the early return and for every stage |
| PassLaws.KeptExactly | work/filter/filter.go:374-423 | a stream is kept exactly when it passes rules, group, type and patterns and no such stream of its type and base name is in a better tier |
| PassLaws.SelectedInOrder | work/filter/filter.go:405-418 | every kept stream appears at the place its order gives it |
| PassLaws.SelectedFrom | work/filter/filter.go:405-418 | and nothing else appears |
| PassLaws.StageNamesTheFirstRejection | work/filter/report.go:44-58 | for each stage, exactly when a verdict names it |
| PassLaws.RuleNumberWithoutRuleStage | work/filter/report.go:65 | a verdict has a rule number and another stage exactly when a rule lets the stream in and the group stage, type gate, patterns or a better variant stop it |
| PassLaws.RuleNumberOnGroupDrop | work/filter/report.go:65 | a stream with rule number 1 and stage group |
| PassLaws.DroppedForABetterVariant | work/filter/filter.go:457-502 | what the quality stage drops has a better variant that the pass keeps |
| PassLaws.WorseVariantGoes | work/filter/filter.go:438-502 | of two admitted streams of one type whose names without markers differ only in case, spacing and separators at the ends, the one in the worse tier is dropped for quality |
| PassLaws.QualityCounterCounts | work/filter/filter.go:401-403 | the quality counter is the number of quality verdicts |
| PassLaws.ReportAddsUp | work/filter/report.go:69-82 | totals are the lengths of catalog and result and the sums over groups and types; decided counts and default add up; decided at most matched |
| PassLaws.FilteringTwice | work/filter/filter.go:340-423 | filtering a result again keeps all of it, under the same types, and drops nothing for quality |
| PassLaws.SameFilterAgain | work/filter/filter.go:144-221 | the second pass runs with the same filter |
| PassLaws.SecondPass | work/filter/filter.go:340-423 | a second pass over the streams a pass kept returns the same list with the same stamps and drops nothing for quality |
| PassLaws.DeadRuleRemoval | work/filter/rules.go:77-99 | deleting a rule that decided nothing changes no verdict but later rule numbers |
| PassLaws.AlikeSamePass | work/filter/filter.go:347-423 | filters alike on single streams give equal verdicts on every catalog |
| PassLaws.PreviewAgreesWithImport | work/filter/filter.go:323-332 | under any two options only match counts and listed verdicts differ |
| PassLaws.SameGroups | work/filter/report.go:196-201 | two finished reports of the same verdicts list the same groups in the same order |
| ImportPolicy.TypeFollows | work/filter/filter.go:308-321 | the type is the one forced for the group, of several spellings the last in order, else series, vod, live by the source's category patterns, else the importer's by stamp, address, name and group labels |
| ImportPolicy.RulesFollow | work/filter/rules.go:25-99 | the rules let a stream in exactly when the first that compiles and hits the value its field names says include, or none does and the default is not drop |
| ImportPolicy.GroupFollows | work/filter/filter.go:243-255 | listed under any spelling or hit by the pattern that compiles, read by the mode |
| ImportPolicy.LaterFollow | work/filter/filter.go:513-564 | the source's own gate, and for each type its own include pattern, when set and compiling, hit and its own exclude pattern not |
| ImportPolicy.AdmittedIsLetIn | work/filter/filter.go:166-215 | a compiled filter lets in, and as which type, exactly what the settings it was compiled from say |
| ImportPolicy.ResolvedIsInForce | work/config/filterrules.go:193-228 | the rules and origins of the first profile of the name the source gives, then its own; its own default, else the profile's, else keep |
| ImportPolicy.OutranksIsBetter | work/filter/filter.go:205-215 | outranking by compiled tiers is carrying the marker of an earlier tier of the source's own list, or of the four default ones, on the same core of a name |
| ImportPolicy.KeepsWhatStays | work/filter/filter.go:374-423 | a compiled filter keeps exactly the streams that its source's settings let in as a type without a better variant let in as that type |
| ImportPolicy.NumberIsPositionIff | work/filter/rules.go:25-49 | the number of a rule among those that compile is its position in the list exactly when every rule before compiles |
| ImportPolicy.VerdictIsTold | work/filter/filter.go:374-418 | label, type, outcome, stage and rule number of a verdict, all said on the settings |
| ImportPolicy.EveryPassFollowsTheSettings | work/filter/filter.go:347-423 | whatever the cache has seen, a pass gives the verdicts of the settings its filter was compiled from, and of the source's own where reusing it is harmless |
| ImportPolicy.PassKeepsWhatStays | work/filter/filter.go:405-423 | the kept streams are those that stay, in catalog order, and every stream is stamped with the type the settings give it |
| ImportPolicy.NothingToFilterIff | work/config/sourcefilters.go:187-196 | the sources without filters are an address with at most a default other than drop, a list without a mode and tiers without the stage |
| ReportLaws.TotalsAreTold | work/filter/report.go:141-170 | totals, counts per type and the first forty kept names, counted on the verdicts |
| ReportLaws.GroupIsTold | work/filter/report.go:141-185 | a group's first label, counts, first three names and most frequent type, live before vod before series |
| ReportLaws.GroupsAreListed | work/filter/report.go:196-201 | every group once, totals never rising, groups of one size by name |
| ReportLaws.RulesAreTold | work/filter/report.go:84-122 | every rule that compiles with its own words, the number of streams it is the first to match, and with statistics of all it matches; the default's share |
| ReportLaws.FinishedReportTells | work/filter/report.go:69-202 | all of it for the report of a pass, with the number dropped for a better variant and the verdicts when asked for |
| CacheLaws.SameSignatureSameVerdicts | work/filter/filter.go:104-161 | filters with equal signatures give a catalog the same verdicts exactly when no list that differs decides there: no stream without a group reaches the group stage, none of a type that is not blank reaches the gate, none is dropped by the default tiers |
| CacheLaws.ServedIsFresh | work/filter/filter.go:144-221 | after any calls with any sources the filter served gives a catalog the verdicts of one compiled on the spot exactly when it is no reused one or no list that differs decides there |
| CacheLaws.PassIgnoresTheCache | work/filter/filter.go:347-370 | and so does a pass; one over a source without filters always does |
| CacheLaws.StaleSelection | work/filter/filter.go:132 | after "(no group)" is added to an empty list the old filter is served and keeps a stream without a group that a fresh one drops |
| CacheLaws.StaleGate | work/filter/filter.go:134 | the same for an empty type gate and one blank entry, and any stream |
| CacheLaws.StaleTiers | work/filter/filter.go:137 | the same for one blank tier and an empty list, and any stream the default tiers drop |
| RingBuffers.BulkWrite | work/buffer/buffer.go:231-248 | trimming and two copies leave what writing byte by byte would |
| RingBuffers.BulkIsPutAll | work/buffer/buffer.go:231-248 | the fast form refines byte by byte writing for data of any length |
| RingBuffers.PutAllSplits | work/buffer/buffer.go:231-251 | writing in two parts leaves the same storage |
| RingBuffers.PutAllCell | work/buffer/buffer.go:240-248 | cell by cell, what a write of at most one turn leaves |
| RingBuffers.FullTurn | work/buffer/buffer.go:233-238 | a full turn leaves nothing of what was there |
| RingBuffers.PutAllResident | work/buffer/buffer.go:233-251 | after a write the last turn of the history is where its positions say |
| RingBuffers.BulkRead | work/buffer/buffer.go:363-376 | the read in at most two copies |
| RingBuffers.ReadBackIsLast | work/buffer/buffer.go:356-376 | reading back gives the end of the history |
| RingBuffers.ImageIsResident | work/buffer/buffer.go:213-274 | over every run of writes and resets |
| RingBuffers.RunShowsItsHistory | work/buffer/buffer.go:326-377 | after any run what is read back is the end of what was written since the last reset |
| RingBuffers.RestartForgets | work/buffer/buffer.go:257-274 | nothing written before a reset counts after it |
| RingBuffers.SplitWriteSameImage | work/buffer/buffer.go:213-252 | splitting one write of a run changes nothing, not even unreachable cells |
| RingBuffers.RingBuffer.constructor | work/buffer/buffer.go:192-203 | an empty buffer of the given capacity |
| RingBuffers.RingBuffer.Write | work/buffer/buffer.go:213-252 | appends to the history, nothing once destroyed |
| RingBuffers.RingBuffer.Reset | work/buffer/buffer.go:257-274 | empties the history, nothing once destroyed |
| RingBuffers.RingBuffer.Destroy | work/buffer/buffer.go:280-298 | releases the storage and zeroes the position |
| RingBuffers.RingBuffer.IsDestroyed | work/buffer/buffer.go:300-310 | true exactly when the storage is gone, the position being 0 then and the length of the history otherwise |
| RingBuffers.RingBuffer.GetWritePosition | work/buffer/buffer.go:317-324 | the length of the history, 0 once destroyed |
| RingBuffers.RingBuffer.PeekRecentData | work/buffer/buffer.go:338-377 | the last bytes of the history, as many as asked for, written and still held; none exactly when destroyed or empty |
| RingProtocol.StepKeepsSafe | work/buffer/buffer.go:213-298 | every step of every call keeps lock, release and contents in order |
| RingProtocol.EveryRunIsSafe | work/buffer/buffer.go:213-377 | in every interleaving of any calls by any number of threads |
| RingProtocol.EveryRunGuarantees | work/buffer/buffer.go:213-377 | no thread past its second check touches a released array, one release at most, position 0 after it, every completed peek the end of the bytes written as of its section, nothing only when there were none or when it left a destroyed buffer early |
| RingProtocol.DestroyedForGood | work/buffer/buffer.go:276-285 | the flag is never cleared |
| RingProtocol.TurnedAway | work/buffer/buffer.go:213-285 | a call begun after the flag is set changes nothing but its thread's place, and a peek ends with nothing |
| RingProtocol.CallAfterDestroy | work/buffer/buffer.go:213-377 | in every interleaving such a call gets no further |
| RingProtocol.SomeoneCanMove | work/buffer/buffer.go:213-298 | no interleaving is stuck |
| RingWatch.EveryRunDoesWhatWasCalled | work/buffer/buffer.go:213-377 | in every interleaving, with no exclusive section open the history is what the finished writes were called with since the last finished reset; every finished call did its part: a write put in, a reset emptied, a destroy destroyed, a peek answered the end of what had been put in when it took the lock, or a destroyed buffer was found |
| RingWatch.WholeWrite | work/buffer/buffer.go:213-252 | a write that nothing hinders ends with its bytes behind what was there |
| RingWatch.WholeReset | work/buffer/buffer.go:257-274 | a reset that nothing hinders ends with nothing |
| RingWatch.PeekAfterWrite | work/buffer/buffer.go:213-377 | a peek after a write answers the end of the old bytes and the new ones |
| RingWatch.PeekAfterReset | work/buffer/buffer.go:257-377 | a peek after a reset answers nothing |
| RingWatch.WholeDestroy | work/buffer/buffer.go:280-298 | a destroy that nothing hinders releases the array once and zeroes the position |
| Profiles.RowAt | work/db/filterprofiles.go:44-50 | the row of that id, none exactly when there is none |
| Profiles.Admin.ReloadConfig | work/admin/filterprofiles.go:63-69 | the tables are live and no compiled filter is left |
| Profiles.Admin.SourcesUsingProfile | work/admin/filterprofiles.go:36-47 | empty exactly when no configured source names the profile |
| Profiles.Admin.InsertFilterProfile | work/db/filterprofiles.go:54-64 | a new row with the next id, or nothing when the name is taken |
| Profiles.Admin.UpdateFilterProfile | work/db/filterprofiles.go:70-93 | the row and, on a rename, the sources that named it; or nothing |
| Profiles.Admin.DeleteFilterProfile | work/db/filterprofiles.go:97-118 | the row is gone and the sources that named it are detached |
| Profiles.Admin.HandleCreate | work/admin/filterprofiles.go:99-129 | created and live, or refused with nothing changed |
| Profiles.Admin.HandleUpdate | work/admin/filterprofiles.go:133-177 | replaced and live, or refused with nothing changed |
| Profiles.Admin.HandleDelete | work/admin/filterprofiles.go:182-217 | deleted and live, refused while in use unless forced |
| Profiles.Admin.AcceptSources | work/admin/config.go:188-201 | every posted source tidied, or let through when the refused run leaves what is stored, or the whole save refused |
| Profiles.Admin.SyncSources | work/config/config.go:524-575 | the stored sources are deleted and written row by row, as far as the statements succeed |
| Profiles.Admin.HandleSave | work/admin/config.go:183-247 | saved and live when every source is accepted, names an existing profile or none, and every row is written; half written and not live when a row fails |
| ProfileLaws.EveryRunIsIntact | work/admin/filterprofiles.go:99-217 | over every run of requests from any state in order, saves that fail half way included, names are unique and every source, stored or live, names no profile or an existing one; without such a save what is live stays what is stored |
| ProfileLaws.LoadedIsIntact | work/admin/filterprofiles.go:61-69 | a configuration loaded from tables in order, empty ones among them, is such a state |
| ProfileLaws.CreateKeepsIntact | work/admin/filterprofiles.go:99-129 | creating keeps that |
| ProfileLaws.UpdateKeepsIntact | work/admin/filterprofiles.go:133-177 | updating and renaming keep it |
| ProfileLaws.DeleteKeepsIntact | work/admin/filterprofiles.go:182-217 | deleting keeps it, forced or not |
| ProfileLaws.SaveKeepsIntact | work/admin/config.go:183-247 | saving keeps it, and exactly when a failed save leaves the live sources other than the stored ones |
| ProfileLaws.FailedSaveLosesSources | work/config/config.go:524-575 | a save whose first row fails has deleted every stored source, and the next created profile takes that live |
| ProfileLaws.CreatingChangesNoFilters | work/admin/filterprofiles.go:99-129 | a new profile changes no source's rules or default |
| ProfileLaws.UpdatingReachesAttachedSources | work/db/filterprofiles.go:66-93 | attached sources follow to the name the payload gives and are filtered by what its rules and default say, then by their own; all others stay as they were |
| ProfileLaws.RenamingChangesNoFilters | work/admin/filterprofiles.go:131-177 | a payload that says what the row says under another name changes no source's rules or default |
| ProfileLaws.DeletingDetaches | work/admin/filterprofiles.go:179-217 | a forced delete leaves attached sources exactly their own rules; an unforced one finds none attached; the rest stay |
| ProfileLaws.RefusedChangesNothing | work/admin/filterprofiles.go:99-217 | a refused request changes nothing |
| ProfileLaws.UnchangedSourceLetThrough | work/admin/config.go:183-201 | a source posted back with the filters that are stored, tidied or not, is accepted exactly when they can be honoured or every field the refused run reaches is tidy already |
| ProfileLaws.UntidyLabelRefused | work/admin/config.go:183-201 | with a pattern that does not compile, a tidy stored source gets through and one with an untrimmed label does not |
| ProfileLaws.BadDefaultRefused | work/admin/config.go:183-201 | a source stored with an unknown default cannot be saved |
| ProfileLaws.PayloadTidied | work/config/filterrules.go:150-166 | a payload is taken exactly when it has a name, a known default and no rule at fault; what is stored says what it said, and a tidy payload is stored as it is |
| RequestLaws.LoadedByName | work/db/filterprofiles.go:19-42 | the live profiles are the stored rows in the order of their names |
| RequestLaws.CreatingStoresThePayload | work/admin/filterprofiles.go:99-129 | created exactly when the payload can be stored and the name is free; one row more is live, with the next id, saying what the payload said |
| RequestLaws.UpdatingStoresThePayload | work/admin/filterprofiles.go:133-177 | updated exactly when it can be stored, the row exists and no other has the name; that row alone is another, saying what the payload said |
| RequestLaws.DeletingRemovesTheRow | work/admin/filterprofiles.go:182-217 | deleted exactly when the row exists and no live source names it or the request insists; that row alone is gone and the sources that named it name none |
| RequestLaws.StoredIsTheOneMeant | work/admin/sources.go:36-43 | the stored source of a payload is the first of its name and address, else the first of its address |
| RequestLaws.FiltersEqualIsSame | work/config/sourcefilters.go:341-364 | equal filters are equal in every setting but name and address |
| RequestLaws.SavingStoresTheSources | work/admin/config.go:183-247 | refused exactly when a source can neither be honoured nor is left as the stored one stands, or one names a profile there is not; else each goes in as it was meant, as far as the rows are written |
| DeadStreams.KeyTextInjective | work/db/overrides.go:18-22 | no two streams share a snapshot key as long as no channel name holds the separator |
| DeadStreams.SeparatorInNameCollides | work/db/overrides.go:18-22 | with the separator in a name two can |
| DeadStreams.MirrorSet | work/deadstreams/deadstreams.go:47-69 | one entry set in table and snapshot keeps them equal |
| DeadStreams.MirrorRemove | work/deadstreams/deadstreams.go:47-69 | one entry removed from both keeps them equal |
| DeadStreams.MirrorInjective | work/db/overrides.go:24-47 | a snapshot mirrors one table only |
| DeadStreams.Overrides.GetAllStreamOverrides | work/db/overrides.go:26-47 | every row of the table under its key |
| DeadStreams.Overrides.Load | work/deadstreams/deadstreams.go:26-45 | the snapshot, loaded on first use, empty and not kept when that fails |
| DeadStreams.Overrides.ReplaceOverride | work/deadstreams/deadstreams.go:49-69 | a complete copy with one entry set or removed |
| DeadStreams.Overrides.IsStreamDead | work/deadstreams/deadstreams.go:73-79 | whether the entry seen is dead, by hand or automatically |
| DeadStreams.Overrides.GetDeadStreamReason | work/deadstreams/deadstreams.go:82-84 | the reason of the entry seen, empty for none |
| DeadStreams.Overrides.SetStreamDead | work/db/overrides.go:69-81 | status and reason upserted, a custom order kept |
| DeadStreams.Overrides.SetStreamAlive | work/db/overrides.go:83-103 | a plain row deleted, another cleared, in two statements that can fail apart |
| DeadStreams.Overrides.MarkStreamDeadByHash | work/deadstreams/deadstreams.go:88-106 | table and snapshot after a mark, under any failures |
| DeadStreams.Overrides.ReviveStream | work/deadstreams/deadstreams.go:109-128 | table and snapshot after a revival, under any failures |
| DeadStreams.AgreementExactly | work/deadstreams/deadstreams.go:26-128 | for every operation and every failure, exactly when snapshot and table still agree |
| DeadStreams.BlindMarkForgets | work/deadstreams/deadstreams.go:88-106 | a mark while no load works publishes a snapshot that has lost another dead stream |
| DeadStreams.BlindMarkLosesOrder | work/deadstreams/deadstreams.go:97-104 | a mark after a failed first load publishes a custom order as none |
| DeadStreams.HalfRevivalLeftBehind | work/db/overrides.go:83-103 | a revival whose second statement fails: alive in the table, dead in the snapshot |
| DeadStreams.AnswersExactly | work/deadstreams/deadstreams.go:71-84 | a check answers as the table exactly when a snapshot is there, its load works, or there is nothing to tell |
| DeadStreams.EveryRunAgrees | work/deadstreams/deadstreams.go:23-128 | after any harmless run snapshot and table agree, and a check answers, reason included, as the table does under exactly that condition, its own load working or failing |
| DeadStreams.FaultlessRunsAgree | work/deadstreams/deadstreams.go:23-128 | from any table, after any run without failures |
| DeadStreams.ReviveUndoesMark | work/db/overrides.go:68-103 | a revival after a mark leaves the stream alive, its order as before and every other row untouched |
| DeadLaws.LastWriteDecides | work/db/overrides.go:68-103 | after any calls and failures a stream's row is what the last call that changed it left, manual or automatic by the reason, with the custom order it had at the start |
| DeadLaws.ChecksTellTheLastWrite | work/deadstreams/deadstreams.go:71-128 | after any harmless run a check with a snapshot or a working load says dead exactly when that row does, and tells its reason |
| DeadStreamsProtocol.StepKeepsSound | work/deadstreams/deadstreams.go:26-128 | every step keeps the lock, what each thread carries and the snapshot's faithfulness |
| DeadStreamsProtocol.EveryRunIsSound | work/deadstreams/deadstreams.go:26-128 | in every interleaving without overlap on one stream |
| DeadStreamsProtocol.InterleavedRunsAgree | work/deadstreams/deadstreams.go:26-128 | the snapshot is the table when nothing is in flight, and right for every stream that is not in flight, first loads included; custom orders never change |
| DeadStreamsProtocol.ViewTakenDuring | work/deadstreams/deadstreams.go:26-45 | the view behind a check's answer was taken at a state of the run, during the call |
| DeadStreamsProtocol.ChecksAnswerAsTheTable | work/deadstreams/deadstreams.go:71-84 | a check answers with the row the table held at a moment of the call, or with the row from before a write of that stream in flight at that moment |
| DeadStreamsProtocol.SettledWasTable | work/deadstreams/deadstreams.go:26-128 | the row from before is the one the table held at the last moment of the run at which nothing was in flight on the stream |
| DeadStreamsProtocol.InterleavedChecksAnswer | work/deadstreams/deadstreams.go:26-128 | in every interleaving from any table, first loads included, every check answers with the table's row at a moment of the call, or, with a write of that stream in flight then, with the row of the last moment before it |
| DeadStreamsProtocol.RunKeepsOrders | work/db/overrides.go:68-103 | no run loses or invents a custom order, overlapping or not |
| DeadStreamsProtocol.SomeoneCanMove | work/deadstreams/deadstreams.go:26-69 | no interleaving is stuck |
| DeadStreamsProtocol.OverlapDisagrees | work/deadstreams/deadstreams.go:88-128 | a run with a mark and a revival of one stream in flight that ends dead in the snapshot and alive in the table |
| DeadWatch.EveryRunDoesWhatWasCalled | work/deadstreams/deadstreams.go:86-128 | in every interleaving without overlap on one stream, a stream with no mark or revival in progress has the row the finished ones left in the order they ended, in the table and in the snapshot |
| DeadWatch.AloneEnds | work/deadstreams/deadstreams.go:26-128 | a call left alone with the lock free is over after fourteen moves at most |
| DeadWatch.WholeCall | work/deadstreams/deadstreams.go:86-128 | whatever ran before, a mark or revival that then runs alone ends with the row it was to leave |
| ProgrammeGuide.SortByStart | work/epgindex/epgindex.go:100-103 | a permutation in start order, ties in any order |
| ProgrammeGuide.ProgrammeBuilder.Add | work/epgindex/epgindex.go:57-90 | a complete entry joins its channel, any other changes nothing |
| ProgrammeGuide.ProgrammeBuilder.Commit | work/epgindex/epgindex.go:94-110 | everything collected is published per channel in start order and collecting starts over |
| ProgrammeGuide.AcceptingConserves | work/epgindex/epgindex.go:87-89 | an accepted entry is pending and nowhere else |
| ProgrammeGuide.CommittingConserves | work/epgindex/epgindex.go:92-107 | a commit moves every pending entry into one batch |
| ProgrammeGuide.Guide.Programmes | work/epgindex/epgindex.go:181-197 | the first entries, limit many or all, that do not stop before the time |
| ProgrammeGuide.Guide.NowTitle | work/epgindex/epgindex.go:201-209 | the title of what is on and began first, empty when nothing is on |
| ProgrammeGuide.WindowIsEarliest | work/epgindex/epgindex.go:178-197 | a window is in start order and leaves out a current entry only when full of entries that start no later |
| ProgrammeGuide.OnNowIsFound | work/epgindex/epgindex.go:199-209 | the first unexpired entry is on exactly when anything is, overlaps included |
| ProgrammeGuide.OutOfOrderHides | work/epgindex/epgindex.go:92-103 | without start order it would not be |
| ProgrammeGuide.CommittedIsListed | work/epgindex/epgindex.go:92-107 | every current entry of a batch is in the unlimited window as often as it was accepted |
| GuideLaws.GatheredIsTold | work/epgindex/epgindex.go:55-90 | an entry is held as often as a fragment names its channel, both times, title and description |
| GuideLaws.TitleAfterRefresh | work/epgindex/epgindex.go:55-209 | after adding any fragments and publishing, the title answered is that of a fragment of the channel on air that began first, empty when none is |
| PreviewPages.PagePreviewVerdicts | work/admin/previewlist.go:41-94 | counts, totals and rows of the page asked for, or the overflow an empty list allows |
| PreviewPages.Clamp | work/admin/previewlist.go:73-83 | size within 1 to 1000, page at least 1 and at most the last when there is one |
| PreviewPages.Cut | work/admin/previewlist.go:85-92 | the rows of the page in machine arithmetic |
| PreviewPages.LastPageHoldsTheLastRow | work/admin/previewlist.go:81 | the last page is the one the last row is on |
| PreviewPages.PagesPartition | work/admin/previewlist.go:38-94 | pages 1 to the last, one after the other, are the matching verdicts in order |
| PreviewPages.PagesNeverStrand | work/admin/previewlist.go:38-40 | whatever page is asked for, a list with rows answers with rows, full ones before the last page |
| PreviewPages.TotalIsCounted | work/admin/previewlist.go:26-36 | the total is the kept, the dropped or both |
| PreviewPages.CountsIgnoreTheVerdict | work/admin/previewlist.go:26-28 | kept and dropped count the search, whichever verdict is listed |
| PreviewPages.EmptySearchAnswers | work/admin/previewlist.go:77-93 | an empty list answers under the requested page number as long as the start fits |
| PreviewPages.EmptySearchOverflows | work/admin/previewlist.go:85 | and there are requests for which it does not fit |
| PageLaws.ChosenIsMeant | work/admin/previewlist.go:41-72 | a verdict is found by its type and by the text in its name or its group, in any case, and listed by its outcome |
| PageLaws.PageShows | work/admin/previewlist.go:41-94 | size, number and counts of a page, and which verdict stands in which row |

## Left out

- Regular expressions: syntax, compilation and matching are uninterpreted; that a leftmost match lies within its subject is assumed of the library.
- Integer width: the counters of a report and the ring buffer's write position are unbounded; only the preview pager is modelled in 64-bit arithmetic.
- Bytes and characters: lengths and spans of names and patterns count characters, where the code counts bytes.
- The database: SQL text, encodings and the order in which sources are read back. Each transaction is one step that succeeds or does nothing; a revival's two statements and the rows of a save, which are no transaction, can fail apart.
- Normalize.SourceConfig.NormalizeFilters: the error says which check failed and where, not the message shown to the operator.
- CacheLaws.SameSignatureSameVerdicts: needs values without the signature's separators, and profile names without a bar.
- CacheLaws.ServedIsFresh: asks this of the source and of the one whose filter is reused, and nothing of any other call.
- ImportPolicy.KeepsWhatStays: needs forced types without a NUL character, as PassLaws.KeptExactly does.
- DeadWatch.EveryRunDoesWhatWasCalled: needs runs without overlap on one stream, as DeadStreamsProtocol.InterleavedRunsAgree does.
- PassLaws.KeptExactly: needs forced types without a NUL character, which tidied sources always have; so does PassLaws.RuleNumberWithoutRuleStage.
- RingProtocol.EveryRunIsSafe: a buffer of no capacity is not part of the interleaved model, since its first write divides by zero; the lock-free reads of flag and position by IsDestroyed and GetWritePosition are not steps of it.
- DeadStreamsProtocol.InterleavedRunsAgree: goes one way; overlapping operations on one stream can also end well, which depends on the schedule. Database calls succeed in this model; failing ones are in DeadStreams, one call at a time.
- ProfileLaws.EveryRunIsIntact: requests are handled one at a time. What creating, updating and deleting mean for the sources is stated where live and stored sources agree; after a save that failed half way they may not.
- Rule notes are not part of a signature, so a cached filter can report old notes; decisions are what is compared.
- ProgrammeGuide starts from parsed entries: the guide's regular expressions, time formats and entity decoding are not modelled. A second builder committing at the same time is not modelled.
- Profiles.Admin.HandleSave: settings other than sources, masked passwords, rate limiters, the pruning of per-source data and the import triggered by a save are not modelled; a failure of the pruning is a save that failed after its last row.
- HTTP, authentication, logging, metrics, the disk caches, the playlist parser, restreaming, the watcher, buffer pools, account and guide administration: plumbing that would add only easy members.
