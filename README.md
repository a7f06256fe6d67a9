# FiftyFifty ToolKit — a verified model of the front end's logic

The ToolKit is a bilingual (English / Arabic) Next.js site. It presents a campaign-training
curriculum of phases, their modules and the modules' downloadable resources, all fetched from a
Strapi CMS. This project models, in Dafny, the parts of the front end that compute something rather
than draw it:

- the keyword classifier and the topic-filter selection (`useFilter`);
- the resource library pipeline: flatten, sort, filter, search, group and count (`useResourceLibrary`);
- the progress tracker and its `localStorage` round trip (`ProgressContext`);
- the cookie-consent store (`lib/consent.ts`);
- the search front half: searchable items and the query gate (`useSearch`);
- the revalidation webhook and its path planner (`app/api/revalidate/route.ts`);
- the CMS client without its network layer: query strings, offline normalisation, lookups,
  `getMediaUrl` (`lib/cms-client.ts`);
- the sitemap (`app/sitemap.ts`);
- the small string and URL functions of the components:
  - result highlighting, `escapeRegExp` and result links;
  - YouTube / Vimeo id extraction and embed URLs;
  - the language switch;
  - `truncate`;
  - HTML-stripping previews;
  - JSON-LD objects.

Each source file is one Dafny module. Shared pieces live in their own modules:

- `Wrappers`: `Option`, `Result`.
- `Strings`: ASCII lower case, substring search, integer printing and `parseInt`.
- `Seqs`: filter, map, subsequence.
- `CmsTypes`: the records of `lib/types/cms.ts`.
- `BrowserStorage`: `localStorage` as a class over a `map`.
- `SearchParams`: the `key=value&…` serialisation of `URLSearchParams`.
- `UrlPatterns`: the `(?:a|b)(c+)` regular expressions of the video modal.

How the source's constructs are modelled:

- Stateful objects are classes whose methods are proved against specification functions:
  - the progress provider;
  - the filter selection;
  - the resource-library state;
  - the search state;
  - the video modal's embed URL;
  - the storage.
- Loops in the source are methods with loop invariants, proved equal to the functions they
  compute:
  - `allResources`;
  - grouping;
  - the file-type counts;
  - `getCategoryCount`;
  - the sitemap's module routes;
  - `buildQueryString`;
  - the revalidation loops.
- The clock, the presence of `window`, the environment variables, fetch outcomes, sample data and
  the Fuse.js matcher are parameters.

## Model

| member | source | states |
|---|---|---|
| I18n.ParseLocale | i18n.ts:26-28 | a string parses to a locale exactly when `isValidLocale` accepts it, and the locale's code is that string |
| I18n.Opposite | i18n.ts:33-35 | the opposite locale always differs from the current one |
| I18n.ValidLocalesAreExactlyEnAr | i18n.ts:8 | `isValidLocale` holds for `en` and `ar` and nothing else |
| I18n.OppositeIsInvolution | i18n.ts:33-35 | switching locale twice returns the original locale |
| I18n.CodesRoundTrip | i18n.ts:8-9 | every locale's code is valid and parses back to the same locale |
| I18n.TablesCoverBothLocales | i18n.ts:11-21 | the default locale is valid; English is left-to-right, Arabic right-to-left; the two display names differ |
| TopicFilter.TagsMembership | lib/hooks/useFilter.ts:44-57 | a tag is emitted exactly when some rule whose keywords occur in the text carries it |
| TopicFilter.TagsInRuleOrder | lib/hooks/useFilter.ts:46-57 | emitted tags are a subsequence of the rules' tags in rule order |
| TopicFilter.RuleOrderIsAllTags | lib/hooks/useFilter.ts:46-57 | the rule table lists strategy, planning, messaging, communication, team_building, leadership once each |
| TopicFilter.TagsOfRules | lib/hooks/useFilter.ts:46-57 | the tags are determined by which of the four keyword rules match |
| TopicFilter.TagListMembers | lib/hooks/useFilter.ts:46-57 | each tag is present exactly when its rule matches; `all` is never a tag; no match gives no tags |
| TopicFilter.CategorizeText | lib/hooks/useFilter.ts:42-60 | the classifier never returns an empty list |
| TopicFilter.CategorizeTextShape | lib/hooks/useFilter.ts:42-60 | the result has no duplicates, never contains `all`, and follows rule order |
| TopicFilter.CategorizeTextMembers | lib/hooks/useFilter.ts:42-60 | each tag is present exactly when its rule matches, except that strategy is also the fallback; the result is `[strategy]` exactly when no rule matches |
| TopicFilter.CategorizeIgnoresCase | lib/hooks/useFilter.ts:43-44 | classification of title and body is unchanged by lower-casing them (phases use the description, modules the summary, lines 62-80) |
| TopicFilter.ToggledWellFormed | lib/hooks/useFilter.ts:130-155 | toggling keeps the selection non-empty, duplicate-free, and either exactly `[all]` or free of `all` |
| TopicFilter.ToggledReplaces | lib/hooks/useFilter.ts:130-141 | toggling `all`, toggling while `all` is selected, or toggling in single-select mode yields `[category]` |
| TopicFilter.ToggledFlips | lib/hooks/useFilter.ts:142-152 | in multi-select mode toggling flips only that category, and removing the last one restores `[all]` |
| TopicFilter.ToggleTwiceRestores | lib/hooks/useFilter.ts:142-152 | adding an unselected category and then toggling it again restores the previous selection |
| TopicFilter.FilterState.constructor | lib/hooks/useFilter.ts:95 | the selection starts as `[all]` and is well formed |
| TopicFilter.FilterState.ToggleCategory | lib/hooks/useFilter.ts:130-155 | the new selection is the toggle of the old one, and the selection invariant is kept |
| TopicFilter.FilterState.ClearFilters | lib/hooks/useFilter.ts:158-160 | the selection becomes `[all]` |
| TopicFilter.FilterState.HasActiveFilters | lib/hooks/useFilter.ts:202 | filters are active exactly when the selection is not `[all]`, that is, exactly when `all` is not selected |
| TopicFilter.FilteredPhasesAll | lib/hooks/useFilter.ts:98-101 | with `all` selected the phases come back unchanged |
| TopicFilter.FilteredPhasesSpec | lib/hooks/useFilter.ts:102-127 | a phase is kept exactly when its tags meet the selection; kept phases keep their order and all fields but their module list |
| TopicFilter.TrimModulesSpec | lib/hooks/useFilter.ts:106-126 | a kept phase's modules are exactly those whose tags meet the selection, in their original order; other fields are unchanged |
| TopicFilter.GetCategoryCount | lib/hooks/useFilter.ts:169-193 | the nested counting loops compute: the number of phases for `all`, else the tagged phases plus the tagged modules |
| TopicFilter.CountTaggedModules | lib/hooks/useFilter.ts:181-188 | the inner loop counts exactly the modules carrying the category |
| TopicFilter.CountStep | lib/hooks/useFilter.ts:176-190 | each phase adds one if it carries the category, plus its tagged modules |
| TopicFilter.CountCoversShownPhases | lib/hooks/useFilter.ts:98-127 | selecting one category shows no more phases than its count |
| ResourceLibrary.CollectedContains | lib/hooks/useResourceLibrary.ts:44-64 | every resource of every module of every phase appears, annotated with its module's and phase's title and slug |
| ResourceLibrary.AllResourcesSpec | lib/hooks/useResourceLibrary.ts:44-73 | `allResources` is a permutation of the flattened list, ordered by phase number then order (missing counts as 0), and stable among equal keys |
| ResourceLibrary.CollectAllResources | lib/hooks/useResourceLibrary.ts:44-73 | the three nested push loops followed by the sort compute `allResources` |
| ResourceLibrary.PushPhaseResources | lib/hooks/useResourceLibrary.ts:47-64 | one phase's loops append exactly that phase's annotated resources |
| ResourceLibrary.FilterByTypeSpec | lib/hooks/useResourceLibrary.ts:76-83 | `all` is the identity; any other type keeps exactly the resources of that type, in order |
| ResourceLibrary.FilterBySearchSpec | lib/hooks/useResourceLibrary.ts:86-105 | a query shorter than 2 filters nothing; otherwise exactly the resources whose title, description, module title or phase title contains the lower-cased query are kept, in order |
| ResourceLibrary.SearchIgnoresCase | lib/hooks/useResourceLibrary.ts:89-95 | the search gives the same result for a query and its lower-cased form |
| ResourceLibrary.OneCharacterQueryShowsEverything | lib/hooks/useResourceLibrary.ts:86-88 | a one-character query filters nothing |
| ResourceLibrary.DistinctKeysSpec | lib/hooks/useResourceLibrary.ts:108-130 | the group keys are duplicate-free and are exactly the keys that occur |
| ResourceLibrary.GroupedSpec | lib/hooks/useResourceLibrary.ts:108-143 | groups have distinct keys and are non-empty; a group holds exactly the resources with its key, in order; its label comes from its first member; every resource lands in its group |
| ResourceLibrary.GroupedPermutes | lib/hooks/useResourceLibrary.ts:108-143 | concatenating the groups gives a permutation of the filtered resources |
| ResourceLibrary.GroupResources | lib/hooks/useResourceLibrary.ts:108-143 | the Map-building loop yields the groups in first-occurrence order |
| ResourceLibrary.ComputeFileTypeCounts | lib/hooks/useResourceLibrary.ts:146-163 | the counting loop yields `all` = total and one count per file type |
| ResourceLibrary.CountsAddUp | lib/hooks/useResourceLibrary.ts:146-163 | when every file type is a known one, the per-type counts add up to `all`, which is the total |
| ResourceLibrary.CountMatchesTypeFilter | lib/hooks/useResourceLibrary.ts:76-83 | each per-type count is the size of that type's filtered list |
| ResourceLibrary.ResourceLibraryState.constructor | lib/hooks/useResourceLibrary.ts:35-41 | the state starts with the given type filter (default `all`) and query (default empty), grouped by phase; with both defaults no filter is active |
| ResourceLibrary.ResourceLibraryState.FilteredResources | lib/hooks/useResourceLibrary.ts:86-105 | the filtered list is an order-preserving subsequence of `allResources` |
| ResourceLibrary.ResourceLibraryState.GroupedResources | lib/hooks/useResourceLibrary.ts:108-143 | the groups together are a permutation of the filtered list |
| ResourceLibrary.ResourceLibraryState.Counts | lib/hooks/useResourceLibrary.ts:146-163 | counts are taken over all resources, whatever the filters: each of PDF, Excel, Word and Other equals the size of the type filter's result for that type, and `all` is at least the total |
| ResourceLibrary.ResourceLibraryState.FilteredCount | lib/hooks/useResourceLibrary.ts:195-196 | the filtered count never exceeds the total count |
| ResourceLibrary.ResourceLibraryState.HasFilters | lib/hooks/useResourceLibrary.ts:197 | without active filters the filtered list is the whole library |
| ResourceLibrary.ResourceLibraryState.HandleFileTypeChange | lib/hooks/useResourceLibrary.ts:166-168 | only the type filter changes; the counts stay the same |
| ResourceLibrary.ResourceLibraryState.HandleSearchChange | lib/hooks/useResourceLibrary.ts:170-172 | only the query changes; the counts stay the same |
| ResourceLibrary.ResourceLibraryState.HandleGroupByChange | lib/hooks/useResourceLibrary.ts:174-176 | only the grouping changes; the counts stay the same |
| ResourceLibrary.ResourceLibraryState.ClearFilters | lib/hooks/useResourceLibrary.ts:178-181 | type becomes `all` and the query empty, grouping is kept, the counts stay the same, and the filtered list is the whole library |
| ResourceSort.InsertMultiset | lib/hooks/useResourceLibrary.ts:67-72 | inserting adds exactly the one element |
| ResourceSort.InsertSorted | lib/hooks/useResourceLibrary.ts:67-72 | inserting into a sorted list keeps it sorted |
| ResourceSort.SortPermutes | lib/hooks/useResourceLibrary.ts:67-72 | the sort is a permutation |
| ResourceSort.SortSorts | lib/hooks/useResourceLibrary.ts:67-72 | the result is ordered by phase number, then by order |
| ResourceSort.InsertStable | lib/hooks/useResourceLibrary.ts:67-72 | insertion places an element after every element with the same key |
| ResourceSort.SortStable | lib/hooks/useResourceLibrary.ts:67-72 | elements with equal keys keep their relative order (`Array.prototype.sort` is stable) |
| ResourceSort.SortKeepsSorted | lib/hooks/useResourceLibrary.ts:67-72 | an already sorted list is left unchanged |
| Progress.EncodeIds | lib/contexts/ProgressContext.tsx:55 | the stored text is a bracketed JSON array |
| Progress.ParseNumber | lib/contexts/ProgressContext.tsx:39 | a parsed number consumes a non-empty prefix of the input |
| Progress.ParseNumberOfIntToString | lib/contexts/ProgressContext.tsx:39 | a printed integer followed by a comma or the end parses back to itself |
| Progress.DecodeEncodeElements | lib/contexts/ProgressContext.tsx:38-56 | the comma-separated elements of a non-empty list parse back to the list |
| Progress.DecodeEncodeIds | lib/contexts/ProgressContext.tsx:38-56 | `JSON.parse(JSON.stringify(ids))` gives back `ids` |
| Progress.WithCompletedSpec | lib/contexts/ProgressContext.tsx:65-70 | marking complete adds the id once, at the end, only if absent; nothing else changes; doing it twice equals once; no duplicates appear |
| Progress.WithoutCompletedSpec | lib/contexts/ProgressContext.tsx:75-77 | marking incomplete removes every occurrence of the id and keeps the others in order |
| Progress.CompleteThenIncomplete | lib/contexts/ProgressContext.tsx:65-77 | completing a new id then un-completing it restores the list |
| Progress.CompletionPercentageRounds | lib/contexts/ProgressContext.tsx:90-96 | for a positive total the percentage is 100·count/total rounded half up |
| Progress.CompletionPercentageBounds | lib/contexts/ProgressContext.tsx:90-96 | the percentage is between 0 and 100 when count ≤ total, and 100 when all are complete |
| Progress.CompletionPercentageExamples | lib/contexts/ProgressContext.tsx:90-96 | 2 of 10 is 20, 1 of 3 is 33, anything of 0 is 0 |
| Progress.RestoredAfterSave | lib/contexts/ProgressContext.tsx:38-56 | loading what was saved restores the saved list |
| Progress.RestoredIgnoresInvalid | lib/contexts/ProgressContext.tsx:36-49 | an absent or unparsable stored value leaves the list as it was |
| Progress.ProgressProvider.constructor | lib/contexts/ProgressContext.tsx:32-33 | the provider starts with no completed modules and not hydrated |
| Progress.ProgressProvider.LoadFromStorage | lib/contexts/ProgressContext.tsx:36-49 | the list becomes the stored array when it parses, and the provider is hydrated |
| Progress.ProgressProvider.SaveToStorage | lib/contexts/ProgressContext.tsx:52-60 | nothing is written before hydration; after it the list is written as JSON under the key, and reading it back gives the list |
| Progress.ProgressProvider.MarkModuleComplete | lib/contexts/ProgressContext.tsx:65-70 | the list becomes the marked-complete list: the module is then complete and every other module keeps its state |
| Progress.ProgressProvider.GetCompletionPercentage | lib/contexts/ProgressContext.tsx:90-99 | 0 without modules; between 0 and 100 while no more modules are complete than exist |
| Progress.ProgressProvider.MarkModuleIncomplete | lib/contexts/ProgressContext.tsx:75-77 | the list becomes the marked-incomplete list: the module is then not complete and every other module keeps its state |
| Progress.ProgressProvider.ResetProgress | lib/contexts/ProgressContext.tsx:106-113 | the list is emptied and the `fiftyfifty_progress` key, and only it, is removed |
| BrowserStorage.LocalStorage.constructor | lib/consent.ts:36-37 | storage starts empty |
| BrowserStorage.LocalStorage.GetItem | lib/consent.ts:36-37 | `getItem` is null exactly for an absent key and otherwise the stored value |
| BrowserStorage.LocalStorage.SetItem | lib/consent.ts:70-71 | `setItem` sets that key and no other |
| BrowserStorage.LocalStorage.RemoveItem | lib/consent.ts:93-94 | `removeItem` removes that key and no other |
| Consent.ReadConsent | lib/consent.ts:23-60 | consent is read only with a window, both keys present and now < timestamp + 365 days; the stored status is returned unvalidated, and analytics is on exactly when it is `accepted` |
| Consent.GetConsent | lib/consent.ts:32-60 | returns the read consent; expired consent has both keys removed; nothing else changes |
| Consent.SetConsent | lib/consent.ts:65-84 | with a window, writes the status and `now` under the two keys and emits an event whose analytics flag is "status is accepted"; without one, does nothing |
| Consent.ClearConsent | lib/consent.ts:89-98 | removes exactly the two consent keys, and nothing without a window |
| Consent.IsAnalyticsEnabled | lib/consent.ts:103-106 | analytics is enabled exactly when valid consent says `accepted`; storage changes only by the expiry cleanup of the read |
| Consent.ShouldShowConsentBanner | lib/consent.ts:111-113 | the banner shows exactly when there is no valid consent; storage changes only by the expiry cleanup of the read |
| Consent.ReadAfterSet | lib/consent.ts:65-84 | reading within a year of setting gives back what was set |
| Consent.ExpiresAfterAYear | lib/consent.ts:23-27 | at or after timestamp + 365 days the consent is expired, including at the exact instant |
| Consent.NoWindowNoConsent | lib/consent.ts:33 | without a window there is no consent |
| Consent.AnalyticsOnlyWhenAccepted | lib/consent.ts:48-55 | analytics enabled implies the stored status is `accepted` |
| Consent.ExpiryBoundary | lib/consent.ts:10-27 | the expiry is 365 × 24 × 60 × 60 × 1000 ms: a consent set at `now` still reads one millisecond before that has passed and no longer reads when it has |
| Strings.ParseIntOfIntToString | lib/consent.ts:42 | `parseInt` reads a printed timestamp back exactly |
| Search.SearchableDataSize | lib/hooks/useSearch.ts:48-78 | there is one item per phase plus one per module |
| Search.SearchableDataItems | lib/hooks/useSearch.ts:52-73 | every item is a phase item or a module item carrying its phase's slug and title |
| Search.BuildSearchableData | lib/hooks/useSearch.ts:48-78 | the push loops build the searchable items in phase order, each phase before its modules |
| Search.Results | lib/hooks/useSearch.ts:97-109 | a gated-out query gives no results without consulting the matcher; otherwise one result per hit, each drawn from the items |
| Search.ResultsFollowHits | lib/hooks/useSearch.ts:102-108 | the i-th result is the hit's item with its score, a missing score becoming 0 |
| Search.SearchState.constructor | lib/hooks/useSearch.ts:40-45 | the query starts empty; threshold and minimum length default to 0.3 and 2 |
| Search.SearchState.HandleSearch | lib/hooks/useSearch.ts:112-114 | the query becomes the input |
| Search.SearchState.ClearSearch | lib/hooks/useSearch.ts:117-119 | the query is emptied, so every matcher gives no results |
| Search.ResultsOnlyWhileSearching | lib/hooks/useSearch.ts:97-127 | results imply searching with a non-empty query; for a minimum length ≥ 1, searching is exactly the gate passing |
| Revalidate.GetPathsForModel | app/api/revalidate/route.ts:156-216 | the loop over locales computes the planned paths |
| Revalidate.PlanCoversLocales | app/api/revalidate/route.ts:162 | `all` expands to the English paths then the Arabic paths; any other locale is used alone |
| Revalidate.PhasePlan | app/api/revalidate/route.ts:165-184 | a phase gives `/{loc}` and `/{loc}/phases/{slug}`; a module gives `/{loc}/modules/{slug}`; without a slug only `/{loc}` |
| Revalidate.SettingPlan | app/api/revalidate/route.ts:202-209 | settings invalidate the root, phases and modules pages of both locales, in that order |
| Revalidate.EmptyPlans | app/api/revalidate/route.ts:186-213 | a resource without a slug or an unknown model plans no path |
| Revalidate.LocalePathsSize | app/api/revalidate/route.ts:165-213 | each model plans a fixed number of paths per locale |
| Revalidate.PlanSize | app/api/revalidate/route.ts:162-213 | the plan has that number of paths per locale |
| Revalidate.Post | app/api/revalidate/route.ts:39-133 | the response follows the 500, 401, 400, 200 order, and invalidation happens only for an accepted request |
| Revalidate.Invalidate | app/api/revalidate/route.ts:80-104 | the path is invalidated first, then the tag, then the planned model paths; the revalidated list records them |
| Revalidate.InvalidatePaths | app/api/revalidate/route.ts:97-104 | the loop invalidates each planned path in order and records it |
| Revalidate.NotConfiguredFirst | app/api/revalidate/route.ts:58-68 | a missing server secret gives 500 whatever the request, with no invalidation |
| Revalidate.WrongSecretRefused | app/api/revalidate/route.ts:70-77 | a wrong secret gives 401 with no invalidation |
| Revalidate.SuccessListsTargets | app/api/revalidate/route.ts:107-123 | an accepted request gets 400 exactly when nothing is planned; success lists path?, tag? and every model path |
| CmsClient.BaseUrl | lib/cms-client.ts:29-31 | the base URL always has a value: the first set variable, else the local default |
| CmsClient.ConfiguredIffOfflineOrToken | lib/cms-client.ts:496-499 | the client is configured exactly when offline or a token is set; offline accepts `1`/`true` in any case |
| CmsClient.WithDefaults | lib/cms-client.ts:176-180 | caller parameters override the defaults field by field (locale, populate, filters, sort and pagination); a field the caller leaves out keeps its default |
| CmsClient.LocaleReachesRequest | lib/cms-client.ts:45-50 | for every getter, a caller's locale is the first query pair of the request; without one no pair is keyed `locale` |
| CmsClient.QueryStringShape | lib/cms-client.ts:87-88 | no pairs give `''`; otherwise `?` followed by the serialised pairs |
| CmsClient.PairCounts | lib/cms-client.ts:48-85 | an array populate or sort gives one pair per element, in order; undefined pagination entries are skipped |
| CmsClient.BuildQueryString | lib/cms-client.ts:45-89 | the appending loops build the query string of the parameters |
| CmsClient.AppendList | lib/cms-client.ts:51-76 | appends one pair per populate or sort element |
| CmsClient.AppendFilters | lib/cms-client.ts:62-67 | appends `filters[key]=String(value)` per filter, in order |
| CmsClient.AppendPagination | lib/cms-client.ts:79-85 | appends the defined pagination entries |
| CmsClient.SlugFilterIgnoresSlug | lib/cms-client.ts:218-395 | the slug-filtered getters request the same URL whatever the slug |
| CmsClient.SlugFilterPrintsObject | lib/cms-client.ts:62-227 | the nested slug filter is sent as the literal `[object Object]` |
| CmsClient.RequestIgnoresSlug | lib/cms-client.ts:218-332 | getters with the same endpoint and defaults request the same URL |
| CmsClient.PhasesQuery | lib/cms-client.ts:176-180 | `getPhases` asks for populated modules sorted by ascending order |
| CmsClient.RequestUrlOnApi | lib/cms-client.ts:102 | every request URL starts with the base URL followed by `/api/` |
| CmsClient.SettingsRequest | lib/cms-client.ts:468-470 | `getSettings` without parameters requests `/api/setting` with no query string |
| CmsClient.ByIdUrlsDiffer | lib/cms-client.ts:190-289 | by-id phase and module requests for different ids go to different URLs |
| CmsClient.FetchOne | lib/cms-client.ts:204-212 | a 404 becomes null, data is returned, any other error is rethrown |
| CmsClient.FetchFirst | lib/cms-client.ts:232-234 | the first fetched element or null; errors are rethrown |
| CmsClient.OfflinePhases | lib/cms-client.ts:156-175 | offline phases get ids 1..n in order; order and phase number default to index+1 only when missing; the locale defaults; no modules |
| CmsClient.OfflineResources | lib/cms-client.ts:341-372 | offline resources get ids 1..n and an order defaulting to index+1 |
| CmsClient.OfflineTestimonials | lib/cms-client.ts:404-433 | offline testimonials get ids 1..n, a name from name, author or `Participant`, and a quote from quote or text |
| CmsClient.OfflineSettings | lib/cms-client.ts:442-478 | offline settings have id 1, the requested locale and the sample's title |
| CmsClient.Find | lib/cms-client.ts:194-197 | `find` returns a member satisfying the test, and null exactly when none does |
| CmsClient.FindFirst | lib/cms-client.ts:194-225 | `find` returns the first member satisfying the test |
| CmsClient.OfflinePhaseById | lib/cms-client.ts:190-200 | offline by-id lookup returns the phase with that id, or null |
| CmsClient.OfflinePhaseBySlug | lib/cms-client.ts:218-226 | offline by-slug lookup returns the first phase with that slug |
| CmsClient.OfflineHasNoModules | lib/cms-client.ts:247-383 | offline, every module lookup is null and every module or module-resource list is empty |
| CmsClient.OfflineIgnoresNetwork | lib/cms-client.ts:153-478 | offline, phases, resources and testimonials come from the sample, one per record with ids 1..n, and settings are the sample's with id 1, whatever the network would return |
| CmsClient.OnlineFollowsFetch | lib/cms-client.ts:153-478 | online, each list getter returns the fetched list and fails exactly when the fetch fails (a 404 included); settings turn only a 404 into null; by id a 404 is null, by slug it is an error |
| CmsClient.OnlineNotFound | lib/cms-client.ts:204-234 | by id a 404 is null and a 500 is an error; by slug a 404 is an error and an empty list is null |
| CmsClient.GetMediaUrl | lib/cms-client.ts:487-491 | missing or empty stays undefined; `http…` is unchanged; anything else is prefixed with the base URL |
| CmsClient.GetMediaUrlIdempotent | lib/cms-client.ts:487-491 | applying it twice equals applying it once |
| SearchParams.SerializeEmpty | lib/cms-client.ts:87-88 | serialising pairs gives the empty string exactly when there are none |
| SearchParams.SerializeAvoids | components/VideoPlayer.tsx:45-56 | a character absent from every key and value, other than `=` and `&`, is absent from the serialisation |
| Sitemap.ModuleRoutesSize | app/sitemap.ts:83-120 | one module route per module of the locale's phases |
| Sitemap.SitemapSize | app/sitemap.ts:28-128 | the sitemap has 2 + both phase counts + both module counts entries |
| Sitemap.SitemapLayout | app/sitemap.ts:12-128 | `/en` and `/ar` come first, then the English phase routes with their alternates; failed fetches leave only the landing pages |
| Sitemap.ModuleRoutesAreModules | app/sitemap.ts:86-120 | each module route is `{base}/{loc}/phase/{phaseSlug}/module/{slug}` for a module of one of the phases |
| Sitemap.BuildSitemap | app/sitemap.ts:15-128 | the route building computes the sitemap |
| Sitemap.CollectModuleRoutes | app/sitemap.ts:83-120 | the two nested loops produce the module routes phase by phase |
| SearchResults.EscapeRegExp | components/SearchResults.tsx:135-137 | the escaped query is one character longer per special character |
| SearchResults.UnescapeEscape | components/SearchResults.tsx:135-137 | reading the escaped pattern back gives the query: only backslashes are added |
| SearchResults.EscapedSpecialsFollowBackslash | components/SearchResults.tsx:135-137 | every special character of the escaped pattern is preceded by a backslash |
| SearchResults.FindMatch | components/SearchResults.tsx:115-118 | finds the first case-insensitive occurrence at or after a position, or reports none |
| SearchResults.SplitRejoins | components/SearchResults.tsx:118 | the split pieces join back to the text |
| SearchResults.SplitAlternates | components/SearchResults.tsx:118 | the split alternates plain text with no occurrence and occurrences of the query |
| SearchResults.HighlightSpec | components/SearchResults.tsx:112-130 | the pieces concatenate to the text; an empty query gives one plain piece; a piece is highlighted exactly when it is an occurrence of the query, and plain pieces contain no occurrence |
| SearchResults.ResultsViewOf | components/SearchResults.tsx:32-50 | the no-results state, carrying the query it shows, appears exactly when there are no results; otherwise the i-th link is the i-th result's link |
| SearchResults.ModuleResultHref | components/SearchResults.tsx:48-50 | phase results link to `/{locale}/phase/{slug}`; module results to `/{locale}/phase/{phaseSlug}#{slug}` |
| UrlPatterns.RunLength | components/VideoModal.tsx:117-133 | the captured run is the longest run of class characters |
| UrlPatterns.AlternativeAt | components/VideoModal.tsx:117-133 | at one position, the first alternative followed by a class character |
| UrlPatterns.CaptureAt | components/VideoModal.tsx:117-118 | a capture is non-empty and made of class characters |
| UrlPatterns.FirstMatchFrom | components/VideoModal.tsx:117-118 | the match is the leftmost one |
| UrlPatterns.Capture | components/VideoModal.tsx:117-133 | `match(...)?.[1]` is non-empty and made of class characters |
| UrlPatterns.CaptureNone | components/VideoModal.tsx:117-133 | there is no capture exactly when the pattern matches nowhere |
| UrlPatterns.CaptureSome | components/VideoModal.tsx:117-133 | a capture is the maximal class run after the first fitting alternative at the leftmost match |
| VideoModal.FirstCapture | components/VideoModal.tsx:115-129 | the capture of the first pattern that matches, in pattern order |
| VideoModal.YouTubeIdSpec | components/VideoModal.tsx:115-129 | the watch / youtu.be pattern wins over the embed pattern; an id is non-empty and free of `&`, `?`, `#` and newline; null exactly when neither matches |
| VideoModal.VimeoIdSpec | components/VideoModal.tsx:132-136 | a Vimeo id is the maximal non-empty digit run at the leftmost match; null exactly when there is none |
| VideoModal.VimeoAlternatives | components/VideoModal.tsx:132-136 | the id follows `vimeo.com/video/` or `vimeo.com/` directly |
| VideoModal.EmbedUrlForSpec | components/VideoModal.tsx:27-45 | a YouTube-looking link with an id becomes the autoplay YouTube embed; without an id it stays and never tries Vimeo; otherwise a Vimeo id gives the Vimeo embed, else the link is kept |
| VideoModal.NoIdNoEmbed | components/VideoModal.tsx:27-45 | a link with neither id is left unchanged |
| VideoModal.VideoModalState.constructor | components/VideoModal.tsx:21 | the embed URL starts empty |
| VideoModal.VideoModalState.OnVideoUrl | components/VideoModal.tsx:23-46 | a missing or empty link leaves the embed URL alone; otherwise it becomes the selected embed URL |
| VideoPlayer.LastBelow | components/VideoPlayer.tsx:39 | the greedy `.+`/`.*` choice: the largest fitting position below the bound |
| VideoPlayer.LineEnd | components/VideoPlayer.tsx:39 | `.` never crosses a line terminator (`\n`, `\r`, U+2028, U+2029) |
| VideoPlayer.CarriageReturnEndsLine | components/VideoPlayer.tsx:39 | a carriage return inside the `.*` part stops the YouTube match |
| VideoPlayer.SegmentsRoute | components/VideoPlayer.tsx:39 | the `(?:[^/]+/.+/|…)` route, when it matches, is followed by an 11-character id |
| VideoPlayer.ShortRoute | components/VideoPlayer.tsx:39 | the `v/`, `embed/` or `e/` route, when it matches, is followed by an id |
| VideoPlayer.QueryRoute | components/VideoPlayer.tsx:39 | the `.*[?&]v=` route, when it matches, is followed by an id |
| VideoPlayer.YouTubeMatchAt | components/VideoPlayer.tsx:39 | a match at a position captures an id |
| VideoPlayer.FirstYouTubeMatch | components/VideoPlayer.tsx:39 | the match is the leftmost position where some route fits |
| VideoPlayer.YouTubeId | components/VideoPlayer.tsx:39 | a YouTube id is 11 characters, none of `"`, `&`, `?`, `/` or whitespace |
| VideoPlayer.YouTubeFirst | components/VideoPlayer.tsx:36-56 | a YouTube id gives the YouTube player URL with the locale's caption parameters (English by default), before Vimeo is tried |
| VideoPlayer.VimeoSecond | components/VideoPlayer.tsx:60-76 | otherwise the maximal digit run directly after `vimeo.com/` gives the Vimeo player URL |
| VideoPlayer.VimeoIdFollowsDomain | components/VideoPlayer.tsx:60-63 | a Vimeo id is a non-empty digit run that directly follows an occurrence of `vimeo.com/` and is not followed by another digit |
| VideoPlayer.UnsupportedIffNoMatch | components/VideoPlayer.tsx:79-89 | the unsupported branch shows exactly when neither platform matches, with an empty URL and an unknown platform |
| VideoPlayer.NoYouTubeIdMeansNoMatch | components/VideoPlayer.tsx:39 | no id exactly when no route fits anywhere |
| VideoPlayer.NoSlashInParams | components/VideoPlayer.tsx:45-56 | the player's query string contains no slash |
| VideoPlayer.NoSlashAfterEmbed | components/VideoPlayer.tsx:45-56 | nothing after `/embed/` in a player URL is a slash |
| VideoPlayer.NoEarlyMatch | components/VideoPlayer.tsx:39 | no match starts inside `https://www.` of a player URL |
| VideoPlayer.SegmentsRouteFails | components/VideoPlayer.tsx:39 | the two-segment route cannot fit a player URL |
| VideoPlayer.PlayerUrlRoundTrip | components/VideoPlayer.tsx:39-56 | extracting the id from a generated YouTube player URL gives the id back |
| LanguageToggle.SwitchedPathSpec | components/ui/language-toggle.tsx:22-29 | the new path starts with the opposite locale; the first occurrence of `/{current}` is cut, wherever it is; a path without one is appended whole |
| LanguageToggle.SwitchBack | components/ui/language-toggle.tsx:22-29 | switching a locale-prefixed path twice returns it |
| LanguageToggle.SwitchExamples | components/ui/language-toggle.tsx:24-27 | under English, `/en` becomes `/ar` and `/en/phase/x` becomes `/ar/phase/x` |
| LanguageToggle.SwitchCutsInside | components/ui/language-toggle.tsx:24-27 | an occurrence inside the path is cut: `/x/en` becomes `/ar/x` |
| Utils.SliceTo | lib/utils.ts:39 | `slice(0, n)` keeps n characters, and a negative n counts from the end |
| Utils.TruncateSpec | lib/utils.ts:37-40 | a short text is unchanged; a longer one becomes its first n characters plus `...` (length n+3); the result keeps the first min(length, n) characters |
| Utils.TruncateIdempotent | lib/utils.ts:37-40 | truncating twice equals truncating once, for n ≥ 0 |
| Utils.NegativeLength | lib/utils.ts:37-40 | a negative length cuts from the end, and then truncating is not idempotent |
| HtmlText.StripTags | components/PhaseCard.tsx:20 | stripping never lengthens the text and introduces no character |
| HtmlText.StrippedHasNoTags | components/PhaseCard.tsx:20 | in stripped text no `<` is followed later by `>` |
| HtmlText.StripWithoutTags | components/PhaseCard.tsx:20 | text without `<` is unchanged |
| HtmlText.Prefix | components/PhaseCard.tsx:20 | `substring(0, n)` keeps min(n, length) characters |
| HtmlText.PreviewSpec | components/PhaseCard.tsx:20 | the preview is at most n stripped characters plus `...`, even for short text, and holds no tag |
| HtmlText.StripExamples | components/PhaseCard.tsx:20 | `<b>` is removed; a `<` without a following `>` is kept |
| PhaseCard.DescriptionPreviewSpec | components/PhaseCard.tsx:19-21 | the description preview is at most 153 characters, ends in `...` and holds no tag; text without `<` gives its first 150 characters |
| ModuleCard.SummaryPreviewSpec | components/ModuleCard.tsx:28-30 | the summary preview is at most 123 characters, ends in `...` and holds no tag; text without `<` gives its first 120 characters |
| Links.PhaseLinksAgree | components/PhaseCard.tsx:35 | the phase card's link equals the sitemap's phase path and the search result's link |
| Links.ModuleLinksAgree | components/ModuleCard.tsx:44 | the module card's link equals the sitemap's module path |
| Links.RevalidatedPhasePathIsNotALink | app/api/revalidate/route.ts:171 | the revalidated `/phases/` path is not the page the card links to |
| Links.RevalidatedModulePathIsNotALink | app/api/revalidate/route.ts:181 | the revalidated `/modules/` path is not the page the card links to |
| StructuredData.BreadcrumbItems | components/StructuredData.tsx:71-84 | one list item per crumb |
| StructuredData.BreadcrumbSpec | components/StructuredData.tsx:71-89 | no breadcrumbs or none at all give no object; otherwise positions 1..n in order, the names copied and the items prefixed with the base URL |
| StructuredData.PositionsAreDistinct | components/StructuredData.tsx:76-82 | positions increase strictly from 1 to n |
| StructuredData.WebsiteDefaults | components/StructuredData.tsx:48-67 | without page data the website is `FiftyFifty ToolKit` at the base URL, in Arabic exactly for Arabic, with the site search template |
| StructuredData.OrganizationSpec | components/StructuredData.tsx:20-45 | the organisation is at the base URL with `/logo.png` as logo; the base URL defaults to `https://toolkit.fiftyfifty.org` |

Functions that only compute, and the predicates of the classes, are specified by the rows above that name them:

- CmsClient.Phases, CmsClient.Resources, CmsClient.Testimonials, CmsClient.SettingsOf: OfflineIgnoresNetwork, OnlineFollowsFetch, OfflinePhases, OfflineResources, OfflineTestimonials, OfflineSettings.
- CmsClient.PhaseById, CmsClient.PhaseBySlug: OfflinePhaseById, OfflinePhaseBySlug, OnlineNotFound, FetchOne, FetchFirst.
- CmsClient.Modules, CmsClient.ModuleById, CmsClient.ModuleBySlug, CmsClient.ModulesByPhase, CmsClient.ResourcesByModule: OfflineHasNoModules, OnlineFollowsFetch.
- CmsClient.QueryString: QueryStringShape, BuildQueryString, PhasesQuery, LocaleReachesRequest.
- CmsClient.Endpoint, CmsClient.Defaults, CmsClient.RequestUrl: RequestUrlOnApi, SettingsRequest, ByIdUrlsDiffer, SlugFilterIgnoresSlug, SlugFilterPrintsObject, RequestIgnoresSlug, PhasesQuery.
- CmsClient.IsCMSConfigured, CmsClient.Offline: ConfiguredIffOfflineOrToken.
- TopicFilter.CategorizePhase, TopicFilter.CategorizeModule (both are `Categorize` over their own fields): CategorizeText, CategorizeTextShape, CategorizeTextMembers, CategorizeIgnoresCase.
- TopicFilter.Toggled: ToggledWellFormed, ToggledReplaces, ToggledFlips, ToggleTwiceRestores, FilterState.ToggleCategory.
- TopicFilter.FilteredPhases: FilteredPhasesAll, FilteredPhasesSpec, TrimModulesSpec, CountCoversShownPhases.
- TopicFilter.CategoryCount: GetCategoryCount, CountCoversShownPhases.
- TopicFilter.FilterState.IsCategorySelected: FilterState.HasActiveFilters.
- ResourceLibrary.AllResources: AllResourcesSpec, CollectedContains, CollectAllResources.
- ResourceLibrary.FilterByType: FilterByTypeSpec, CountMatchesTypeFilter, ResourceLibraryState.Counts.
- ResourceLibrary.FilterBySearch: FilterBySearchSpec, SearchIgnoresCase, OneCharacterQueryShowsEverything.
- ResourceLibrary.Grouped: GroupedSpec, GroupedPermutes, DistinctKeysSpec, GroupResources.
- ResourceLibrary.ResourceLibraryState.TotalCount: ResourceLibraryState.Counts, ResourceLibraryState.FilteredCount.
- Progress.WithCompleted, Progress.WithoutCompleted: WithCompletedSpec, WithoutCompletedSpec, CompleteThenIncomplete, ProgressProvider.MarkModuleComplete, ProgressProvider.MarkModuleIncomplete.
- Progress.CompletionPercentage: CompletionPercentageRounds, CompletionPercentageBounds, CompletionPercentageExamples, ProgressProvider.GetCompletionPercentage.
- Progress.Restored: RestoredAfterSave, RestoredIgnoresInvalid, ProgressProvider.LoadFromStorage, ProgressProvider.SaveToStorage.
- Progress.ProgressProvider.IsModuleComplete: ProgressProvider.MarkModuleComplete, ProgressProvider.MarkModuleIncomplete.
- Progress.ProgressProvider.GetCompletedCount: the length of the list that ProgressProvider.MarkModuleComplete, ProgressProvider.MarkModuleIncomplete and ProgressProvider.ResetProgress state.
- Search.SearchableData: SearchableDataSize, SearchableDataItems, BuildSearchableData.
- Search.SearchState.SearchResults, Search.SearchState.HasResults, Search.SearchState.IsSearching: Results, ResultsFollowHits, ResultsOnlyWhileSearching.
- Revalidate.PathsForModel: GetPathsForModel, PlanCoversLocales, PhasePlan, SettingPlan, EmptyPlans, LocalePathsSize, PlanSize.
- Revalidate.Respond: Post, NotConfiguredFirst, WrongSecretRefused, SuccessListsTargets.
- Sitemap.SitemapOf: SitemapSize, SitemapLayout, ModuleRoutesAreModules, BuildSitemap.
- VideoModal.ExtractYouTubeId: YouTubeIdSpec. VideoModal.ExtractVimeoId: VimeoIdSpec, VimeoAlternatives. VideoModal.EmbedUrlFor: EmbedUrlForSpec, NoIdNoEmbed, VideoModalState.OnVideoUrl.
- VideoPlayer.GetVideoEmbedUrl: YouTubeFirst, VimeoSecond, VimeoIdFollowsDomain, UnsupportedIffNoMatch, PlayerUrlRoundTrip.
- LanguageToggle.SwitchedPath: SwitchedPathSpec, SwitchBack, SwitchExamples, SwitchCutsInside.
- Utils.Truncate: TruncateSpec, TruncateIdempotent, NegativeLength.
- HtmlText.Preview: PreviewSpec, PhaseCard.DescriptionPreviewSpec, ModuleCard.SummaryPreviewSpec.
- StructuredData.StructuredDataOf: BreadcrumbSpec, WebsiteDefaults, OrganizationSpec.

## Left out

- Network I/O (`cmsFetch`, headers, the bearer token, cache options, `getCMSHealth`): a fetch outcome is an input (`Fetched`, an HTTP error status or another error).
- The dynamic import of the sample JSON: the sample records are passed in.
- Fuse.js scoring, weights and threshold: the matcher is a function parameter returning hits that point into the searchable items; nothing about ranking is claimed.
- `URLSearchParams` percent-encoding (the application/x-www-form-urlencoded serialiser of the WHATWG URL Standard, section 5.2): pairs are joined as `key=value` with `&`, unencoded.
- `JSON.stringify` / `JSON.parse`: only arrays of integers without whitespace are encoded and decoded. Any other stored text counts as unparsable, as do arrays of non-integers, which the source would adopt.
- The JavaScript RegExp engine: only the patterns used are modelled. `\s` is ASCII whitespace, case folding is ASCII, and `.` stops at the four line terminators (`\n`, `\r`, U+2028, U+2029).
- Clocks: `Date.now()` is a parameter. Sitemap `lastModified` and ISO timestamps are not modelled.
- Floating point: sitemap priorities are kept as reals but not reasoned about. The percentage uses the integer form of rounding half up.
- Progress.CompletionPercentage: rounds the exact quotient half up, while the source computes `Math.round((completed / total) * 100)` in doubles. Where the double product lands just below a half the two differ: for 23 of 40 (and 46 of 80) the product is 57.49999999999999, so the source shows 57 where the model gives 58.
- React machinery:
  - memoisation and effect scheduling;
  - the storage write that follows `resetProgress`, which depends on effect order;
  - debounce timers;
  - the 300 ms embed reset of the video modal.
- Analytics (`gtag`) and the browser `CustomEvent`: the consent notification is returned as a value.
- `revalidatePath`, `revalidateTag` and `NextResponse`: they are recorded as effects and a status with payload. The catch branch (app/api/revalidate/route.ts:124-133) is not modelled, because nothing in the model throws.
- The try/catch around `getVideoEmbedUrl` (components/VideoPlayer.tsx): the model cannot throw, so the catch is not modelled.
- Presentational components, configuration files and routing glue are not part of this model.
- lib/types/phase.ts is not part of this model: the hooks use lib/types/cms.ts.
- `formatDate`, `cn` and `sleep` in lib/utils.ts are not modelled: they are formatting, class-name merging and a timer.
- Search.Results: the source's matcher is Fuse.js; here hits must point into the item list, a requirement the source meets by construction.
- BrowserStorage.LocalStorage: reads and writes never throw. The catch paths around `localStorage` in lib/consent.ts:35-59, 68-83 and 92-97 and in lib/contexts/ProgressContext.tsx:37-47, 55-59 and 108-112 (quota exceeded, storage disabled) are not modelled, so the Consent and Progress.ProgressProvider methods cover only the paths where storage succeeds.
- Strings.Lower: folds ASCII letters only. JavaScript's `toLowerCase` folds all of Unicode (the Kelvin sign U+212A becomes `k`), so TopicFilter.CategorizePhase, TopicFilter.CategorizeModule (lib/hooks/useFilter.ts:44, 64) and ResourceLibrary.FilterBySearch (lib/hooks/useResourceLibrary.ts:91-96) can miss a keyword the source would find in non-ASCII text.
- Strings.IsSpace: only the ASCII white space is skipped before `parseInt` reads a number, while JavaScript also skips U+00A0, U+FEFF, the line and paragraph separators and the other Unicode space characters. The consent timestamp it reads is the application's own printed integer, so the difference is not reachable from the modelled writes.
- String lengths count Unicode scalar values, while JavaScript's `.length`, `slice` and `substring` count UTF-16 code units. For text outside the Basic Multilingual Plane the minimum-length gates (lib/hooks/useSearch.ts:98, lib/hooks/useResourceLibrary.ts:87), Utils.Truncate and HtmlText.Prefix (the 150- and 120-character previews) can cut at a different place than the source, which may split a surrogate pair.
- `isClient` and `isServer` in lib/utils.ts are not modelled as members: they are `typeof window !== 'undefined'` and its negation, which the model passes around as the `hasWindow` flag.
