/** The resource library hook (lib/hooks/useResourceLibrary.ts): every resource of every module of
    every phase, with its context, sorted; narrowed by file type and by a search query; grouped by
    phase, module or file type; and counted per file type. */
module ResourceLibrary {
  import opened Wrappers
  import opened Strings
  import opened Seqs
  import opened CmsTypes
  import opened ResourceSort

  // ----- aggregation -----

  function WithContext(p: Phase, m: Module, r: Resource): ResourceWithContext {
    ResourceWithContext(r, m.title, m.slug, p.title, p.slug, p.phaseNumber)
  }

  /** The resources of one module of `p`, in order, with their context. */
  function ModuleResources(p: Phase, m: Module): seq<ResourceWithContext> {
    Map(ResourcesOf(m), r => WithContext(p, m, r))
  }

  /** The resources of the given modules of `p`, module by module. */
  function PhaseResources(p: Phase, modules: seq<Module>): seq<ResourceWithContext> {
    if modules == [] then []
    else PhaseResources(p, modules[..|modules| - 1]) + ModuleResources(p, modules[|modules| - 1])
  }

  /** The resources in the order the nested loops push them: phase by phase, module by module. */
  function Collected(phases: seq<Phase>): seq<ResourceWithContext> {
    if phases == [] then []
    else
      var p := phases[|phases| - 1];
      Collected(phases[..|phases| - 1]) + PhaseResources(p, ModulesOf(p))
  }

  /** `allResources`: the collected resources, sorted. */
  function AllResources(phases: seq<Phase>): seq<ResourceWithContext> {
    SortResources(Collected(phases))
  }

  /** A resource of a module of a phase is in the library, with that module's and phase's context. */
  lemma {:induction false} CollectedContains(phases: seq<Phase>, i: nat, j: nat, k: nat)
    requires i < |phases| && j < |ModulesOf(phases[i])| && k < |ResourcesOf(ModulesOf(phases[i])[j])|
    ensures var p := phases[i]; var m := ModulesOf(p)[j];
      WithContext(p, m, ResourcesOf(m)[k]) in AllResources(phases)
  {
    var p := phases[i];
    var m := ModulesOf(p)[j];
    var x := WithContext(p, m, ResourcesOf(m)[k]);
    assert x in ModuleResources(p, m);
    PhaseResourcesContains(p, ModulesOf(p), j, x);
    CollectedContainsPhase(phases, i, x);
    SortPermutes(Collected(phases));
    assert x in multiset(Collected(phases));
  }

  lemma {:induction false} PhaseResourcesContains(p: Phase, modules: seq<Module>, j: nat, x: ResourceWithContext)
    requires j < |modules| && x in ModuleResources(p, modules[j])
    ensures x in PhaseResources(p, modules)
  {
    var init := modules[..|modules| - 1];
    if j < |modules| - 1 {
      assert init[j] == modules[j];
      PhaseResourcesContains(p, init, j, x);
    }
  }

  lemma {:induction false} CollectedContainsPhase(phases: seq<Phase>, i: nat, x: ResourceWithContext)
    requires i < |phases| && x in PhaseResources(phases[i], ModulesOf(phases[i]))
    ensures x in Collected(phases)
  {
    var init := phases[..|phases| - 1];
    if i < |phases| - 1 {
      assert init[i] == phases[i];
      CollectedContainsPhase(init, i, x);
    }
  }

  /** The library holds exactly the collected resources, sorted by phase number and order, with
      resources of equal key in collection order. */
  lemma AllResourcesSpec(phases: seq<Phase>, phaseNumber: int, order: int)
    ensures multiset(AllResources(phases)) == multiset(Collected(phases))
    ensures Sorted(AllResources(phases))
    ensures Filter(AllResources(phases), HasKey(phaseNumber, order)) == Filter(Collected(phases), HasKey(phaseNumber, order))
  {
    SortPermutes(Collected(phases));
    SortSorts(Collected(phases));
    SortStable(Collected(phases), phaseNumber, order);
  }

  /** The body of `allResources`: three nested loops that push each resource with its context,
      then the sort. */
  method CollectAllResources(phases: seq<Phase>) returns (resources: seq<ResourceWithContext>)
    ensures resources == AllResources(phases)
  {
    resources := [];
    var i := 0;
    while i < |phases|
      invariant 0 <= i <= |phases|
      invariant resources == Collected(phases[..i])
    {
      var phase := phases[i];
      resources := PushPhaseResources(resources, phase);
      assert phases[..i + 1][..i] == phases[..i];
      i := i + 1;
    }
    assert phases[..i] == phases;
    resources := SortResources(resources);
  }

  /** The loops over the modules of one phase and over each module's resources. */
  method PushPhaseResources(acc: seq<ResourceWithContext>, phase: Phase) returns (resources: seq<ResourceWithContext>)
    ensures resources == acc + PhaseResources(phase, ModulesOf(phase))
  {
    resources := acc;
    var modules := ModulesOf(phase);
    var j := 0;
    while j < |modules|
      invariant 0 <= j <= |modules|
      invariant resources == acc + PhaseResources(phase, modules[..j])
    {
      var m := modules[j];
      var items := ResourcesOf(m);
      ghost var before := resources;
      var k := 0;
      while k < |items|
        invariant 0 <= k <= |items|
        invariant resources == before + ModuleResources(phase, m)[..k]
      {
        resources := resources + [WithContext(phase, m, items[k])];
        assert ModuleResources(phase, m)[..k + 1] == ModuleResources(phase, m)[..k] + [WithContext(phase, m, items[k])];
        k := k + 1;
      }
      assert ModuleResources(phase, m)[..k] == ModuleResources(phase, m);
      assert modules[..j + 1][..j] == modules[..j];
      j := j + 1;
    }
    assert modules[..j] == modules;
  }

  // ----- narrowing -----

  /** The resources of one file type. */
  function TypeIs(fileType: string): ResourceWithContext -> bool {
    (r: ResourceWithContext) => r.resource.fileType == fileType
  }

  /** `filteredByType`: `"all"` keeps everything, any other value keeps that file type. */
  function FilterByType(resources: seq<ResourceWithContext>, fileTypeFilter: string): seq<ResourceWithContext> {
    if fileTypeFilter == "all" then resources else Filter(resources, TypeIs(fileTypeFilter))
  }

  /** A resource matches a lower-cased query when its title, description, module title or phase
      title, lower-cased, contains it. */
  predicate MatchesQuery(r: ResourceWithContext, query: string) {
    || Contains(Lower(r.resource.title), query)
    || Contains(Lower(r.resource.description.GetOr("")), query)
    || Contains(Lower(r.moduleTitle), query)
    || Contains(Lower(r.phaseTitle), query)
  }

  function Matches(query: string): ResourceWithContext -> bool {
    (r: ResourceWithContext) => MatchesQuery(r, query)
  }

  /** `filteredResources`: a query shorter than two characters does not narrow anything. */
  function FilterBySearch(resources: seq<ResourceWithContext>, searchQuery: string): seq<ResourceWithContext> {
    if searchQuery == "" || |searchQuery| < 2 then resources
    else Filter(resources, Matches(Lower(searchQuery)))
  }

  lemma FilterByTypeSpec(resources: seq<ResourceWithContext>, fileTypeFilter: string)
    ensures fileTypeFilter == "all" ==> FilterByType(resources, fileTypeFilter) == resources
    ensures fileTypeFilter != "all" ==> forall r ::
      r in FilterByType(resources, fileTypeFilter) <==> r in resources && r.resource.fileType == fileTypeFilter
    ensures IsSubsequence(FilterByType(resources, fileTypeFilter), resources)
  {
    FilterMembers(resources, TypeIs(fileTypeFilter));
    FilterIsSubsequence(resources, TypeIs(fileTypeFilter));
    if fileTypeFilter == "all" {
      SubsequenceReflexive(resources);
    }
  }

  lemma {:induction false} SubsequenceReflexive(s: seq<ResourceWithContext>)
    ensures IsSubsequence(s, s)
  {
    if s != [] {
      SubsequenceReflexive(s[..|s| - 1]);
    }
  }

  /** Search keeps, in order, exactly the resources that match the lower-cased query, and only from
      two characters on. */
  lemma FilterBySearchSpec(resources: seq<ResourceWithContext>, searchQuery: string)
    ensures |searchQuery| < 2 ==> FilterBySearch(resources, searchQuery) == resources
    ensures |searchQuery| >= 2 ==> forall r ::
      r in FilterBySearch(resources, searchQuery) <==> r in resources && MatchesQuery(r, Lower(searchQuery))
    ensures IsSubsequence(FilterBySearch(resources, searchQuery), resources)
  {
    FilterMembers(resources, Matches(Lower(searchQuery)));
    FilterIsSubsequence(resources, Matches(Lower(searchQuery)));
    if |searchQuery| < 2 {
      SubsequenceReflexive(resources);
    }
  }

  /** The search ignores the case of the query. */
  lemma SearchIgnoresCase(resources: seq<ResourceWithContext>, searchQuery: string)
    ensures FilterBySearch(resources, Lower(searchQuery)) == FilterBySearch(resources, searchQuery)
  {
    LowerIdempotent(searchQuery);
  }

  // ----- grouping -----

  datatype GroupBy = ByPhase | ByModule | ByType

  /** The key a resource is grouped under. */
  function GroupKey(r: ResourceWithContext, grouping: GroupBy): string {
    match grouping
    case ByPhase => r.phaseSlug
    case ByModule => r.phaseSlug + "-" + r.moduleSlug
    case ByType => r.resource.fileType
  }

  /** The label of a group, taken from its first resource. */
  function GroupLabel(r: ResourceWithContext, grouping: GroupBy): string {
    match grouping
    case ByPhase => r.phaseTitle
    case ByModule => r.phaseTitle + " › " + r.moduleTitle
    case ByType => r.resource.fileType
  }

  datatype ResourceGroup = ResourceGroup(key: string, labelText: string, resources: seq<ResourceWithContext>)

  function KeyIs(grouping: GroupBy, key: string): ResourceWithContext -> bool {
    (r: ResourceWithContext) => GroupKey(r, grouping) == key
  }

  /** The distinct keys of the resources, in order of first appearance (a `Map`'s insertion order). */
  function DistinctKeys(resources: seq<ResourceWithContext>, grouping: GroupBy): seq<string> {
    if resources == [] then []
    else
      var keys := DistinctKeys(resources[..|resources| - 1], grouping);
      var key := GroupKey(resources[|resources| - 1], grouping);
      if key in keys then keys else keys + [key]
  }

  /** The group of one key: its resources in order, labelled after the first. */
  function GroupOf(resources: seq<ResourceWithContext>, grouping: GroupBy, key: string): ResourceGroup {
    var members := Filter(resources, KeyIs(grouping, key));
    ResourceGroup(key, if members != [] then GroupLabel(members[0], grouping) else key, members)
  }

  /** `groupedResources`. */
  function Grouped(resources: seq<ResourceWithContext>, grouping: GroupBy): seq<ResourceGroup> {
    var keys := DistinctKeys(resources, grouping);
    seq(|keys|, i requires 0 <= i < |keys| => GroupOf(resources, grouping, keys[i]))
  }

  lemma {:induction false} DistinctKeysSpec(resources: seq<ResourceWithContext>, grouping: GroupBy)
    ensures NoDuplicates(DistinctKeys(resources, grouping))
    ensures forall k :: k in DistinctKeys(resources, grouping) <==> exists r :: r in resources && GroupKey(r, grouping) == k
  {
    if resources != [] {
      var init := resources[..|resources| - 1];
      DistinctKeysSpec(init, grouping);
      assert resources == init + [resources[|resources| - 1]];
    }
  }

  /** The groups have distinct keys, none is empty, each holds exactly the resources with its key in
      their order, and every resource is in the group of its key. */
  lemma GroupedSpec(resources: seq<ResourceWithContext>, grouping: GroupBy)
    ensures var groups := Grouped(resources, grouping);
      && (forall i, j :: 0 <= i < j < |groups| ==> groups[i].key != groups[j].key)
      && (forall g :: g in groups ==> g.resources != [] && g.labelText == GroupLabel(g.resources[0], grouping))
      && (forall g :: g in groups ==> forall r :: r in g.resources <==> r in resources && GroupKey(r, grouping) == g.key)
      && (forall g :: g in groups ==> IsSubsequence(g.resources, resources))
      && (forall r :: r in resources ==> exists g :: g in groups && g.key == GroupKey(r, grouping) && r in g.resources)
  {
    var groups := Grouped(resources, grouping);
    var keys := DistinctKeys(resources, grouping);
    DistinctKeysSpec(resources, grouping);
    forall g | g in groups
      ensures g.resources != [] && g.labelText == GroupLabel(g.resources[0], grouping)
      ensures forall r :: r in g.resources <==> r in resources && GroupKey(r, grouping) == g.key
      ensures IsSubsequence(g.resources, resources)
    {
      var i :| 0 <= i < |groups| && groups[i] == g;
      assert keys[i] in keys;
      FilterMembers(resources, KeyIs(grouping, keys[i]));
      FilterIsSubsequence(resources, KeyIs(grouping, keys[i]));
      var r :| r in resources && GroupKey(r, grouping) == keys[i];
      assert r in g.resources;
    }
    forall r | r in resources
      ensures exists g :: g in groups && g.key == GroupKey(r, grouping) && r in g.resources
    {
      var k := GroupKey(r, grouping);
      assert k in keys;
      var i :| 0 <= i < |keys| && keys[i] == k;
      FilterMembers(resources, KeyIs(grouping, k));
      assert groups[i] in groups;
    }
  }

  function Members(g: ResourceGroup): seq<ResourceWithContext> {
    g.resources
  }

  function KeyIn(grouping: GroupBy, keys: seq<string>): ResourceWithContext -> bool {
    (r: ResourceWithContext) => GroupKey(r, grouping) in keys
  }

  function Buckets(resources: seq<ResourceWithContext>, grouping: GroupBy, keys: seq<string>): seq<seq<ResourceWithContext>> {
    seq(|keys|, i requires 0 <= i < |keys| => Filter(resources, KeyIs(grouping, keys[i])))
  }

  lemma {:induction false} BucketsPartition(resources: seq<ResourceWithContext>, grouping: GroupBy, keys: seq<string>)
    requires NoDuplicates(keys)
    ensures multiset(Flatten(Buckets(resources, grouping, keys))) == multiset(Filter(resources, KeyIn(grouping, keys)))
  {
    if keys == [] {
      FilterDropsAll(resources, KeyIn(grouping, keys));
    } else {
      var init, last := keys[..|keys| - 1], keys[|keys| - 1];
      assert NoDuplicates(init);
      BucketsPartition(resources, grouping, init);
      BucketsSnoc(resources, grouping, keys);
      FlattenAppend(Buckets(resources, grouping, init), Filter(resources, KeyIs(grouping, last)));
      KeyInSplit(grouping, keys);
      FilterUnion(resources, KeyIn(grouping, init), KeyIs(grouping, last), KeyIn(grouping, keys));
    }
  }

  lemma BucketsSnoc(resources: seq<ResourceWithContext>, grouping: GroupBy, keys: seq<string>)
    requires keys != []
    ensures Buckets(resources, grouping, keys)
         == Buckets(resources, grouping, keys[..|keys| - 1]) + [Filter(resources, KeyIs(grouping, keys[|keys| - 1]))]
  {
  }

  lemma KeyInSplit(grouping: GroupBy, keys: seq<string>)
    requires keys != [] && NoDuplicates(keys)
    ensures var init, last := keys[..|keys| - 1], keys[|keys| - 1];
      forall r :: KeyIn(grouping, keys)(r) == (KeyIn(grouping, init)(r) || KeyIs(grouping, last)(r))
               && !(KeyIn(grouping, init)(r) && KeyIs(grouping, last)(r))
  {
    var init, last := keys[..|keys| - 1], keys[|keys| - 1];
    assert keys == init + [last];
    assert last !in init;
  }

  /** Grouping loses and duplicates nothing: the groups together hold the resources, each once. */
  lemma GroupedPermutes(resources: seq<ResourceWithContext>, grouping: GroupBy)
    ensures multiset(Flatten(Map(Grouped(resources, grouping), Members))) == multiset(resources)
  {
    var keys := DistinctKeys(resources, grouping);
    DistinctKeysSpec(resources, grouping);
    assert Map(Grouped(resources, grouping), Members) == Buckets(resources, grouping, keys);
    BucketsPartition(resources, grouping, keys);
    FilterKeepsAll(resources, KeyIn(grouping, keys));
  }

  /** The buckets of the `Map` after a pass over `prefix`: one per key seen, holding that key's
      resources in order. */
  ghost predicate BucketsMatch(buckets: map<string, seq<ResourceWithContext>>, keys: seq<string>,
                         prefix: seq<ResourceWithContext>, grouping: GroupBy) {
    && keys == DistinctKeys(prefix, grouping)
    && (forall k :: k in buckets <==> k in keys)
    && (forall k :: k in buckets ==> buckets[k] == Filter(prefix, KeyIs(grouping, k)))
  }

  lemma GroupStep(buckets: map<string, seq<ResourceWithContext>>, keys: seq<string>,
                  prefix: seq<ResourceWithContext>, grouping: GroupBy, r: ResourceWithContext)
    requires BucketsMatch(buckets, keys, prefix, grouping)
    ensures var key := GroupKey(r, grouping);
      var b := if key in buckets then buckets else buckets[key := []];
      var ks := if key in buckets then keys else keys + [key];
      BucketsMatch(b[key := b[key] + [r]], ks, prefix + [r], grouping)
  {
    var key := GroupKey(r, grouping);
    assert (prefix + [r])[..|prefix|] == prefix;
    if key !in buckets {
      DistinctKeysSpec(prefix, grouping);
      FilterDropsAll(prefix, KeyIs(grouping, key));
    }
    var b := if key in buckets then buckets else buckets[key := []];
    forall k | k in b
      ensures b[k] + (if KeyIs(grouping, k)(r) then [r] else []) == Filter(prefix + [r], KeyIs(grouping, k))
    {
      FilterAppend(prefix, r, KeyIs(grouping, k));
    }
  }

  lemma GroupsFromBuckets(buckets: map<string, seq<ResourceWithContext>>, keys: seq<string>,
                          resources: seq<ResourceWithContext>, grouping: GroupBy)
    requires BucketsMatch(buckets, keys, resources, grouping)
    ensures seq(|keys|, j requires 0 <= j < |keys| && keys[j] in buckets =>
              var members := buckets[keys[j]];
              ResourceGroup(keys[j], if members != [] then GroupLabel(members[0], grouping) else keys[j], members))
         == Grouped(resources, grouping)
  {
  }

  /** The body of `groupedResources`: one pass that appends each resource to the list of its key
      in a `Map`, creating the list on first sight of the key. */
  method GroupResources(resources: seq<ResourceWithContext>, grouping: GroupBy) returns (groups: seq<ResourceGroup>)
    ensures groups == Grouped(resources, grouping)
  {
    var keys: seq<string> := [];
    var buckets: map<string, seq<ResourceWithContext>> := map[];
    var i := 0;
    while i < |resources|
      invariant 0 <= i <= |resources|
      invariant BucketsMatch(buckets, keys, resources[..i], grouping)
    {
      var resource := resources[i];
      var key := GroupKey(resource, grouping);
      GroupStep(buckets, keys, resources[..i], grouping, resource);
      if key !in buckets {
        buckets := buckets[key := []];
        keys := keys + [key];
      }
      buckets := buckets[key := buckets[key] + [resource]];
      assert resources[..i + 1] == resources[..i] + [resource];
      i := i + 1;
    }
    assert resources[..i] == resources;
    GroupsFromBuckets(buckets, keys, resources, grouping);
    groups := seq(|keys|, j requires 0 <= j < |keys| && keys[j] in buckets =>
      var members := buckets[keys[j]];
      ResourceGroup(keys[j], if members != [] then GroupLabel(members[0], grouping) else keys[j], members));
  }

  // ----- counts per file type -----

  /** `fileTypeCounts`: `all` starts at the number of resources; then each resource whose type is
      one of the five keys (`all` included) adds one to that key. */
  datatype FileTypeCounts = FileTypeCounts(all: nat, pdf: nat, excel: nat, word: nat, other: nat)

  function CountOf(resources: seq<ResourceWithContext>, fileType: string): nat {
    |Filter(resources, TypeIs(fileType))|
  }

  function ExpectedCounts(resources: seq<ResourceWithContext>): FileTypeCounts {
    FileTypeCounts(|resources| + CountOf(resources, "all"), CountOf(resources, "PDF"), CountOf(resources, "Excel"),
                   CountOf(resources, "Word"), CountOf(resources, "Other"))
  }

  method ComputeFileTypeCounts(resources: seq<ResourceWithContext>) returns (counts: FileTypeCounts)
    ensures counts == ExpectedCounts(resources)
  {
    counts := FileTypeCounts(|resources|, 0, 0, 0, 0);
    var i := 0;
    while i < |resources|
      invariant 0 <= i <= |resources|
      invariant counts == FileTypeCounts(|resources| + CountOf(resources[..i], "all"), CountOf(resources[..i], "PDF"),
                                         CountOf(resources[..i], "Excel"), CountOf(resources[..i], "Word"),
                                         CountOf(resources[..i], "Other"))
    {
      var fileType := resources[i].resource.fileType;
      if fileType == "all" {
        counts := counts.(all := counts.all + 1);
      } else if fileType == "PDF" {
        counts := counts.(pdf := counts.pdf + 1);
      } else if fileType == "Excel" {
        counts := counts.(excel := counts.excel + 1);
      } else if fileType == "Word" {
        counts := counts.(word := counts.word + 1);
      } else if fileType == "Other" {
        counts := counts.(other := counts.other + 1);
      }
      CountStep(resources, i, "all");
      CountStep(resources, i, "PDF");
      CountStep(resources, i, "Excel");
      CountStep(resources, i, "Word");
      CountStep(resources, i, "Other");
      i := i + 1;
    }
    assert resources[..i] == resources;
  }

  lemma CountStep(resources: seq<ResourceWithContext>, i: nat, fileType: string)
    requires i < |resources|
    ensures CountOf(resources[..i + 1], fileType)
         == CountOf(resources[..i], fileType) + (if resources[i].resource.fileType == fileType then 1 else 0)
  {
    FilterPrefixStep(resources, i, TypeIs(fileType));
  }

  /** When every resource has one of the schema's file types, the four type counts add up to the
      total, and `all` is the total. */
  lemma {:induction false} CountsAddUp(resources: seq<ResourceWithContext>)
    requires forall r :: r in resources ==> r.resource.fileType in KnownFileTypes
    ensures var c := ExpectedCounts(resources);
      c.pdf + c.excel + c.word + c.other == |resources| == c.all
  {
    if resources != [] {
      var init, last := resources[..|resources| - 1], resources[|resources| - 1];
      CountsAddUp(init);
      assert resources == init + [last];
      FilterAppend(init, last, TypeIs("all"));
      FilterAppend(init, last, TypeIs("PDF"));
      FilterAppend(init, last, TypeIs("Excel"));
      FilterAppend(init, last, TypeIs("Word"));
      FilterAppend(init, last, TypeIs("Other"));
    }
  }

  /** The count shown for a file type is the number of resources that filtering by it shows. */
  lemma CountMatchesTypeFilter(resources: seq<ResourceWithContext>)
    ensures ExpectedCounts(resources).pdf == |FilterByType(resources, "PDF")|
    ensures ExpectedCounts(resources).excel == |FilterByType(resources, "Excel")|
    ensures ExpectedCounts(resources).word == |FilterByType(resources, "Word")|
    ensures ExpectedCounts(resources).other == |FilterByType(resources, "Other")|
  {
  }

  // ----- the hook's state -----

  /** The state of `useResourceLibrary`: the phases it was given and the three pieces of state. */
  class ResourceLibraryState {
    const phases: seq<Phase>
    var fileTypeFilter: string
    var searchQuery: string
    var groupBy: GroupBy

    /** `initialFileType` defaults to `all` and `initialSearchQuery` to the empty string. */
    constructor (phases: seq<Phase>, initialFileType: Option<string>, initialSearchQuery: Option<string>)
      ensures this.phases == phases && groupBy == ByPhase
      ensures fileTypeFilter == (if initialFileType.Some? then initialFileType.value else "all")
      ensures searchQuery == (if initialSearchQuery.Some? then initialSearchQuery.value else "")
      ensures initialFileType.None? && initialSearchQuery.None? ==> !HasFilters()
    {
      this.phases := phases;
      fileTypeFilter := if initialFileType.Some? then initialFileType.value else "all";
      searchQuery := if initialSearchQuery.Some? then initialSearchQuery.value else "";
      groupBy := ByPhase;
    }

    function FilteredResources(): (r: seq<ResourceWithContext>)
      reads this
      ensures IsSubsequence(r, AllResources(phases))
    {
      var byType := FilterByType(AllResources(phases), fileTypeFilter);
      FilterByTypeSpec(AllResources(phases), fileTypeFilter);
      FilterBySearchSpec(byType, searchQuery);
      SubsequenceTransitive(FilterBySearch(byType, searchQuery), byType, AllResources(phases));
      FilterBySearch(byType, searchQuery)
    }

    /** `groupedResources`: the filtered resources, grouped by the current grouping. */
    function GroupedResources(): (groups: seq<ResourceGroup>)
      reads this
      ensures multiset(Flatten(Map(groups, Members))) == multiset(FilteredResources())
    {
      GroupedPermutes(FilteredResources(), groupBy);
      Grouped(FilteredResources(), groupBy)
    }

    /** `fileTypeCounts`: computed over every resource, whatever the filters. */
    function Counts(): (c: FileTypeCounts)
      reads this
      ensures c == ExpectedCounts(AllResources(phases))
      ensures c.all >= TotalCount()
      ensures c.pdf == |FilterByType(AllResources(phases), "PDF")| && c.excel == |FilterByType(AllResources(phases), "Excel")|
      ensures c.word == |FilterByType(AllResources(phases), "Word")| && c.other == |FilterByType(AllResources(phases), "Other")|
    {
      CountMatchesTypeFilter(AllResources(phases));
      ExpectedCounts(AllResources(phases))
    }

    function TotalCount(): nat
      reads this
    {
      |AllResources(phases)|
    }

    function FilteredCount(): (n: nat)
      reads this
      ensures n <= TotalCount()
    {
      SubsequenceLength(FilteredResources(), AllResources(phases));
      |FilteredResources()|
    }

    /** `hasFilters`; without one, every resource is shown. */
    function HasFilters(): (r: bool)
      reads this
      ensures !r ==> FilteredResources() == AllResources(phases)
    {
      fileTypeFilter != "all" || |searchQuery| > 0
    }

    method HandleFileTypeChange(fileType: string)
      modifies this
      ensures fileTypeFilter == fileType && searchQuery == old(searchQuery) && groupBy == old(groupBy)
      ensures Counts() == old(Counts())
    {
      fileTypeFilter := fileType;
    }

    method HandleSearchChange(query: string)
      modifies this
      ensures searchQuery == query && fileTypeFilter == old(fileTypeFilter) && groupBy == old(groupBy)
      ensures Counts() == old(Counts())
    {
      searchQuery := query;
    }

    method HandleGroupByChange(grouping: GroupBy)
      modifies this
      ensures groupBy == grouping && fileTypeFilter == old(fileTypeFilter) && searchQuery == old(searchQuery)
      ensures Counts() == old(Counts())
    {
      groupBy := grouping;
    }

    /** `clearFilters`: the type filter and the query are reset; the grouping stays. */
    method ClearFilters()
      modifies this
      ensures fileTypeFilter == "all" && searchQuery == "" && groupBy == old(groupBy)
      ensures Counts() == old(Counts())
      ensures !HasFilters() && FilteredResources() == AllResources(phases)
    {
      fileTypeFilter := "all";
      searchQuery := "";
    }
  }

  lemma {:induction false} SubsequenceLength(a: seq<ResourceWithContext>, b: seq<ResourceWithContext>)
    requires IsSubsequence(a, b)
    ensures |a| <= |b|
    decreases |b|
  {
    if a != [] {
      if a[|a| - 1] == b[|b| - 1] && IsSubsequence(a[..|a| - 1], b[..|b| - 1]) {
        SubsequenceLength(a[..|a| - 1], b[..|b| - 1]);
      } else {
        SubsequenceLength(a, b[..|b| - 1]);
      }
    }
  }

  lemma {:induction false} SubsequenceTransitive(a: seq<ResourceWithContext>, b: seq<ResourceWithContext>, c: seq<ResourceWithContext>)
    requires IsSubsequence(a, b) && IsSubsequence(b, c)
    ensures IsSubsequence(a, c)
    decreases |c|
  {
    if a != [] {
      var a', b', c' := a[..|a| - 1], b[..|b| - 1], c[..|c| - 1];
      if b[|b| - 1] == c[|c| - 1] && IsSubsequence(b', c') {
        if a[|a| - 1] == b[|b| - 1] && IsSubsequence(a', b') {
          SubsequenceTransitive(a', b', c');
        } else {
          SubsequenceTransitive(a, b', c');
        }
      } else {
        SubsequenceTransitive(a, b, c');
      }
    }
  }

  /** A one-character query counts as a filter for `hasFilters` but narrows nothing. */
  lemma OneCharacterQueryShowsEverything(resources: seq<ResourceWithContext>, searchQuery: string)
    requires |searchQuery| == 1
    ensures FilterBySearch(resources, searchQuery) == resources
  {
  }
}
