/** The search hook (lib/hooks/useSearch.ts): phases and their modules flattened into searchable
    items, and a query gate in front of the fuzzy matcher. The matcher (Fuse.js) is a parameter:
    for a query it returns hits, each naming one of the items by index, with an optional score. */
module Search {
  import opened Wrappers
  import opened Seqs
  import opened CmsTypes

  datatype ItemType = PhaseItem | ModuleItem

  /** `SearchableItem`: module items also carry their phase's slug and title. */
  datatype SearchableItem = SearchableItem(
    id: int,
    itemType: ItemType,
    title: string,
    description: string,
    slug: string,
    phaseSlug: Option<string>,
    phaseTitle: Option<string>)

  /** One result of the matcher: the index of the item in the searchable data, and its score. */
  datatype Hit = Hit(refIndex: nat, score: Option<real>)

  /** `SearchResult`: the item and its score, a missing score read as 0. The match positions are
      not part of this model. */
  datatype SearchResult = SearchResult(item: SearchableItem, score: real)

  const DefaultThreshold: real := 0.3
  const DefaultMinCharacters: int := 2

  function PhaseItemOf(p: Phase): SearchableItem {
    SearchableItem(p.id, PhaseItem, p.title, p.description, p.slug, None, None)
  }

  function ModuleItemOf(p: Phase, m: Module): SearchableItem {
    SearchableItem(m.id, ModuleItem, m.title, m.summary, m.slug, Some(p.slug), Some(p.title))
  }

  /** The items of one phase: the phase, then each of its modules. */
  function PhaseItems(p: Phase): seq<SearchableItem> {
    [PhaseItemOf(p)] + Map(ModulesOf(p), m => ModuleItemOf(p, m))
  }

  /** `searchableData`, phase by phase. */
  function SearchableData(phases: seq<Phase>): seq<SearchableItem> {
    if phases == [] then [] else SearchableData(phases[..|phases| - 1]) + PhaseItems(phases[|phases| - 1])
  }

  /** One item per phase and one per module. */
  lemma {:induction false} SearchableDataSize(phases: seq<Phase>)
    ensures |SearchableData(phases)| == |phases| + |AllModules(phases)|
  {
    if phases != [] {
      SearchableDataSize(phases[..|phases| - 1]);
    }
  }

  /** Every item is a phase item without phase context, or a module item of some phase, carrying
      that phase's slug and title and the module's summary as its description. */
  lemma {:induction false} SearchableDataItems(phases: seq<Phase>)
    ensures forall item :: item in SearchableData(phases) ==>
      || (exists p :: p in phases && item == PhaseItemOf(p))
      || (exists p, m :: p in phases && m in ModulesOf(p) && item == ModuleItemOf(p, m))
  {
    if phases != [] {
      var init, p := phases[..|phases| - 1], phases[|phases| - 1];
      SearchableDataItems(init);
      forall item | item in PhaseItems(p)
        ensures item == PhaseItemOf(p) || exists m :: m in ModulesOf(p) && item == ModuleItemOf(p, m)
      {
        if item != PhaseItemOf(p) {
          var i :| 0 <= i < |PhaseItems(p)| && PhaseItems(p)[i] == item;
          assert ModulesOf(p)[i - 1] in ModulesOf(p);
        }
      }
    }
  }

  /** The body of `searchableData`: for each phase, push the phase, then its modules. */
  method BuildSearchableData(phases: seq<Phase>) returns (items: seq<SearchableItem>)
    ensures items == SearchableData(phases)
  {
    items := [];
    var i := 0;
    while i < |phases|
      invariant 0 <= i <= |phases|
      invariant items == SearchableData(phases[..i])
    {
      var phase := phases[i];
      ghost var before := items;
      items := items + [PhaseItemOf(phase)];
      var modules := ModulesOf(phase);
      var j := 0;
      while j < |modules|
        invariant 0 <= j <= |modules|
        invariant items == before + PhaseItems(phase)[..j + 1]
      {
        items := items + [ModuleItemOf(phase, modules[j])];
        assert PhaseItems(phase)[..j + 2] == PhaseItems(phase)[..j + 1] + [ModuleItemOf(phase, modules[j])];
        j := j + 1;
      }
      assert PhaseItems(phase)[..j + 1] == PhaseItems(phase);
      assert phases[..i + 1][..i] == phases[..i];
      i := i + 1;
    }
    assert phases[..i] == phases;
  }

  predicate HitsInRange(hits: seq<Hit>, n: nat) {
    forall h :: h in hits ==> h.refIndex < n
  }

  /** The search runs only for a non-empty query of at least `minCharacters` characters. */
  predicate RunsSearch(query: string, minCharacters: int) {
    query != "" && |query| >= minCharacters
  }

  function ToResult(items: seq<SearchableItem>, h: Hit): SearchResult
    requires h.refIndex < |items|
  {
    SearchResult(items[h.refIndex], h.score.GetOr(0.0))
  }

  /** `results`: nothing below the gate (the matcher is not consulted); otherwise the matcher's
      hits, in its order, as items with scores. */
  function Results(items: seq<SearchableItem>, query: string, minCharacters: int,
                   matcher: string -> seq<Hit>): (r: seq<SearchResult>)
    requires RunsSearch(query, minCharacters) ==> HitsInRange(matcher(query), |items|)
    ensures !RunsSearch(query, minCharacters) ==> r == []
    ensures RunsSearch(query, minCharacters) ==> |r| == |matcher(query)|
    ensures forall i :: 0 <= i < |r| ==> r[i].item in items
  {
    if query == "" || |query| < minCharacters then []
    else
      var hits := matcher(query);
      seq(|hits|, i requires 0 <= i < |hits| => ToResult(items, hits[i]))
  }

  /** Each result is the item its hit names, with the hit's score, or 0 without one. */
  lemma ResultsFollowHits(items: seq<SearchableItem>, query: string, minCharacters: int,
                          matcher: string -> seq<Hit>, i: nat)
    requires RunsSearch(query, minCharacters) && HitsInRange(matcher(query), |items|)
    requires i < |matcher(query)|
    ensures var h := matcher(query)[i];
      Results(items, query, minCharacters, matcher)[i] == SearchResult(items[h.refIndex], h.score.GetOr(0.0))
  {
  }

  /** The state of `useSearch`: the phases, the options and the query. */
  class SearchState {
    const phases: seq<Phase>
    const threshold: real
    const minCharacters: int
    var searchQuery: string

    /** The options default to a threshold of 0.3 and a minimum of two characters. */
    constructor (phases: seq<Phase>, threshold: Option<real>, minCharacters: Option<int>)
      ensures this.phases == phases && searchQuery == ""
      ensures this.threshold == threshold.GetOr(DefaultThreshold)
      ensures this.minCharacters == minCharacters.GetOr(DefaultMinCharacters)
    {
      this.phases := phases;
      this.threshold := threshold.GetOr(DefaultThreshold);
      this.minCharacters := minCharacters.GetOr(DefaultMinCharacters);
      searchQuery := "";
    }

    function SearchResults(matcher: string -> seq<Hit>): seq<SearchResult>
      reads this
      requires RunsSearch(searchQuery, minCharacters) ==> HitsInRange(matcher(searchQuery), |SearchableData(phases)|)
    {
      Results(SearchableData(phases), searchQuery, minCharacters, matcher)
    }

    /** `hasResults`. */
    predicate HasResults(matcher: string -> seq<Hit>)
      reads this
      requires RunsSearch(searchQuery, minCharacters) ==> HitsInRange(matcher(searchQuery), |SearchableData(phases)|)
    {
      |SearchResults(matcher)| > 0
    }

    /** `isSearching`: the query has at least `minCharacters` characters. */
    predicate IsSearching()
      reads this
    {
      |searchQuery| >= minCharacters
    }

    method HandleSearch(query: string)
      modifies this
      ensures searchQuery == query
    {
      searchQuery := query;
    }

    /** `clearSearch`: the query becomes empty, and with it the results. */
    method ClearSearch()
      modifies this
      ensures searchQuery == ""
      ensures forall matcher: string -> seq<Hit> :: SearchResults(matcher) == []
    {
      searchQuery := "";
    }
  }

  /** Results are only ever shown while searching, and when the default minimum is in force, only
      while searching with a non-empty query. */
  lemma ResultsOnlyWhileSearching(s: SearchState, matcher: string -> seq<Hit>)
    requires RunsSearch(s.searchQuery, s.minCharacters) ==> HitsInRange(matcher(s.searchQuery), |SearchableData(s.phases)|)
    ensures s.HasResults(matcher) ==> s.IsSearching() && s.searchQuery != ""
    ensures s.minCharacters >= 1 ==> (s.IsSearching() <==> RunsSearch(s.searchQuery, s.minCharacters))
  {
  }
}
