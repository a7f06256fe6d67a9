/** The topic classifier and the category selection of the filter hook (lib/hooks/useFilter.ts).
    Phases and modules are tagged by keyword rules over their text; a selection of categories,
    with `All` as the "no filter" sentinel, decides which phases and modules are shown. */
module TopicFilter {
  import opened Wrappers
  import opened Strings
  import opened Seqs
  import opened CmsTypes

  datatype Category = All | Strategy | Messaging | TeamBuilding | Planning | Communication | Leadership

  /** One keyword rule: when any of its keywords occurs in the text, its tags are pushed. */
  datatype Rule = Rule(keywords: seq<string>, tags: seq<Category>)

  /** The four rules, in the order they are tried (the regular expressions are alternations of
      lower-case keywords matched without regard to case). */
  const Rules: seq<Rule> := [
    Rule(["strateg", "plan", "approach", "vision", "goal"], [Strategy, Planning]),
    Rule(["messag", "communicat", "brand", "market", "story"], [Messaging, Communication]),
    Rule(["team", "collaborat", "group", "member", "staff"], [TeamBuilding]),
    Rule(["lead", "manag", "director", "coordinat"], [Leadership])
  ]

  /** The order in which the rules emit their tags. */
  const RuleOrder: seq<Category> := [Strategy, Planning, Messaging, Communication, TeamBuilding, Leadership]

  /** A keyword alternation matches when one of its keywords occurs in the text. */
  predicate MatchesAny(text: string, keywords: seq<string>) {
    exists k :: k in keywords && Contains(text, k)
  }

  /** The lower-cased `title + " " + body` that the rules are tested against. */
  function RuleText(title: string, body: string): string {
    Lower(title + " " + body)
  }

  /** The tags pushed by the rules that match, rule by rule. */
  function Tags(text: string, rules: seq<Rule>): seq<Category> {
    if rules == [] then []
    else
      var last := rules[|rules| - 1];
      Tags(text, rules[..|rules| - 1]) + (if MatchesAny(text, last.keywords) then last.tags else [])
  }

  /** All tags of all rules, in rule order. */
  function AllTags(rules: seq<Rule>): seq<Category> {
    if rules == [] then [] else AllTags(rules[..|rules| - 1]) + rules[|rules| - 1].tags
  }

  /** A tag is pushed exactly when some matching rule carries it. */
  lemma {:induction false} TagsMembership(text: string, rules: seq<Rule>, c: Category)
    ensures c in Tags(text, rules) <==> exists i :: 0 <= i < |rules| && MatchesAny(text, rules[i].keywords) && c in rules[i].tags
  {
    if rules != [] {
      var init := rules[..|rules| - 1];
      TagsMembership(text, init, c);
      if exists i :: 0 <= i < |rules| && MatchesAny(text, rules[i].keywords) && c in rules[i].tags {
        var i :| 0 <= i < |rules| && MatchesAny(text, rules[i].keywords) && c in rules[i].tags;
        if i < |init| {
          assert init[i] == rules[i];
        }
      }
    }
  }

  /** The pushed tags keep the order of the rules. */
  lemma {:induction false} TagsInRuleOrder(text: string, rules: seq<Rule>)
    ensures IsSubsequence(Tags(text, rules), AllTags(rules))
  {
    if rules != [] {
      var init, last := rules[..|rules| - 1], rules[|rules| - 1];
      TagsInRuleOrder(text, init);
      SubsequenceConcat(Tags(text, init), AllTags(init),
                        if MatchesAny(text, last.keywords) then last.tags else [], last.tags);
    }
  }

  lemma RuleOrderIsAllTags()
    ensures AllTags(Rules) == RuleOrder && NoDuplicates(RuleOrder)
  {
    assert Rules[..1][..0] == [];
    assert AllTags(Rules[..1]) == Rules[0].tags;
    assert Rules[..2][..1] == Rules[..1];
    assert AllTags(Rules[..2]) == Rules[0].tags + Rules[1].tags;
    assert Rules[..3][..2] == Rules[..2];
    assert AllTags(Rules[..3]) == Rules[0].tags + Rules[1].tags + Rules[2].tags;
    assert Rules[..3] == Rules[..|Rules| - 1];
  }

  /** The tags pushed by the four rules, given which of them matched. */
  function TagList(r1: bool, r2: bool, r3: bool, r4: bool): seq<Category> {
    (if r1 then [Strategy, Planning] else [])
    + (if r2 then [Messaging, Communication] else [])
    + (if r3 then [TeamBuilding] else [])
    + (if r4 then [Leadership] else [])
  }

  lemma TagsOfRules(text: string)
    ensures Tags(text, Rules) == TagList(MatchesAny(text, Rules[0].keywords), MatchesAny(text, Rules[1].keywords),
                                         MatchesAny(text, Rules[2].keywords), MatchesAny(text, Rules[3].keywords))
  {
    assert Rules[..1][..0] == [];
    assert Tags(text, Rules[..1]) == (if MatchesAny(text, Rules[0].keywords) then Rules[0].tags else []);
    assert Rules[..2][..1] == Rules[..1];
    assert Tags(text, Rules[..2]) == Tags(text, Rules[..1]) + (if MatchesAny(text, Rules[1].keywords) then Rules[1].tags else []);
    assert Rules[..3][..2] == Rules[..2];
    assert Tags(text, Rules[..3]) == Tags(text, Rules[..2]) + (if MatchesAny(text, Rules[2].keywords) then Rules[2].tags else []);
    assert Rules[..3] == Rules[..|Rules| - 1];
  }

  lemma TagListMembers(r1: bool, r2: bool, r3: bool, r4: bool)
    ensures var t := TagList(r1, r2, r3, r4);
      && All !in t
      && (Strategy in t <==> r1) && (Planning in t <==> r1)
      && (Messaging in t <==> r2) && (Communication in t <==> r2)
      && (TeamBuilding in t <==> r3)
      && (Leadership in t <==> r4)
      && (t == [] <==> !(r1 || r2 || r3 || r4))
      && t != [Strategy]
  {
    var t := TagList(r1, r2, r3, r4);
    if r1 {
      assert t[1] == Planning;
    }
  }

  /** The tags of the rules that match `text`, or the fallback `[Strategy]` when none matches. */
  function CategorizeText(text: string): (r: seq<Category>)
    ensures r != []
  {
    var tags := Tags(text, Rules);
    if tags == [] then [Strategy] else tags
  }

  /** The classifier's tags come without repeats and in rule order, and never include `All`. */
  lemma CategorizeTextShape(text: string)
    ensures var r := CategorizeText(text);
      All !in r && NoDuplicates(r) && IsSubsequence(r, RuleOrder)
  {
    var tags := Tags(text, Rules);
    RuleOrderIsAllTags();
    TagsInRuleOrder(text, Rules);
    SubsequenceNoDuplicates(tags, RuleOrder);
    SubsequenceMembers(tags, RuleOrder);
    if tags == [] {
      assert RuleOrder[..1] == [Strategy];
      assert IsSubsequence([Strategy], RuleOrder[..1]);
      SubsequenceExtend([Strategy], RuleOrder[..1], RuleOrder[1..]);
      assert RuleOrder[..1] + RuleOrder[1..] == RuleOrder;
    }
  }

  /** Which tags the classifier gives: those of every matching rule and nothing else, and
      `[Strategy]` exactly when no rule matches. */
  lemma CategorizeTextMembers(text: string)
    ensures var r := CategorizeText(text);
      var r1, r2, r3, r4 := MatchesAny(text, Rules[0].keywords), MatchesAny(text, Rules[1].keywords),
                            MatchesAny(text, Rules[2].keywords), MatchesAny(text, Rules[3].keywords);
      && (Planning in r <==> r1)
      && (Messaging in r <==> r2) && (Communication in r <==> r2)
      && (TeamBuilding in r <==> r3)
      && (Leadership in r <==> r4)
      && (Strategy in r <==> r1 || !(r2 || r3 || r4))
      && (r == [Strategy] <==> !(r1 || r2 || r3 || r4))
  {
    TagsOfRules(text);
    TagListMembers(MatchesAny(text, Rules[0].keywords), MatchesAny(text, Rules[1].keywords),
                   MatchesAny(text, Rules[2].keywords), MatchesAny(text, Rules[3].keywords));
  }

  /** The shared body of `categorizePhase` and `categorizeModule`: the rules are tried on the
      lower-cased `title + " " + body`. */
  function Categorize(title: string, body: string): seq<Category> {
    CategorizeText(RuleText(title, body))
  }

  /** `categorizePhase`: the rules over title and description. */
  function CategorizePhase(p: Phase): seq<Category> {
    Categorize(p.title, p.description)
  }

  /** `categorizeModule`: the same rules over title and summary. */
  function CategorizeModule(m: Module): seq<Category> {
    Categorize(m.title, m.summary)
  }

  /** The classification ignores case: upper-casing letters in the text changes no tag. */
  lemma CategorizeIgnoresCase(title: string, body: string)
    ensures Categorize(Lower(title), Lower(body)) == Categorize(title, body)
  {
    LowerDistributes(title, " " + body);
    LowerDistributes(" ", body);
    LowerDistributes(Lower(title), " " + Lower(body));
    LowerDistributes(" ", Lower(body));
    LowerIdempotent(title);
    LowerIdempotent(body);
    assert RuleText(Lower(title), Lower(body)) == RuleText(title, body);
  }

  /** `selectedCategories.some(cat => tags.includes(cat))`. */
  predicate Intersects(tags: seq<Category>, selected: seq<Category>) {
    exists c :: c in selected && c in tags
  }

  /** The shape every reachable selection has: non-empty, duplicate-free, and either exactly
      `[All]` or free of `All`. */
  predicate WellFormedSelection(s: seq<Category>) {
    s != [] && NoDuplicates(s) && (All in s ==> s == [All])
  }

  /** The condition `cat => cat !== category` that removes one category. */
  function Except(c: Category): Category -> bool {
    x => x != c
  }

  /** The state update of `toggleCategory`. */
  function Toggled(prev: seq<Category>, c: Category, multiSelect: bool): seq<Category> {
    if c == All then [All]
    else if All in prev then [c]
    else if multiSelect then
      if c in prev then
        var rest := Filter(prev, Except(c));
        if rest == [] then [All] else rest
      else prev + [c]
    else [c]
  }

  /** Every toggle keeps a well-formed selection well-formed. */
  lemma ToggledWellFormed(prev: seq<Category>, c: Category, multiSelect: bool)
    requires WellFormedSelection(prev)
    ensures WellFormedSelection(Toggled(prev, c, multiSelect))
  {
    if c != All && All !in prev && multiSelect && c in prev {
      FilterNoDuplicates(prev, Except(c));
      FilterMembers(prev, Except(c));
    }
  }

  /** Selecting `All`, or any category in single-select mode or while `All` is selected,
      leaves exactly that one category selected. */
  lemma ToggledReplaces(prev: seq<Category>, c: Category, multiSelect: bool)
    requires c == All || All in prev || !multiSelect
    ensures Toggled(prev, c, multiSelect) == [c]
  {
  }

  /** In multi-select mode a concrete category flips its membership and the others keep theirs;
      emptying the selection restores `[All]`. */
  lemma ToggledFlips(prev: seq<Category>, c: Category, d: Category)
    requires WellFormedSelection(prev) && All !in prev && c != All
    ensures var r := Toggled(prev, c, true);
      && (c in r <==> c !in prev)
      && (d != c && d != All ==> (d in r <==> d in prev))
      && (prev == [c] ==> r == [All])
      && (All in r <==> prev == [c])
  {
    FilterMembers(prev, Except(c));
    if c in prev && prev != [c] {
      var e := if prev[0] != c then prev[0] else prev[|prev| - 1];
      assert e in prev && e != c;
    }
  }

  /** In multi-select mode, toggling a category that is not selected twice restores the selection. */
  lemma ToggleTwiceRestores(prev: seq<Category>, c: Category)
    requires WellFormedSelection(prev) && All !in prev && c != All && c !in prev
    ensures Toggled(Toggled(prev, c, true), c, true) == prev
  {
    FilterAppend(prev, c, Except(c));
    FilterKeepsAll(prev, Except(c));
  }

  /** The selection state of the filter hook. */
  class FilterState {
    const multiSelect: bool
    var selectedCategories: seq<Category>

    ghost predicate Valid()
      reads this
    {
      WellFormedSelection(selectedCategories)
    }

    constructor (multiSelect: bool)
      ensures Valid() && this.multiSelect == multiSelect && selectedCategories == [All]
    {
      this.multiSelect := multiSelect;
      selectedCategories := [All];
    }

    method ToggleCategory(category: Category)
      requires Valid()
      modifies this
      ensures Valid()
      ensures selectedCategories == Toggled(old(selectedCategories), category, multiSelect)
    {
      ToggledWellFormed(selectedCategories, category, multiSelect);
      if category == All {
        selectedCategories := [All];
        return;
      }
      var prev := selectedCategories;
      if All in prev {
        selectedCategories := [category];
      } else if multiSelect {
        if category in prev {
          var newCategories := Filter(prev, Except(category));
          selectedCategories := if newCategories == [] then [All] else newCategories;
        } else {
          selectedCategories := prev + [category];
        }
      } else {
        selectedCategories := [category];
      }
    }

    method ClearFilters()
      modifies this
      ensures Valid() && selectedCategories == [All]
    {
      selectedCategories := [All];
    }

    /** `isCategorySelected`. */
    predicate IsCategorySelected(category: Category)
      reads this
    {
      category in selectedCategories
    }

    /** `hasActiveFilters`: a category other than the sentinel is selected. */
    function HasActiveFilters(): (r: bool)
      reads this
      requires Valid()
      ensures r <==> selectedCategories != [All]
      ensures r <==> !IsCategorySelected(All)
    {
      !(All in selectedCategories)
    }
  }

  /** A phase or module is shown when one of its tags is selected. */
  function KeepPhase(selected: seq<Category>): Phase -> bool {
    p => Intersects(CategorizePhase(p), selected)
  }

  function KeepModule(selected: seq<Category>): Module -> bool {
    m => Intersects(CategorizeModule(m), selected)
  }

  /** A kept phase shows only its matching modules; an unpopulated module list stays unpopulated. */
  function TrimModules(p: Phase, selected: seq<Category>): Phase {
    if p.modules.Some? then p.(modules := Some(Filter(p.modules.value, KeepModule(selected)))) else p
  }

  /** `filteredPhases`. */
  function FilteredPhases(phases: seq<Phase>, selected: seq<Category>): seq<Phase> {
    if All in selected then phases
    else Map(Filter(phases, KeepPhase(selected)), p => TrimModules(p, selected))
  }

  /** A phase with its module list left out, to compare phases apart from their modules. */
  function WithoutModules(p: Phase): Phase {
    p.(modules := None)
  }

  lemma FilteredPhasesAll(phases: seq<Phase>, selected: seq<Category>)
    requires All in selected
    ensures FilteredPhases(phases, selected) == phases
  {
  }

  /** Without `All`: the shown phases are exactly the phases whose own tags meet the selection,
      in their original order, each with only its matching modules and nothing else changed. */
  lemma FilteredPhasesSpec(phases: seq<Phase>, selected: seq<Category>)
    requires All !in selected
    ensures var r := FilteredPhases(phases, selected);
      && |r| <= |phases|
      && (forall q :: q in r ==> exists p :: p in phases && Intersects(CategorizePhase(p), selected) && q == TrimModules(p, selected))
      && (forall p :: p in phases && Intersects(CategorizePhase(p), selected) ==> TrimModules(p, selected) in r)
      && IsSubsequence(Map(r, WithoutModules), Map(phases, WithoutModules))
  {
    var kept := Filter(phases, KeepPhase(selected));
    var r := FilteredPhases(phases, selected);
    FilterMembers(phases, KeepPhase(selected));
    forall q | q in r
      ensures exists p :: p in phases && Intersects(CategorizePhase(p), selected) && q == TrimModules(p, selected)
    {
      var i :| 0 <= i < |r| && r[i] == q;
      assert kept[i] in kept && KeepPhase(selected)(kept[i]);
    }
    forall p | p in phases && Intersects(CategorizePhase(p), selected)
      ensures TrimModules(p, selected) in r
    {
      assert KeepPhase(selected)(p);
      assert p in kept;
      var i :| 0 <= i < |kept| && kept[i] == p;
      assert r[i] == TrimModules(p, selected);
    }
    FilterIsSubsequence(phases, KeepPhase(selected));
    assert Map(r, WithoutModules) == Map(kept, WithoutModules);
    SubsequenceMap(kept, phases, WithoutModules);
  }

  lemma {:induction false} SubsequenceMap(a: seq<Phase>, b: seq<Phase>, f: Phase -> Phase)
    requires IsSubsequence(a, b)
    ensures IsSubsequence(Map(a, f), Map(b, f))
    decreases |b|
  {
    if a != [] && b != [] {
      assert Map(a, f)[..|a| - 1] == Map(a[..|a| - 1], f);
      assert Map(b, f)[..|b| - 1] == Map(b[..|b| - 1], f);
      if a[|a| - 1] == b[|b| - 1] && IsSubsequence(a[..|a| - 1], b[..|b| - 1]) {
        SubsequenceMap(a[..|a| - 1], b[..|b| - 1], f);
      } else {
        SubsequenceMap(a, b[..|b| - 1], f);
      }
    }
  }

  /** Trimming touches only the module list, and keeps exactly the matching modules in order. */
  lemma TrimModulesSpec(p: Phase, selected: seq<Category>)
    ensures WithoutModules(TrimModules(p, selected)) == WithoutModules(p)
    ensures TrimModules(p, selected).modules.Some? <==> p.modules.Some?
    ensures p.modules.Some? ==>
      var ms := TrimModules(p, selected).modules.value;
      && (forall m :: m in ms <==> m in p.modules.value && Intersects(CategorizeModule(m), selected))
      && IsSubsequence(ms, p.modules.value)
  {
    if p.modules.Some? {
      FilterMembers(p.modules.value, KeepModule(selected));
      FilterIsSubsequence(p.modules.value, KeepModule(selected));
    }
  }

  function PhaseHasTag(category: Category): Phase -> bool {
    p => category in CategorizePhase(p)
  }

  function ModuleHasTag(category: Category): Module -> bool {
    m => category in CategorizeModule(m)
  }

  /** `getCategoryCount`, as a closed form: for `All` the number of phases, otherwise the phases
      plus the modules (of every phase, shown or not) that carry the category. */
  function CategoryCount(phases: seq<Phase>, category: Category): nat {
    if category == All then |phases|
    else
      |Filter(phases, PhaseHasTag(category))| + |Filter(AllModules(phases), ModuleHasTag(category))|
  }

  /** `getCategoryCount`: a loop over the phases that counts each tagged phase, and for each phase
      a loop over its modules that counts each tagged module. */
  method GetCategoryCount(phases: seq<Phase>, category: Category) returns (count: nat)
    ensures count == CategoryCount(phases, category)
  {
    if category == All {
      return |phases|;
    }
    count := 0;
    var i := 0;
    while i < |phases|
      invariant 0 <= i <= |phases|
      invariant count == CategoryCount(phases[..i], category)
    {
      var phase := phases[i];
      if category in CategorizePhase(phase) {
        count := count + 1;
      }
      var moduleCount := CountTaggedModules(ModulesOf(phase), category);
      count := count + moduleCount;
      CountStep(phases, i, category);
      i := i + 1;
    }
    assert phases[..i] == phases;
  }

  /** The inner loop of `getCategoryCount`, over the modules of one phase. */
  method CountTaggedModules(modules: seq<Module>, category: Category) returns (count: nat)
    ensures count == |Filter(modules, ModuleHasTag(category))|
  {
    count := 0;
    var j := 0;
    while j < |modules|
      invariant 0 <= j <= |modules|
      invariant count == |Filter(modules[..j], ModuleHasTag(category))|
    {
      var tagged := category in CategorizeModule(modules[j]);
      if tagged {
        count := count + 1;
      }
      FilterPrefixStep(modules, j, ModuleHasTag(category));
      assert ModuleHasTag(category)(modules[j]) == tagged;
      j := j + 1;
    }
    assert modules[..j] == modules;
  }

  lemma CountStep(phases: seq<Phase>, i: nat, category: Category)
    requires i < |phases| && category != All
    ensures CategoryCount(phases[..i + 1], category)
         == CategoryCount(phases[..i], category)
          + (if category in CategorizePhase(phases[i]) then 1 else 0) + |Filter(ModulesOf(phases[i]), ModuleHasTag(category))|
  {
    assert phases[..i + 1] == phases[..i] + [phases[i]];
    FilterAppend(phases[..i], phases[i], PhaseHasTag(category));
    AllModulesAppend(phases[..i], phases[i]);
    FilterConcat(AllModules(phases[..i]), ModulesOf(phases[i]), ModuleHasTag(category));
  }

  /** With one concrete category selected, the count is never below the number of phases shown. */
  lemma CountCoversShownPhases(phases: seq<Phase>, category: Category)
    requires category != All
    ensures |FilteredPhases(phases, [category])| <= CategoryCount(phases, category)
  {
    FilterExtensional(phases, KeepPhase([category]), PhaseHasTag(category));
  }
}
