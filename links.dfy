/** How the site's links relate across components: the cards, the search results and the sitemap
    agree on the page of a phase and of a module, while the revalidation webhook invalidates the
    plural `/phases/` and `/modules/` paths, which no link points at. */
module Links {
  import opened Wrappers
  import opened CmsTypes
  import PhaseCard
  import ModuleCard
  import Sitemap
  import Search
  import SearchResults
  import Revalidate

  /** The phase card, a phase search result and the sitemap name the same phase page. */
  lemma PhaseLinksAgree(locale: string, p: Phase, score: real)
    ensures PhaseCard.Href(locale, p.slug) == Sitemap.PhasePath(locale, p)
    ensures PhaseCard.Href(locale, p.slug)
      == SearchResults.ResultHref(locale, Search.SearchResult(Search.PhaseItemOf(p), score))
  {
  }

  /** The module card and the sitemap name the same module page, under its phase. */
  lemma ModuleLinksAgree(locale: string, p: Phase, m: Module)
    ensures ModuleCard.Href(locale, p.slug, m.slug) == Sitemap.ModulePath(locale, p, m)
  {
  }

  /** The second character after `/<locale>/phase` is `s` in the revalidated path and `/` in a
      link, so the two never coincide. */
  lemma RevalidatedPhasePathIsNotALink(locale: string, slug: string, p: Phase)
    requires Truthy(Some(slug))
    ensures Revalidate.LocalePaths("phase", Some(slug), locale)[1] != PhaseCard.Href(locale, p.slug)
  {
    var revalidated := "/" + locale + "/phases/" + slug;
    var link := "/" + locale + "/phase/" + p.slug;
    var k := |locale| + 7;
    assert revalidated[k] == 's';
    assert link[k] == '/';
  }

  /** Likewise `/modules/` against a module card's `/phase/…/module/…`. */
  lemma RevalidatedModulePathIsNotALink(locale: string, slug: string, phaseSlug: string)
    requires Truthy(Some(slug))
    ensures Revalidate.LocalePaths("module", Some(slug), locale)[1] != ModuleCard.Href(locale, phaseSlug, slug)
  {
    var revalidated := "/" + locale + "/modules/" + slug;
    var link := "/" + locale + "/phase/" + phaseSlug + "/module/" + slug;
    var k := |locale| + 2;
    assert revalidated[k] == 'm';
    assert link[k] == 'p';
  }
}
