/** The sitemap (app/sitemap.ts): the two locale landing pages, then a route per phase and per
    module of the English and of the Arabic phase lists. Modification dates are not part of this
    model; a phase list that could not be fetched is `None`. */
module Sitemap {
  import opened Wrappers
  import opened Seqs
  import opened CmsTypes

  const DefaultSiteUrl: string := "https://toolkit.fiftyfifty.org"

  datatype Frequency = Monthly | Weekly

  /** A sitemap entry with its English and Arabic alternates. */
  datatype Entry = Entry(url: string, changeFrequency: Frequency, priority: real, alternateEn: string, alternateAr: string)

  /** `process.env.NEXT_PUBLIC_SITE_URL || 'https://toolkit.fiftyfifty.org'`. */
  function BaseUrl(siteUrl: Option<string>): string {
    if Truthy(siteUrl) then siteUrl.value else DefaultSiteUrl
  }

  function StaticRoutes(base: string): seq<Entry> {
    [Entry(base + "/en", Monthly, 1.0, base + "/en", base + "/ar"),
     Entry(base + "/ar", Monthly, 1.0, base + "/en", base + "/ar")]
  }

  function PhasePath(loc: string, p: Phase): string {
    "/" + loc + "/phase/" + p.slug
  }

  function PhaseRoute(base: string, loc: string, p: Phase): Entry {
    Entry(base + PhasePath(loc, p), Weekly, 0.8, base + PhasePath("en", p), base + PhasePath("ar", p))
  }

  function PhaseRoutes(base: string, loc: string, phases: seq<Phase>): seq<Entry> {
    Map(phases, p => PhaseRoute(base, loc, p))
  }

  function ModulePath(loc: string, p: Phase, m: Module): string {
    "/" + loc + "/phase/" + p.slug + "/module/" + m.slug
  }

  function ModuleRoute(base: string, loc: string, p: Phase, m: Module): Entry {
    Entry(base + ModulePath(loc, p, m), Weekly, 0.7, base + ModulePath("en", p, m), base + ModulePath("ar", p, m))
  }

  function ModuleRoutesOf(base: string, loc: string, p: Phase): seq<Entry> {
    Map(ModulesOf(p), m => ModuleRoute(base, loc, p, m))
  }

  /** The module routes of a locale: phase by phase, module by module. */
  function ModuleRoutes(base: string, loc: string, phases: seq<Phase>): seq<Entry> {
    if phases == [] then []
    else ModuleRoutes(base, loc, phases[..|phases| - 1]) + ModuleRoutesOf(base, loc, phases[|phases| - 1])
  }

  /** The sitemap for the two fetched phase lists. */
  function SitemapOf(siteUrl: Option<string>, phasesEn: Option<seq<Phase>>, phasesAr: Option<seq<Phase>>): seq<Entry> {
    var base := BaseUrl(siteUrl);
    var en, ar := phasesEn.GetOr([]), phasesAr.GetOr([]);
    StaticRoutes(base) + PhaseRoutes(base, "en", en) + PhaseRoutes(base, "ar", ar)
    + ModuleRoutes(base, "en", en) + ModuleRoutes(base, "ar", ar)
  }

  /** One module route per module. */
  lemma {:induction false} ModuleRoutesSize(base: string, loc: string, phases: seq<Phase>)
    ensures |ModuleRoutes(base, loc, phases)| == |AllModules(phases)|
  {
    if phases != [] {
      ModuleRoutesSize(base, loc, phases[..|phases| - 1]);
    }
  }

  /** Two static routes, one per phase and one per module of each locale. */
  lemma SitemapSize(siteUrl: Option<string>, phasesEn: Option<seq<Phase>>, phasesAr: Option<seq<Phase>>)
    ensures var en, ar := phasesEn.GetOr([]), phasesAr.GetOr([]);
      |SitemapOf(siteUrl, phasesEn, phasesAr)| == 2 + |en| + |ar| + |AllModules(en)| + |AllModules(ar)|
  {
    var base := BaseUrl(siteUrl);
    ModuleRoutesSize(base, "en", phasesEn.GetOr([]));
    ModuleRoutesSize(base, "ar", phasesAr.GetOr([]));
  }

  /** The landing pages always come first, even when both fetches failed; then the phase routes. */
  lemma SitemapLayout(siteUrl: Option<string>, phasesEn: Option<seq<Phase>>, phasesAr: Option<seq<Phase>>)
    ensures var s, base := SitemapOf(siteUrl, phasesEn, phasesAr), BaseUrl(siteUrl);
      && s[..2] == StaticRoutes(base)
      && s[0].url == base + "/en" && s[1].url == base + "/ar"
      && (forall i :: 0 <= i < |phasesEn.GetOr([])| ==>
            s[2 + i].url == base + "/en/phase/" + phasesEn.GetOr([])[i].slug
            && s[2 + i].alternateAr == base + "/ar/phase/" + phasesEn.GetOr([])[i].slug)
    ensures phasesEn.None? && phasesAr.None? ==> SitemapOf(siteUrl, phasesEn, phasesAr) == StaticRoutes(BaseUrl(siteUrl))
  {
    var base := BaseUrl(siteUrl);
    var en := phasesEn.GetOr([]);
    var s := SitemapOf(siteUrl, phasesEn, phasesAr);
    forall i | 0 <= i < |en|
      ensures s[2 + i].url == base + "/en/phase/" + en[i].slug
      ensures s[2 + i].alternateAr == base + "/ar/phase/" + en[i].slug
    {
      assert s[2 + i] == PhaseRoutes(base, "en", en)[i];
      assert base + PhasePath("en", en[i]) == base + "/en/phase/" + en[i].slug;
      assert base + PhasePath("ar", en[i]) == base + "/ar/phase/" + en[i].slug;
    }
  }

  /** Each module route of a locale is a module of one of its phases, under that phase's slug. */
  lemma {:induction false} ModuleRoutesAreModules(base: string, loc: string, phases: seq<Phase>)
    ensures forall e :: e in ModuleRoutes(base, loc, phases) ==>
      exists p, m :: p in phases && m in ModulesOf(p) && e == ModuleRoute(base, loc, p, m)
  {
    if phases != [] {
      var init, p := phases[..|phases| - 1], phases[|phases| - 1];
      ModuleRoutesAreModules(base, loc, init);
      forall e | e in ModuleRoutesOf(base, loc, p)
        ensures exists m :: m in ModulesOf(p) && e == ModuleRoute(base, loc, p, m)
      {
        var j :| 0 <= j < |ModuleRoutesOf(base, loc, p)| && ModuleRoutesOf(base, loc, p)[j] == e;
        assert ModulesOf(p)[j] in ModulesOf(p);
      }
    }
  }

  /** `sitemap`: the static and phase routes, then the two nested loops for the module routes. */
  method BuildSitemap(siteUrl: Option<string>, phasesEn: Option<seq<Phase>>, phasesAr: Option<seq<Phase>>)
    returns (entries: seq<Entry>)
    ensures entries == SitemapOf(siteUrl, phasesEn, phasesAr)
  {
    var base := BaseUrl(siteUrl);
    var en, ar := phasesEn.GetOr([]), phasesAr.GetOr([]);
    var moduleRoutesEn := CollectModuleRoutes(base, "en", en);
    var moduleRoutesAr := CollectModuleRoutes(base, "ar", ar);
    entries := StaticRoutes(base) + PhaseRoutes(base, "en", en) + PhaseRoutes(base, "ar", ar)
      + moduleRoutesEn + moduleRoutesAr;
  }

  method CollectModuleRoutes(base: string, loc: string, phases: seq<Phase>) returns (routes: seq<Entry>)
    ensures routes == ModuleRoutes(base, loc, phases)
  {
    routes := [];
    var i := 0;
    while i < |phases|
      invariant 0 <= i <= |phases|
      invariant routes == ModuleRoutes(base, loc, phases[..i])
    {
      var phase := phases[i];
      var modules := ModulesOf(phase);
      ghost var before := routes;
      var j := 0;
      while j < |modules|
        invariant 0 <= j <= |modules|
        invariant routes == before + ModuleRoutesOf(base, loc, phase)[..j]
      {
        routes := routes + [ModuleRoute(base, loc, phase, modules[j])];
        assert ModuleRoutesOf(base, loc, phase)[..j + 1]
            == ModuleRoutesOf(base, loc, phase)[..j] + [ModuleRoute(base, loc, phase, modules[j])];
        j := j + 1;
      }
      assert ModuleRoutesOf(base, loc, phase)[..j] == ModuleRoutesOf(base, loc, phase);
      assert phases[..i + 1][..i] == phases[..i];
      i := i + 1;
    }
    assert phases[..i] == phases;
  }
}
