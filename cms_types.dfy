/** The content records of the CMS (lib/types/cms.ts), as plain values. Timestamps
    (`createdAt`, `updatedAt`, `publishedAt`), media objects and the module-to-phase
    back-reference are not part of this model. An optional relation (`modules?.data`,
    `resources?.data`) is an `Option` of a list: `None` is a relation that was not populated. */
module CmsTypes {
  import opened Wrappers
  import opened I18n

  /** The file types the content schema enumerates. The field itself holds a string,
      since records come from JSON and nothing checks them on the way in. */
  const KnownFileTypes: seq<string> := ["PDF", "Excel", "Word", "Other"]

  datatype Resource = Resource(
    id: int,
    title: string,
    description: Option<string>,
    fileUrl: Option<string>,
    fileType: string,
    fileSize: Option<string>,
    order: Option<int>,
    locale: Locale,
    /** slug of the owning module, when the `module` relation was populated */
    moduleSlug: Option<string>)

  datatype Module = Module(
    id: int,
    title: string,
    slug: string,
    summary: string,
    videoUrl: Option<string>,
    videoSubtitleUrlEn: Option<string>,
    videoSubtitleUrlAr: Option<string>,
    keyTakeaways: Option<string>,
    order: int,
    locale: Locale,
    resources: Option<seq<Resource>>)

  datatype Phase = Phase(
    id: int,
    title: string,
    slug: string,
    description: string,
    order: int,
    phaseNumber: int,
    headerVideoUrl: Option<string>,
    locale: Locale,
    modules: Option<seq<Module>>)

  datatype Testimonial = Testimonial(
    id: int,
    name: string,
    quote: string,
    role: Option<string>,
    order: int,
    locale: Locale)

  datatype SocialLink = SocialLink(platform: string, url: string)

  datatype Settings = Settings(
    id: int,
    siteTitle: string,
    siteTitleAr: Option<string>,
    heroHeadline: string,
    heroHeadlineAr: Option<string>,
    heroDescription: string,
    heroDescriptionAr: Option<string>,
    heroVideoUrl: Option<string>,
    footerText: Option<string>,
    footerTextAr: Option<string>,
    socialLinks: Option<seq<SocialLink>>,
    locale: Locale)

  /** The modules of a phase, or none when the relation was not populated (`modules?.data || []`). */
  function ModulesOf(p: Phase): seq<Module> {
    p.modules.GetOr([])
  }

  function ResourcesOf(m: Module): seq<Resource> {
    m.resources.GetOr([])
  }

  /** Every module of every phase, phase by phase, in order. */
  function AllModules(phases: seq<Phase>): seq<Module> {
    if phases == [] then [] else AllModules(phases[..|phases| - 1]) + ModulesOf(phases[|phases| - 1])
  }

  lemma AllModulesAppend(phases: seq<Phase>, p: Phase)
    ensures AllModules(phases + [p]) == AllModules(phases) + ModulesOf(p)
  {
    assert (phases + [p])[..|phases|] == phases;
  }

  /** JavaScript truthiness of an optional string: present and non-empty. */
  predicate Truthy(s: Option<string>) {
    s.Some? && s.value != ""
  }
}
