/** The JSON-LD block (components/StructuredData.tsx): one object per kind of page data, and no
    block at all when the object would be empty. */
module StructuredData {
  import opened Wrappers
  import opened Seqs
  import opened I18n
  import opened CmsTypes

  const DefaultSiteUrl: string := "https://toolkit.fiftyfifty.org"
  const SchemaContext: string := "https://schema.org"

  datatype Kind = Organization | Website | Breadcrumb

  datatype Crumb = Crumb(name: string, url: string)

  /** The optional `data` prop. */
  datatype PageData = PageData(
    name: Option<string>,
    description: Option<string>,
    url: Option<string>,
    breadcrumbs: Option<seq<Crumb>>)

  datatype ListItem = ListItem(position: nat, name: string, item: string)

  /** The objects the component serialises; each also carries `@context: https://schema.org`. */
  datatype JsonLd =
    | OrganizationLd(name: string, url: string, logo: string, description: string,
                     sameAs: seq<string>, addressCountry: string)
    | WebsiteLd(name: string, url: string, description: string, inLanguage: string,
                urlTemplate: string, queryInput: string)
    | BreadcrumbListLd(itemListElement: seq<ListItem>)

  /** `process.env.NEXT_PUBLIC_SITE_URL || 'https://toolkit.fiftyfifty.org'`. */
  function BaseUrl(siteUrl: Option<string>): string {
    if Truthy(siteUrl) then siteUrl.value else DefaultSiteUrl
  }

  function OrganizationDescription(locale: Locale): string {
    if locale == Ar then "منظمة تعمل على بناء مجتمعات مستدامة من خلال المسؤولية الاجتماعية"
    else "Building sustainable communities through social responsibility"
  }

  function WebsiteDescription(locale: Locale): string {
    if locale == Ar then "منهجية شاملة ومنصة تعليمية لرواد الأعمال الاجتماعيين"
    else "A comprehensive methodology and learning platform for social entrepreneurs"
  }

  const SameAs: seq<string> := [
    "https://twitter.com/fiftyfifty",
    "https://facebook.com/fiftyfifty",
    "https://linkedin.com/company/fiftyfifty"]

  function OrganizationOf(base: string, locale: Locale): JsonLd {
    OrganizationLd("FiftyFifty", base, base + "/logo.png", OrganizationDescription(locale), SameAs, "SA")
  }

  /** `data?.x || default` for each field of the website object. */
  function WebsiteOf(base: string, data: Option<PageData>, locale: Locale): JsonLd {
    var name := if data.Some? && Truthy(data.value.name) then data.value.name.value else "FiftyFifty ToolKit";
    var url := if data.Some? && Truthy(data.value.url) then data.value.url.value else base;
    var description :=
      if data.Some? && Truthy(data.value.description) then data.value.description.value
      else WebsiteDescription(locale);
    WebsiteLd(name, url, description, Code(locale), base + "/search?q={search_term_string}",
              "required name=search_term_string")
  }

  /** The list item of the crumb at `index`: positions count from 1. */
  function ItemOf(base: string, crumbs: seq<Crumb>, index: nat): ListItem
    requires index < |crumbs|
  {
    ListItem(index + 1, crumbs[index].name, base + crumbs[index].url)
  }

  /** `data.breadcrumbs.map((crumb, index) => …)`. */
  function BreadcrumbItems(base: string, crumbs: seq<Crumb>): (r: seq<ListItem>)
    ensures |r| == |crumbs|
  {
    seq(|crumbs|, i requires 0 <= i < |crumbs| => ItemOf(base, crumbs, i))
  }

  /** The object for a page, or `None` when it would be `{}` and the component renders nothing:
      only a breadcrumb page without crumbs. */
  function StructuredDataOf(kind: Kind, data: Option<PageData>, locale: Locale, siteUrl: Option<string>): Option<JsonLd> {
    var base := BaseUrl(siteUrl);
    match kind
    case Organization => Some(OrganizationOf(base, locale))
    case Website => Some(WebsiteOf(base, data, locale))
    case Breadcrumb =>
      if data.Some? && data.value.breadcrumbs.Some? && |data.value.breadcrumbs.value| > 0 then
        Some(BreadcrumbListLd(BreadcrumbItems(base, data.value.breadcrumbs.value)))
      else None
  }

  /** Breadcrumbs are numbered 1..n in their order, each named as its crumb and pointing at the
      base URL followed by the crumb's path; without crumbs there is no block. */
  lemma BreadcrumbSpec(data: Option<PageData>, locale: Locale, siteUrl: Option<string>)
    ensures var r := StructuredDataOf(Breadcrumb, data, locale, siteUrl);
      && (r.None? <==> data.None? || data.value.breadcrumbs.None? || data.value.breadcrumbs.value == [])
      && (r.Some? ==>
            var crumbs := data.value.breadcrumbs.value;
            && r.value.BreadcrumbListLd?
            && |r.value.itemListElement| == |crumbs|
            && forall i :: 0 <= i < |crumbs| ==>
                 && r.value.itemListElement[i].position == i + 1
                 && r.value.itemListElement[i].name == crumbs[i].name
                 && r.value.itemListElement[i].item == BaseUrl(siteUrl) + crumbs[i].url)
  {
  }

  /** The positions are strictly increasing from 1 and distinct. */
  lemma PositionsAreDistinct(base: string, crumbs: seq<Crumb>)
    ensures forall i, j :: 0 <= i < j < |crumbs| ==>
      BreadcrumbItems(base, crumbs)[i].position < BreadcrumbItems(base, crumbs)[j].position
    ensures |crumbs| > 0 ==>
      BreadcrumbItems(base, crumbs)[0].position == 1
      && BreadcrumbItems(base, crumbs)[|crumbs| - 1].position == |crumbs|
  {
  }

  /** The website object falls back to the site's name and base URL; its language is Arabic
      exactly on Arabic pages; its search template is under the base URL. */
  lemma WebsiteDefaults(locale: Locale, siteUrl: Option<string>)
    ensures var r := StructuredDataOf(Website, None, locale, siteUrl).value;
      && r.name == "FiftyFifty ToolKit" && r.url == BaseUrl(siteUrl)
      && (r.inLanguage == "ar" <==> locale == Ar)
      && r.urlTemplate == BaseUrl(siteUrl) + "/search?q={search_term_string}"
  {
  }

  /** The organization's URL is the base URL and its logo is under it; the other kinds always
      produce a block. */
  lemma OrganizationSpec(data: Option<PageData>, locale: Locale, siteUrl: Option<string>)
    ensures var r := StructuredDataOf(Organization, data, locale, siteUrl);
      && r.Some? && r.value.url == BaseUrl(siteUrl) && r.value.logo == BaseUrl(siteUrl) + "/logo.png"
    ensures StructuredDataOf(Website, data, locale, siteUrl).Some?
    ensures !Truthy(siteUrl) ==> BaseUrl(siteUrl) == "https://toolkit.fiftyfifty.org"
  {
  }
}
