/** The module card (components/ModuleCard.tsx): its 120-character summary preview and its link
    under the module's phase. */
module ModuleCard {
  import opened HtmlText

  const PreviewLength: nat := 120

  function SummaryPreview(summary: string): string {
    Preview(summary, PreviewLength)
  }

  function Href(locale: string, phaseSlug: string, slug: string): string {
    "/" + locale + "/phase/" + phaseSlug + "/module/" + slug
  }

  /** At most 123 characters, always ending with `...`, and no tag shape left. */
  lemma SummaryPreviewSpec(summary: string)
    ensures var p := SummaryPreview(summary);
      && |p| <= 123 && |p| >= 3 && p[|p| - 3..] == "..."
      && !HasTagShape(p[..|p| - 3])
    ensures '<' !in summary ==> SummaryPreview(summary) == Prefix(summary, 120) + "..."
  {
    PreviewSpec(summary, PreviewLength);
  }
}
