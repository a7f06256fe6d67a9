/** The phase card (components/PhaseCard.tsx): its 150-character description preview and its
    link. */
module PhaseCard {
  import opened HtmlText

  const PreviewLength: nat := 150

  function DescriptionPreview(description: string): string {
    Preview(description, PreviewLength)
  }

  function Href(locale: string, slug: string): string {
    "/" + locale + "/phase/" + slug
  }

  /** At most 153 characters, always ending with `...`, and no tag shape left. */
  lemma DescriptionPreviewSpec(description: string)
    ensures var p := DescriptionPreview(description);
      && |p| <= 153 && |p| >= 3 && p[|p| - 3..] == "..."
      && !HasTagShape(p[..|p| - 3])
    ensures '<' !in description ==> DescriptionPreview(description) == Prefix(description, 150) + "..."
  {
    PreviewSpec(description, PreviewLength);
  }
}
