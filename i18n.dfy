/** The two supported locales, their display names and text directions (i18n.ts). */
module I18n {
  import opened Wrappers

  datatype Locale = En | Ar

  datatype Direction = Ltr | Rtl

  /** The locale codes, in the order of the source's `locales` table. */
  const LocaleCodes: seq<string> := ["en", "ar"]

  const DefaultLocale: Locale := En

  function Code(l: Locale): string {
    match l
    case En => "en"
    case Ar => "ar"
  }

  /** `localeNames`. */
  function Name(l: Locale): string {
    match l
    case En => "English"
    case Ar => "العربية"
  }

  /** `localeDirections`. */
  function DirectionOf(l: Locale): Direction {
    match l
    case En => Ltr
    case Ar => Rtl
  }

  /** `isValidLocale`: the string is one of the entries of the locale table. */
  predicate IsValidLocale(s: string) {
    s in LocaleCodes
  }

  /** The locale a valid code names. */
  function ParseLocale(s: string): (r: Option<Locale>)
    ensures r.Some? <==> IsValidLocale(s)
    ensures r.Some? ==> Code(r.value) == s
  {
    if s == "en" then Some(En) else if s == "ar" then Some(Ar) else None
  }

  /** `getOppositeLocale`: English and Arabic swap. */
  function Opposite(l: Locale): (r: Locale)
    ensures r != l
  {
    if l == En then Ar else En
  }

  lemma ValidLocalesAreExactlyEnAr(s: string)
    ensures IsValidLocale(s) <==> s == "en" || s == "ar"
  {
  }

  lemma OppositeIsInvolution(l: Locale)
    ensures Opposite(Opposite(l)) == l
  {
  }

  lemma CodesRoundTrip(l: Locale)
    ensures IsValidLocale(Code(l)) && ParseLocale(Code(l)) == Some(l)
  {
  }

  lemma TablesCoverBothLocales()
    ensures IsValidLocale(Code(DefaultLocale))
    ensures DirectionOf(En) == Ltr && DirectionOf(Ar) == Rtl
    ensures Name(En) != Name(Ar)
  {
  }
}
