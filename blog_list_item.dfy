/**
 * The text rules of the public blog card: the short description and the title are
 * clipped with `slice(0, n)` and get an ellipsis past a length threshold, an empty
 * title is replaced by a placeholder, and an empty thumbnail URL by a fallback image.
 * A `char` here stands for one UTF-16 code unit, the unit `slice` and `length` count.
 */
module BlogListItem {

  const Ellipsis: string := "..."

  /** Description: `slice(0, 55)`, ellipsis when the length exceeds 54. */
  const DescriptionKeep: nat := 55
  const DescriptionThreshold: nat := 54

  /** Title: `slice(0, 45)`, ellipsis when the length exceeds 44. */
  const TitleKeep: nat := 45
  const TitleThreshold: nat := 44

  const UntitledText: string := "Artikel tidak berjudul"
  const FallbackThumbnail: string := "/images/image/login-bg.svg"

  /** `s.slice(0, n)`: the first `n` units of `s`, or all of `s` when it is shorter. */
  function SliceTo(s: string, n: nat): (r: string)
    ensures |r| == if |s| < n then |s| else n
    ensures r <= s
  {
    if |s| <= n then s else s[..n]
  }

  /** `s.slice(0, keep) + (s.length > threshold ? "..." : "")`. */
  function Clip(s: string, keep: nat, threshold: nat): string
  {
    SliceTo(s, keep) + (if |s| > threshold then Ellipsis else "")
  }

  /**
   * The clipped text is a prefix of the input followed by the ellipsis exactly when the
   * input is longer than the threshold; with the threshold below `keep`, a short input is
   * returned unchanged and the result is never longer than `keep + 3`.
   */
  lemma ClipShape(s: string, keep: nat, threshold: nat)
    requires threshold < keep
    ensures var r, p := Clip(s, keep, threshold), SliceTo(s, keep);
      && p <= s
      && r[..|p|] == p
      && r[|p|..] == (if |s| > threshold then Ellipsis else "")
      && (|s| <= threshold ==> r == s)
      && |r| <= keep + |Ellipsis|
  {
  }

  /** The card's description text. */
  function Description(shortDesc: string): (r: string)
    ensures |shortDesc| <= DescriptionThreshold ==> r == shortDesc
    ensures |shortDesc| == DescriptionKeep ==> r == shortDesc + Ellipsis
    ensures |shortDesc| > DescriptionKeep ==> r == shortDesc[..DescriptionKeep] + Ellipsis
    ensures |r| <= DescriptionKeep + |Ellipsis|
  {
    ClipShape(shortDesc, DescriptionKeep, DescriptionThreshold);
    Clip(shortDesc, DescriptionKeep, DescriptionThreshold)
  }

  /** What the card shows as its title: plain text, or the emphasised placeholder. */
  datatype TitleView = Plain(text: string) | Emphasized(text: string)

  /** The card's title: an empty (falsy) title yields the placeholder. */
  function CardTitle(title: string): (r: TitleView)
    ensures r.Emphasized? <==> title == ""
    ensures r.Emphasized? ==> r.text == UntitledText
    ensures r.Plain? && |title| <= TitleThreshold ==> r.text == title
    ensures r.Plain? && |title| > TitleThreshold ==> r.text == SliceTo(title, TitleKeep) + Ellipsis
    ensures |r.text| <= TitleKeep + |Ellipsis|
  {
    if title == "" then
      Emphasized(UntitledText)
    else
      ClipShape(title, TitleKeep, TitleThreshold);
      Plain(Clip(title, TitleKeep, TitleThreshold))
  }

  /** The banner image source: the thumbnail URL, or the fallback image when it is empty. */
  function ThumbnailSrc(thumbnailUrl: string): (r: string)
    ensures r != ""
    ensures thumbnailUrl != "" ==> r == thumbnailUrl
    ensures thumbnailUrl == "" ==> r == FallbackThumbnail
  {
    if thumbnailUrl != "" then thumbnailUrl else FallbackThumbnail
  }

  /** A description of exactly 55 units loses nothing and still gets the ellipsis. */
  lemma DescriptionAtKeepLength(s: string)
    requires |s| == DescriptionKeep
    ensures Description(s) != s
    ensures Description(s)[..|s|] == s
  {
  }
}
