/** Display names of growth media. */
module Media {

  /** The long vendor name of the yeast broth, and the short name shown instead. */
  const TeknovaBroth := "Teknova SC Minimal Broth with Raffinose minus Uracil plus Gal"
  const MinimalBroth := "SC Minimal Broth"

  predicate StartsWith(s: string, prefix: string) {
    |prefix| <= |s| && s[..|prefix|] == prefix
  }

  /** Java's String.contains: `part` occurs in `s` at some offset. */
  predicate Contains(s: string, part: string) {
    exists i | 0 <= i <= |s| :: StartsWith(s[i..], part)
  }

  /** A string never contains a longer one. */
  lemma NotContainsLonger(s: string, part: string)
    requires |s| < |part|
    ensures !Contains(s, part)
  {
  }

  /** sanitizeYeastMediaString: any media name mentioning the vendor broth becomes the
      short broth name, and every other name is kept. The result never mentions the
      vendor name, so sanitising twice changes nothing. */
  function SanitizeYeastMedia(name: string): (r: string)
    ensures Contains(name, TeknovaBroth) ==> r == MinimalBroth
    ensures !Contains(name, TeknovaBroth) ==> r == name
    ensures !Contains(r, TeknovaBroth)
  {
    if Contains(name, TeknovaBroth) then
      NotContainsLonger(MinimalBroth, TeknovaBroth);
      MinimalBroth
    else
      name
  }

  lemma SanitizeIdempotent(name: string)
    ensures SanitizeYeastMedia(SanitizeYeastMedia(name)) == SanitizeYeastMedia(name)
  {
  }
}
