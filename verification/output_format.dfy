/**
 * Output-format canonicalisation: the `switch (strtolower(...))` in the
 * `setOutputFormatAttribute` mutators of RequestItem and TTSItem, which are
 * written out identically in both classes and so are modelled once here.
 */
module OutputFormat {
  import opened Wrappers
  import opened PhpStrings

  /** Polly's format names; only the Ogg one differs from its file extension. */
  const PollyMp3 := "mp3"
  const PollyOgg := "ogg_vorbis"
  const PollyPcm := "pcm"
  const DefaultFormat := "mp3"

  /** The three values an output_format attribute can hold once set. */
  predicate IsCanonical(f: string) {
    f == "mp3" || f == "ogg" || f == "pcm"
  }

  /** Lower-cases the requested format (null reads as ""), then maps it to a file extension. */
  function Normalize(requested: Option<string>): (r: string)
    ensures IsCanonical(r)
  {
    var l := Lower(requested.GetOr(""));
    if l == PollyMp3 then "mp3"
    else if l == PollyOgg || l == "ogg" then "ogg"
    else if l == PollyPcm then "pcm"
    else DefaultFormat
  }

  /** Which requests land on which extension; everything unrecognised, null included, is mp3. */
  lemma NormalizeCases(requested: Option<string>)
    ensures var l := Lower(requested.GetOr(""));
      && (Normalize(requested) == "ogg" <==> l == "ogg_vorbis" || l == "ogg")
      && (Normalize(requested) == "pcm" <==> l == "pcm")
      && (Normalize(requested) == "mp3" <==> l != "ogg_vorbis" && l != "ogg" && l != "pcm")
    ensures requested.None? ==> Normalize(requested) == "mp3"
  {
  }

  /** A canonical value normalises to itself. */
  lemma CanonicalIsFixed(f: string)
    requires IsCanonical(f)
    ensures Normalize(Some(f)) == f
  {
    assert Lower(f) == f;
  }

  /** Normalising twice is the same as normalising once. */
  lemma NormalizeIdempotent(requested: Option<string>)
    ensures Normalize(Some(Normalize(requested))) == Normalize(requested)
  {
    CanonicalIsFixed(Normalize(requested));
  }

  /** Normalisation does not see letter case. */
  lemma NormalizeIgnoresCase(s: string)
    ensures Normalize(Some(s)) == Normalize(Some(Lower(s)))
  {
    LowerIdempotent(s);
  }
}
