/** The calibration stage's table from polarisation mode to source bands. */
module Polarisation {
  import opened Common

  /** The modes the lookup knows: dual HH+HV, dual VH+VV, and the single
      modes, each spelled two ways. */
  predicate IsKnownMode(mode: string) {
    mode == "DH" || mode == "DV" || mode == "SH" || mode == "HH" || mode == "SV" || mode == "VV"
  }

  function UnsupportedMessage(mode: string): string {
    "Unsupported polarization type: " + mode + ". Please use 'DH', 'DV', 'SH'/'HH', or 'SV'/'VV'."
  }

  /** The comma-separated `sourceBands` value for a mode, or the ValueError
      naming a mode outside the table. */
  function SourceBands(mode: string): (r: Result<string, Error>)
    ensures r.Success? <==> IsKnownMode(mode)
    ensures r.Failure? ==> r.error.InvalidArgument? && Contains(r.error.message, mode)
  {
    if mode == "DH" then Success("Intensity_HH,Intensity_HV")
    else if mode == "DV" then Success("Intensity_VH,Intensity_VV")
    else if mode == "SH" || mode == "HH" then Success("Intensity_HH")
    else if mode == "SV" || mode == "VV" then Success("Intensity_VV")
    else
      ContainsInfix("Unsupported polarization type: ", mode, ". Please use 'DH', 'DV', 'SH'/'HH', or 'SV'/'VV'.");
      Failure(InvalidArgument(UnsupportedMessage(mode)))
  }

  /** Two spellings of one single-polarisation mode. */
  predicate Aliases(m1: string, m2: string) {
    || m1 == m2
    || (m1 == "SH" && m2 == "HH") || (m1 == "HH" && m2 == "SH")
    || (m1 == "SV" && m2 == "VV") || (m1 == "VV" && m2 == "SV")
  }

  /** The dual modes select both bands of their transmit polarisation; the
      single modes select one band, whichever spelling is used. */
  lemma TableEntries()
    ensures SourceBands("DH") == Success("Intensity_HH,Intensity_HV")
    ensures SourceBands("DV") == Success("Intensity_VH,Intensity_VV")
    ensures SourceBands("SH") == SourceBands("HH") == Success("Intensity_HH")
    ensures SourceBands("SV") == SourceBands("VV") == Success("Intensity_VV")
  {
  }

  /** Two known modes select the same bands exactly when they are aliases. */
  lemma SameBandsIffAliases(m1: string, m2: string)
    requires IsKnownMode(m1) && IsKnownMode(m2)
    ensures SourceBands(m1) == SourceBands(m2) <==> Aliases(m1, m2)
  {
  }
}
