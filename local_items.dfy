/**
 * Local items: the ten local-item keys of section 6.2.2.8 of the HID 1.11
 * specification (Device Class Definition for HID), with tags 0-5 and 7-10 in
 * bits 7-4, type Local (bits 3-2 are 10) and size bits 00. Their labels are a
 * parameter of the model (see `ReportItems.Label`).
 */
module LocalItems {

  const UsagePrefix: bv8 := 0x08
  const UsageMinimumPrefix: bv8 := 0x18
  const UsageMaximumPrefix: bv8 := 0x28
  const DesignatorIndexPrefix: bv8 := 0x38
  const DesignatorMinimumPrefix: bv8 := 0x48
  const DesignatorMaximumPrefix: bv8 := 0x58
  const StringIndexPrefix: bv8 := 0x78
  const StringMinimumPrefix: bv8 := 0x88
  const StringMaximumPrefix: bv8 := 0x98
  const DelimiterPrefix: bv8 := 0xA8

  const LocalPrefixes: seq<bv8> := [
    UsagePrefix, UsageMinimumPrefix, UsageMaximumPrefix, DesignatorIndexPrefix,
    DesignatorMinimumPrefix, DesignatorMaximumPrefix, StringIndexPrefix, StringMinimumPrefix,
    StringMaximumPrefix, DelimiterPrefix]

  /** The local keys are pairwise distinct, of type Local, with size bits 00; tag 6 is unused. */
  lemma LocalPrefixesWellFormed()
    ensures forall i :: 0 <= i < |LocalPrefixes| ==> LocalPrefixes[i] & 0x0F == 0x08
    ensures forall i, j :: 0 <= i < j < |LocalPrefixes| ==> LocalPrefixes[i] != LocalPrefixes[j]
    ensures 0x68 !in LocalPrefixes
  {
  }
}
