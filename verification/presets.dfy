/**
 The named presets of a time window: the `PresetId` enumeration with its byte
 encoding, and `presetName`, the total encoder from a raw byte to a display name.
 */
module Presets {
  import opened Base

  /** The declared preset identifiers. */
  datatype PresetId = Custom | Soft | Normal | Wild | Smart

  /** The explicit numeric encoding of each declared preset. */
  function PresetCode(id: PresetId): (b: Byte)
    ensures b <= 4
  {
    match id
    case Custom => 0
    case Soft => 1
    case Normal => 2
    case Wild => 3
    case Smart => 4
  }

  /** Decodes a raw byte to a declared preset; undeclared bytes decode to None. */
  function PresetOfCode(b: Byte): (r: Option<PresetId>)
    ensures r.Some? <==> b <= 4
    ensures r.Some? ==> PresetCode(r.value) == b
  {
    if b == 0 then Some(Custom)
    else if b == 1 then Some(Soft)
    else if b == 2 then Some(Normal)
    else if b == 3 then Some(Wild)
    else if b == 4 then Some(Smart)
    else None
  }

  /** The display name of a declared preset, defined on the enumeration itself. */
  function Label(id: PresetId): string
  {
    match id
    case Custom => "custom"
    case Soft => "soft"
    case Normal => "normal"
    case Wild => "wild"
    case Smart => "smart"
  }

  /** Every name `presetName` can produce. */
  const PresetNames: set<string> := {"custom", "soft", "normal", "wild", "smart"}

  /** The preset a raw byte stands for: its declared preset, or Custom when it is undeclared. */
  function EffectivePreset(b: Byte): PresetId
  {
    match PresetOfCode(b)
    case Some(id) => id
    case None => Custom
  }

  /**
   The byte-level switch of the device: ids 1 to 4 have their own names and every
   other byte, PRESET_CUSTOM included, falls through to "custom".
   */
  function PresetName(p: Byte): (name: string)
    ensures name in PresetNames
    ensures name == Label(EffectivePreset(p))
    ensures name == "custom" <==> p == 0 || p > 4
  {
    if p == 1 then "soft"
    else if p == 2 then "normal"
    else if p == 3 then "wild"
    else if p == 4 then "smart"
    else "custom"
  }

  /** Reads a display name back to its preset; names outside the five decode to None. */
  function PresetOfName(s: string): (r: Option<PresetId>)
    ensures r.None? <==> s !in PresetNames
    ensures r.Some? ==> Label(r.value) == s
  {
    if s == "custom" then Some(Custom)
    else if s == "soft" then Some(Soft)
    else if s == "normal" then Some(Normal)
    else if s == "wild" then Some(Wild)
    else if s == "smart" then Some(Smart)
    else None
  }

  /** Decoding inverts the encoding on every declared preset. */
  lemma CodeRoundTrip(id: PresetId)
    ensures PresetOfCode(PresetCode(id)) == Some(id)
  {
  }

  /** Reading a label back yields the preset it labels. */
  lemma NameRoundTrip(id: PresetId)
    ensures PresetOfName(Label(id)) == Some(id)
  {
  }

  /** The four named ids get their own names. */
  lemma NamedPresets()
    ensures PresetName(1) == "soft"
    ensures PresetName(2) == "normal"
    ensures PresetName(3) == "wild"
    ensures PresetName(4) == "smart"
  {
  }

  /** PRESET_CUSTOM and every undeclared byte take the default branch. */
  lemma CustomFallback(p: Byte)
    requires p == PresetCode(Custom) || 5 <= p
    ensures PresetName(p) == "custom"
  {
  }

  /** Distinct declared ids have distinct names. */
  lemma PresetNameInjectiveOnDeclared(p: Byte, q: Byte)
    requires p <= 4 && q <= 4
    requires PresetName(p) == PresetName(q)
    ensures p == q
  {
  }

  /**
   The default branch is taken by exactly 252 of the 256 byte values:
   PRESET_CUSTOM and the 251 undeclared values 5..255.
   */
  lemma CustomFallbackCount()
    ensures |set p: int | 0 <= p < 0x100 && PresetName(p) == "custom"| == 252
  {
    var fallback := set p: int | 0 <= p < 0x100 && PresetName(p) == "custom";
    RangeCardinality(fallback - {0}, 5, 0x100);
  }

  /** Each named preset is produced by exactly one byte value: its own code. */
  lemma NamedPresetPreimage(id: PresetId)
    requires id != Custom
    ensures (set p: int | 0 <= p < 0x100 && PresetName(p) == Label(id)) == {PresetCode(id)}
  {
  }
}
