/** The motion strategies a configuration can select, with their byte encoding. */
module Modes {
  import opened Base

  /** The declared motion modes. */
  datatype MotionMode = Random | Orbit | Scan | SmartMode

  /** The explicit numeric encoding of each motion mode. */
  function ModeCode(m: MotionMode): (b: Byte)
    ensures b < 4
  {
    match m
    case Random => 0
    case Orbit => 1
    case Scan => 2
    case SmartMode => 3
  }

  /** Decodes a raw byte to a motion mode; bytes 4..255 name no mode. */
  function ModeOfCode(b: Byte): (r: Option<MotionMode>)
    ensures r.Some? <==> b < 4
    ensures r.Some? ==> ModeCode(r.value) == b
  {
    if b == 0 then Some(Random)
    else if b == 1 then Some(Orbit)
    else if b == 2 then Some(Scan)
    else if b == 3 then Some(SmartMode)
    else None
  }

  /** Decoding inverts the encoding, so distinct modes have distinct codes. */
  lemma ModeCodeRoundTrip(m: MotionMode)
    ensures ModeOfCode(ModeCode(m)) == Some(m)
  {
  }
}
