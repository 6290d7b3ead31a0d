/**
 The device configuration: mechanical bounds with an edge margin, park position,
 dwell bounds, motion mode, master switches, session limits and the weekday table,
 with the defaults given by its member initialisers and the well-formedness rules
 those defaults meet.
 */
module Settings {
  import opened Base
  import opened Modes
  import opened Schedule

  /** Days in the weekday table. */
  const DaysPerWeek: int := 7

  /** A closed interval of integer degrees. */
  datatype Span = Span(lo: int, hi: int)
  {
    predicate Contains(x: int)
    {
      lo <= x <= hi
    }
  }

  /**
   The part of a mechanical range [min, max] that stays `margin` degrees away from
   both end-stops; None when nothing is left.
   */
  function MarginRange(min: int, max: int, margin: int): (r: Option<Span>)
    ensures r.Some? <==> min + margin <= max - margin
    ensures r.Some? ==> r.value.lo <= r.value.hi
    ensures r.Some? ==> forall x :: r.value.Contains(x) <==> min + margin <= x <= max - margin
  {
    if min + margin <= max - margin then Some(Span(min + margin, max - margin)) else None
  }

  /**
   The configuration record. The C++ `int` fields are unbounded integers here; the
   `float` speed is kept as a real value on which nothing is computed. The mode is the
   raw byte of the `uint8_t`-based enumeration, read through `ModeOfCode`.
   */
  datatype Config = Config(
    panMin: int, panMax: int,
    tiltMin: int, tiltMax: int,
    edgeMarginDeg: int,
    parkPan: int, parkTilt: int,
    speedDegPerSec: real,
    dwellMsMin: U16, dwellMsMax: U16,
    mode: Byte,
    laserEnabled: bool,
    runEnabled: bool,
    sessionMaxMin: U16,
    cooldownMin: U16,
    days: seq<DaySchedule2>)

  /** The weekday table of a default-constructed configuration: every entry a default day. */
  const DefaultDays: seq<DaySchedule2> := seq(DaysPerWeek, _ => DefaultDay)

  /** The member initialisers of the configuration. */
  const DefaultConfig: Config := Config(
    panMin := 35, panMax := 145,
    tiltMin := 45, tiltMax := 135,
    edgeMarginDeg := 6,
    parkPan := 90, parkTilt := 90,
    speedDegPerSec := 70.0,
    dwellMsMin := 150, dwellMsMax := 900,
    mode := ModeCode(Random),
    laserEnabled := true,
    runEnabled := false,
    sessionMaxMin := 10,
    cooldownMin := 2,
    days := DefaultDays)

  /** The pan positions that keep the margin, if any. */
  function PanRange(c: Config): Option<Span>
  {
    MarginRange(c.panMin, c.panMax, c.edgeMarginDeg)
  }

  /** The tilt positions that keep the margin, if any. */
  function TiltRange(c: Config): Option<Span>
  {
    MarginRange(c.tiltMin, c.tiltMax, c.edgeMarginDeg)
  }

  /**
   A usable configuration: a non-negative margin leaving a non-empty range on both
   axes, the park position inside both ranges, ordered dwell bounds, and a table of
   seven well-formed days.
   */
  predicate ConfigWellFormed(c: Config)
  {
    && 0 <= c.edgeMarginDeg
    && PanRange(c).Some? && TiltRange(c).Some?
    && PanRange(c).value.Contains(c.parkPan)
    && TiltRange(c).value.Contains(c.parkTilt)
    && c.dwellMsMin <= c.dwellMsMax
    && |c.days| == DaysPerWeek
    && forall i :: 0 <= i < |c.days| ==> DayWellFormed(c.days[i])
  }

  /**
   In a well-formed configuration the park position keeps the edge margin to every
   end-stop, so parking never drives an axis into its mechanical limit.
   */
  lemma ParkKeepsMargin(c: Config)
    requires ConfigWellFormed(c)
    ensures c.panMin + c.edgeMarginDeg <= c.parkPan <= c.panMax - c.edgeMarginDeg
    ensures c.tiltMin + c.edgeMarginDeg <= c.parkTilt <= c.tiltMax - c.edgeMarginDeg
    ensures c.panMin <= c.parkPan <= c.panMax && c.tiltMin <= c.parkTilt <= c.tiltMax
  {
  }

  /** The default margin-reduced ranges are pan [41, 139] and tilt [51, 129]. */
  lemma DefaultRanges()
    ensures PanRange(DefaultConfig) == Some(Span(41, 139))
    ensures TiltRange(DefaultConfig) == Some(Span(51, 129))
    ensures DefaultConfig.dwellMsMin == 150 <= DefaultConfig.dwellMsMax == 900
  {
  }

  /**
   The default configuration is well formed: the park position (90, 90) lies in both
   ranges, the mode is random and the table holds seven default days. The device starts
   with running off.
   */
  lemma DefaultConfigWellFormed()
    ensures ConfigWellFormed(DefaultConfig)
    ensures PanRange(DefaultConfig).value.Contains(90) && TiltRange(DefaultConfig).value.Contains(90)
    ensures ModeOfCode(DefaultConfig.mode) == Some(Random)
    ensures !DefaultConfig.runEnabled
    ensures |DefaultConfig.days| == 7
    ensures forall i :: 0 <= i < |DefaultConfig.days| ==> DefaultConfig.days[i] == DefaultDay
  {
    DefaultDayFacts();
  }
}
