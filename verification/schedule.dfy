/**
 The per-day schedule records: a `TimeWindow` is one switchable interval of the
 day with a preset, and a `DaySchedule2` holds two such windows behind a day switch.
 */
module Schedule {
  import opened Base
  import opened Presets

  /** Minutes in one day; a minute of day lies in [0, MinutesPerDay). */
  const MinutesPerDay: int := 24 * 60

  /** `m` is a minute since midnight of a single day. */
  predicate IsMinuteOfDay(m: int)
  {
    0 <= m < MinutesPerDay
  }

  /** One time window: start and stop as minutes since midnight, an on-switch, a raw preset byte. */
  datatype TimeWindow = TimeWindow(startMin: U16, stopMin: U16, enabled: bool, preset: Byte)

  /** The member initialisers of a window: 18:00 to 20:00, switched off, custom preset. */
  const DefaultWindow: TimeWindow :=
    TimeWindow(startMin := 18 * 60, stopMin := 20 * 60, enabled := false, preset := PresetCode(Custom))

  /** Both ends of the window are minutes of the day. */
  predicate WindowWellFormed(w: TimeWindow)
  {
    IsMinuteOfDay(w.startMin) && IsMinuteOfDay(w.stopMin)
  }

  /** One weekday: two independent windows and a switch gating both. */
  datatype DaySchedule2 = DaySchedule2(a: TimeWindow, b: TimeWindow, dayEnabled: bool)

  /** The member initialisers of a day: two default windows, day switched on. */
  const DefaultDay: DaySchedule2 := DaySchedule2(a := DefaultWindow, b := DefaultWindow, dayEnabled := true)

  predicate DayWellFormed(d: DaySchedule2)
  {
    WindowWellFormed(d.a) && WindowWellFormed(d.b)
  }

  /** A default window is switched off, uses the custom preset and spans 18:00 to 20:00 within one day. */
  lemma DefaultWindowFacts()
    ensures !DefaultWindow.enabled
    ensures DefaultWindow.preset == PresetCode(Custom)
    ensures PresetName(DefaultWindow.preset) == "custom"
    ensures DefaultWindow.startMin == 1080 && DefaultWindow.stopMin == 1200
    ensures DefaultWindow.startMin < DefaultWindow.stopMin < MinutesPerDay
    ensures WindowWellFormed(DefaultWindow)
  {
  }

  /** A default day is switched on and both of its windows are default, hence switched off. */
  lemma DefaultDayFacts()
    ensures DefaultDay.dayEnabled
    ensures DefaultDay.a == DefaultWindow && DefaultDay.b == DefaultWindow
    ensures !DefaultDay.a.enabled && !DefaultDay.b.enabled
    ensures DayWellFormed(DefaultDay)
  {
  }
}
