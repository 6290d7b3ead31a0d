# Laser cat toy configuration core

A model of the configuration header of an automated pan/tilt laser-pointer toy
(`types.h`). The header fixes the vocabulary the controller works with:

- the `MotionMode` enumeration (random, orbit, scan, smart) and the `PresetId`
  enumeration (custom, soft, normal, wild, smart), each with an explicit byte
  encoding;
- `presetName`, the one piece of behaviour in the header: a total switch from a
  raw `uint8_t` preset id to a display name, with "custom" as the fallback for
  `PRESET_CUSTOM` and for every undeclared byte;
- the records `TimeWindow` (start and stop minute of day, on-switch, preset),
  `DaySchedule2` (two windows behind a day switch) and `Config` (mechanical pan and
  tilt bounds, edge margin, park position, speed, dwell bounds, mode, laser and run
  switches, session limit, cooldown, and a table of seven days), each with the
  default values of its member initialisers.

The model is functional: the records are immutable datatypes, each default is a
constant, `presetName` is a pure function, and the facts about the defaults are
lemmas. `uint8_t` and `uint16_t` are the subset types `Base.Byte` and `Base.U16`.

Files:

- `base.dfy` (module `Base`): byte and 16-bit word types, `Option`, and `Interval`,
  the set of integers of a half-open range with its size.
- `presets.dfy` (module `Presets`): `PresetId`, its encoding and decoding, the
  enumeration-level name table `Label`, `PresetName` and the read-back `PresetOfName`.
- `modes.dfy` (module `Modes`): `MotionMode` and its encoding.
- `schedule.dfy` (module `Schedule`): `TimeWindow`, `DaySchedule2`, their defaults
  and well-formedness.
- `config.dfy` (module `Settings`): `Config`, the margin-reduced ranges, the default
  configuration and its well-formedness.

`PresetName` works on the raw byte, as the C++ switch does. Its contract ties it to
an independent definition on the enumeration: the byte is decoded with
`PresetOfCode` (undeclared bytes count as custom) and named with `Label`.
`PresetOfName` reads a name back; it has no C++ counterpart and serves as the
inverse against which the names are checked. `Config.mode`, like `TimeWindow.preset`,
holds the raw byte, since an enumeration with a `uint8_t` base can hold any byte;
`ModeOfCode` tells a declared mode from an undeclared byte.

## Model

| member | source | states |
|---|---|---|
| Presets.PresetCode | types.h:11-17 | every declared preset is encoded as a byte in 0..4 |
| Presets.PresetOfCode | types.h:11-17 | a byte decodes to a preset exactly when it is in 0..4, and the decoded preset encodes back to that byte |
| Presets.CodeRoundTrip | types.h:11-17 | decoding the code of any preset yields that preset, so the five codes are distinct |
| Presets.PresetName | types.h:19-27 | the result is always one of the five names; it equals the enumeration-level name of the byte's preset, with undeclared bytes treated as custom; it is "custom" exactly for byte 0 and bytes 5..255 |
| Presets.NameRoundTrip | types.h:19-26 | reading back the name of any preset yields the preset, so the five names are distinct and identify their preset |
| Presets.NamedPresets | types.h:21-24 | ids 1, 2, 3, 4 are named "soft", "normal", "wild", "smart" |
| Presets.CustomFallback | types.h:12-25 | `PRESET_CUSTOM` and every byte from 5 up take the default branch and are named "custom" |
| Presets.PresetNameInjectiveOnDeclared | types.h:11-26 | two declared ids with the same name are the same id |
| Presets.CustomFallbackCount | types.h:19-27 | exactly 252 of the 256 byte values are named "custom" |
| Presets.NamedPresetPreimage | types.h:19-27 | each of the four named presets is produced by exactly one byte value, its own code |
| Modes.ModeCode | types.h:4-9 | every motion mode is encoded as a byte in 0..3 |
| Modes.ModeOfCode | types.h:4-9 | a byte decodes to a motion mode exactly when it is below 4, and the mode encodes back to that byte |
| Modes.ModeCodeRoundTrip | types.h:4-9 | decoding the code of any mode yields that mode, so the four codes are distinct |
| Schedule.DefaultWindowFacts | types.h:29-34 | a default window is switched off, has preset `PRESET_CUSTOM` (named "custom"), runs from minute 1080 to 1200, both ends are minutes of the day and start precedes stop |
| Schedule.DefaultDayFacts | types.h:36-40 | a default day is switched on and both its windows are default windows, hence switched off and well formed |
| Settings.MarginRange | types.h:43-46 | the margin-reduced range exists exactly when `min + margin <= max - margin`, and then holds exactly the degrees that keep the margin to both end-stops |
| Settings.ParkKeepsMargin | types.h:43-48 | in a well-formed configuration the park position keeps the margin to every end-stop and lies within the mechanical bounds |
| Settings.DefaultRanges | types.h:43-53 | the default ranges are pan [41, 139] and tilt [51, 129], and the default dwell bounds 150 and 900 are ordered |
| Settings.DefaultConfigWellFormed | types.h:42-64 | the default configuration is well formed: park (90, 90) is inside both ranges, the mode byte decodes to random, running is off, and the day table has seven entries, each a default day |

## Left out

- Scheduling, the session cap and cooldown state machine, the motion strategies and
  angle clamping: the header declares the data they would use but contains none of
  their logic, so there is nothing to model them against.
- The note that `sessionMaxMin` 0 means unlimited is a comment without code; the
  field is modelled as a plain 16-bit value.
- `speedDegPerSec` is a `float`; it is kept as a real-valued field holding 70.0 and
  no arithmetic or rounding on it is modelled.
- The `int` fields of `Config` are unbounded integers; the width of the platform's
  `int` is not modelled. All defaults fit in 16 bits.
- The `Arduino.h` include only supplies the integer types, modelled as subset types.
- Persistence, user interface, actuator and laser output do not appear in the header.
- Settings.ConfigWellFormed: the well-formedness rules are the model's own reading of
  what the defaults are meant to satisfy; the header enforces none of them. A margin
  range counts as usable when it is non-empty (`min + margin <= max - margin`), and
  the margin must be non-negative. A window whose stop precedes its start is not
  rejected, since a window may wrap past midnight.
- The weekday convention of the `days` table (which index is Sunday) is not fixed by
  the header and is not modelled.
