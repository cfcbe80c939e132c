/** The day-cycle colour theme (src/context/ThemeContext.jsx): a table of seven
    stages over the 24-hour virtual clock, `#rrggbb` colours, per-channel rounding
    interpolation between neighbouring stages, and the locked light/dark modes. */
module Theme {
  import opened JsNumber
  import opened Wrappers

  /** One row of the stage table: its clock hour, four colours and a name. */
  datatype Stage = Stage(time: real, bg: string, text: string, accent: string, particle: string, name: string)

  /** `THEME_STAGES`: the last row repeats the first one at hour 24 to close the day. */
  const Stages: seq<Stage> := [
    Stage(0.0, "#09090b", "#fafafa", "#71717a", "#a1a1aa", "Midnight"),
    Stage(4.0, "#1e1b4b", "#e2e8f0", "#818cf8", "#c7d2fe", "Dawn"),
    Stage(8.0, "#fdf4ff", "#4a044e", "#f472b6", "#fb923c", "Morning"),
    Stage(12.0, "#ffffff", "#09090b", "#0ea5e9", "#38bdf8", "Noon"),
    Stage(16.0, "#fff7ed", "#431407", "#f97316", "#fb923c", "Evening"),
    Stage(20.0, "#18181b", "#e4e4e7", "#a1a1aa", "#d4d4d8", "Night"),
    Stage(24.0, "#09090b", "#fafafa", "#71717a", "#a1a1aa", "Midnight")
  ]

  /** The theme mode the user picks: follow the clock, or lock to day or night. */
  datatype Mode = Auto | Light | Dark

  /** What the provider publishes: three space-separated `"r g b"` colours, the
      particle colour (hex in the locked modes, `"rgb(r,g,b)"` in auto mode) and a name. */
  datatype ThemeColors = ThemeColors(bg: string, text: string, accent: string, particle: string, name: string)

  // ---------------------------------------------------------------------------
  // `#rrggbb` colours (CSS Color Module Level 4, section 5.2, six-digit form)

  predicate IsHexDigit(c: char)
  {
    '0' <= c <= '9' || 'a' <= c <= 'f' || 'A' <= c <= 'F'
  }

  /** The value of one hexadecimal digit, as `parseInt(_, 16)` reads it (either case). */
  function HexValue(c: char): (v: nat)
    requires IsHexDigit(c)
    ensures v < 16
  {
    if '0' <= c <= '9' then c as int - '0' as int
    else if 'a' <= c <= 'f' then c as int - 'a' as int + 10
    else c as int - 'A' as int + 10
  }

  /** A `#` followed by exactly six hexadecimal digits. */
  predicate IsHexColor(s: string)
  {
    |s| == 7 && s[0] == '#' && forall i :: 1 <= i < 7 ==> IsHexDigit(s[i])
  }

  /** An RGB triple with each channel a byte. */
  predicate IsRgb(rgb: seq<int>)
  {
    |rgb| == 3 && forall k :: 0 <= k < 3 ==> 0 <= rgb[k] <= 255
  }

  /** `hexToRgb`: channels from characters 1-2, 3-4 and 5-6, each read as a base-16 byte. */
  function HexToRgb(hex: string): (rgb: seq<int>)
    requires IsHexColor(hex)
    ensures IsRgb(rgb)
    ensures forall k :: 0 <= k < 3 ==> rgb[k] == 16 * HexValue(hex[2 * k + 1]) + HexValue(hex[2 * k + 2])
  {
    var r := 16 * HexValue(hex[1]) + HexValue(hex[2]);
    var g := 16 * HexValue(hex[3]) + HexValue(hex[4]);
    var b := 16 * HexValue(hex[5]) + HexValue(hex[6]);
    [r, g, b]
  }

  const LowerHexDigits: string := "0123456789abcdef"

  /** The lower-case six-digit spelling of an RGB triple: the inverse of `HexToRgb`. */
  function RgbToHex(rgb: seq<int>): (hex: string)
    requires IsRgb(rgb)
    ensures IsHexColor(hex)
  {
    ['#', LowerHexDigits[rgb[0] / 16], LowerHexDigits[rgb[0] % 16],
          LowerHexDigits[rgb[1] / 16], LowerHexDigits[rgb[1] % 16],
          LowerHexDigits[rgb[2] / 16], LowerHexDigits[rgb[2] % 16]]
  }

  lemma DigitRoundTrip(d: nat)
    requires d < 16
    ensures IsHexDigit(LowerHexDigits[d]) && HexValue(LowerHexDigits[d]) == d
  {
  }

  lemma CharRoundTrip(c: char)
    requires '0' <= c <= '9' || 'a' <= c <= 'f'
    ensures LowerHexDigits[HexValue(c)] == c
  {
  }

  /** Reading back a spelled-out triple gives the triple. */
  lemma RgbRoundTrip(rgb: seq<int>)
    requires IsRgb(rgb)
    ensures HexToRgb(RgbToHex(rgb)) == rgb
  {
    var hex := RgbToHex(rgb);
    forall k | 0 <= k < 3
      ensures HexToRgb(hex)[k] == rgb[k]
    {
      DigitRoundTrip(rgb[k] / 16);
      DigitRoundTrip(rgb[k] % 16);
    }
  }

  /** Spelling out a parsed lower-case colour gives back the same text. */
  lemma HexRoundTrip(hex: string)
    requires IsHexColor(hex)
    requires forall i :: 1 <= i < 7 ==> !('A' <= hex[i] <= 'F')
    ensures RgbToHex(HexToRgb(hex)) == hex
  {
    var rgb := HexToRgb(hex);
    forall k | 0 <= k < 3
      ensures rgb[k] / 16 == HexValue(hex[2 * k + 1]) && rgb[k] % 16 == HexValue(hex[2 * k + 2])
    {
    }
    forall i | 1 <= i < 7
      ensures LowerHexDigits[HexValue(hex[i])] == hex[i]
    {
      CharRoundTrip(hex[i]);
    }
  }

  /** Every colour of the stage table is a well-formed `#rrggbb` colour. */
  predicate WellFormedStage(s: Stage)
  {
    IsHexColor(s.bg) && IsHexColor(s.text) && IsHexColor(s.accent) && IsHexColor(s.particle)
  }

  lemma StagesWellFormed()
    ensures forall i :: 0 <= i < |Stages| ==> WellFormedStage(Stages[i])
  {
    MorningStagesWellFormed();
    EveningStagesWellFormed();
    StageTable();
  }

  lemma MorningStagesWellFormed()
    ensures forall i :: 0 <= i < 3 ==> WellFormedStage(Stages[i])
  {
    forall i | 0 <= i < 3
      ensures WellFormedStage(Stages[i])
    {
      var s := Stages[i];
      assert IsHexColor(s.bg) && IsHexColor(s.text);
      assert IsHexColor(s.accent) && IsHexColor(s.particle);
    }
  }

  lemma EveningStagesWellFormed()
    ensures forall i :: 3 <= i < 6 ==> WellFormedStage(Stages[i])
  {
    forall i | 3 <= i < 6
      ensures WellFormedStage(Stages[i])
    {
      var s := Stages[i];
      assert IsHexColor(s.bg) && IsHexColor(s.text);
      assert IsHexColor(s.accent) && IsHexColor(s.particle);
    }
  }

  /** The stage hours are 0, 4, ..., 24, strictly increasing, and the closing row
      repeats the colours and the name of the first. */
  lemma StageTable()
    ensures |Stages| == 7
    ensures forall i :: 0 <= i < |Stages| ==> Stages[i].time == 4.0 * i as real
    ensures forall i, j :: 0 <= i < j < |Stages| ==> Stages[i].time < Stages[j].time
    ensures Stages[6] == Stages[0].(time := 24.0)
  {
  }

  // ---------------------------------------------------------------------------
  // Decimal output, as `Array.prototype.join` prints integers

  function DigitChar(d: nat): char
    requires d < 10
  {
    ('0' as int + d) as char
  }

  function NatToString(n: nat): (s: string)
    ensures |s| >= 1 && forall i :: 0 <= i < |s| ==> '0' <= s[i] <= '9'
  {
    if n < 10 then [DigitChar(n)] else NatToString(n / 10) + [DigitChar(n % 10)]
  }

  function IntToString(n: int): string
  {
    if n < 0 then "-" + NatToString(-n) else NatToString(n)
  }

  /** The value of a string of decimal digits. */
  function ParseNat(s: string): nat
    requires forall i :: 0 <= i < |s| ==> '0' <= s[i] <= '9'
  {
    if s == [] then 0 else 10 * ParseNat(s[..|s| - 1]) + (s[|s| - 1] as int - '0' as int)
  }

  /** Printing a natural number and reading it back gives the number. */
  lemma {:induction false} NatToStringRoundTrip(n: nat)
    ensures ParseNat(NatToString(n)) == n
  {
    var s := NatToString(n);
    if n >= 10 {
      NatToStringRoundTrip(n / 10);
      assert s[..|s| - 1] == NatToString(n / 10);
    }
  }

  /** `rgb.join(sep)` for a triple. */
  function Join(rgb: seq<int>, sep: string): string
    requires |rgb| == 3
  {
    IntToString(rgb[0]) + sep + IntToString(rgb[1]) + sep + IntToString(rgb[2])
  }

  /** The `"r g b"` form handed to the style sheet. */
  function SpaceForm(rgb: seq<int>): string
    requires |rgb| == 3
  {
    Join(rgb, " ")
  }

  /** The `"rgb(r,g,b)"` form handed to the canvas. */
  function RgbForm(rgb: seq<int>): string
    requires |rgb| == 3
  {
    "rgb(" + Join(rgb, ",") + ")"
  }

  // ---------------------------------------------------------------------------
  // Interpolation

  /** One channel: `Math.round(start + (end - start) * factor)`. */
  function MixChannel(start: int, end: int, factor: real): int
  {
    Round(start as real + (end - start) as real * factor)
  }

  /** A channel at factor 0 is the start channel, at factor 1 the end channel, and for a
      factor in [0,1] it lies between the two. */
  lemma MixChannelBounds(start: int, end: int, factor: real)
    requires 0.0 <= factor <= 1.0
    ensures factor == 0.0 ==> MixChannel(start, end, factor) == start
    ensures factor == 1.0 ==> MixChannel(start, end, factor) == end
    ensures start <= end ==> start <= MixChannel(start, end, factor) <= end
    ensures end <= start ==> end <= MixChannel(start, end, factor) <= start
  {
    var x := start as real + (end - start) as real * factor;
    RoundWhole(start);
    RoundWhole(end);
    if start <= end {
      MulNonneg((end - start) as real, factor);
      MulNonneg((end - start) as real, 1.0 - factor);
      RoundBetween(x, start, end);
    } else {
      MulNonneg((start - end) as real, factor);
      MulNonneg((start - end) as real, 1.0 - factor);
      RoundBetween(x, end, start);
    }
  }

  /** `c1.map((start, i) => Math.round(start + (c2[i] - start) * factor))`. */
  function Mix(c1: seq<int>, c2: seq<int>, factor: real): (r: seq<int>)
    requires |c1| == 3 && |c2| == 3
    ensures |r| == 3
  {
    [MixChannel(c1[0], c2[0], factor), MixChannel(c1[1], c2[1], factor), MixChannel(c1[2], c2[2], factor)]
  }

  /** Mixing two byte triples with a factor in [0,1] gives a byte triple; factor 0 gives
      the first colour back. */
  lemma MixInRange(c1: seq<int>, c2: seq<int>, factor: real)
    requires IsRgb(c1) && IsRgb(c2) && 0.0 <= factor <= 1.0
    ensures IsRgb(Mix(c1, c2, factor))
    ensures factor == 0.0 ==> Mix(c1, c2, factor) == c1
    ensures factor == 1.0 ==> Mix(c1, c2, factor) == c2
  {
    MixChannelBounds(c1[0], c2[0], factor);
    MixChannelBounds(c1[1], c2[1], factor);
    MixChannelBounds(c1[2], c2[2], factor);
  }

  /** `interpolateColorSpace`. */
  function InterpolateColorSpace(color1: string, color2: string, factor: real): string
    requires IsHexColor(color1) && IsHexColor(color2)
  {
    SpaceForm(Mix(HexToRgb(color1), HexToRgb(color2), factor))
  }

  /** `interpolateColorString`. */
  function InterpolateColorString(color1: string, color2: string, factor: real): string
    requires IsHexColor(color1) && IsHexColor(color2)
  {
    RgbForm(Mix(HexToRgb(color1), HexToRgb(color2), factor))
  }

  // ---------------------------------------------------------------------------
  // Stage lookup and the published theme

  /** `THEME_STAGES.find(s => s.name === name)`: the first row with that name. */
  function FindStage(name: string, from: nat := 0): (r: Option<nat>)
    requires from <= |Stages|
    ensures r.Some? ==> from <= r.value < |Stages| && Stages[r.value].name == name
    ensures r.Some? ==> forall j :: from <= j < r.value ==> Stages[j].name != name
    ensures r.None? ==> forall j :: from <= j < |Stages| ==> Stages[j].name != name
    decreases |Stages| - from
  {
    if from == |Stages| then None
    else if Stages[from].name == name then Some(from)
    else FindStage(name, from + 1)
  }

  /** The first row `i` at or after `from` whose half-open hour interval holds `time`,
      or 0 when none does: the loop of the auto mode, stated as a recursion. */
  function FirstBracket(time: real, from: nat): (i: nat)
    requires from <= |Stages| - 1
    ensures i < |Stages| - 1
    ensures i != 0 || from == 0 || forall j :: from <= j < |Stages| - 1 ==> !(Stages[j].time <= time < Stages[j + 1].time)
    decreases |Stages| - 1 - from
  {
    if from == |Stages| - 1 then 0
    else if Stages[from].time <= time < Stages[from + 1].time then from
    else FirstBracket(time, from + 1)
  }

  /** The start stage the auto mode picks. For a time in [0,24) it is the stage whose
      hour interval holds the time; any other time, 24 included, falls back to row 0. */
  function StageIndex(time: real): (i: nat)
    ensures i < |Stages| - 1
    ensures 0.0 <= time < 24.0 ==> Stages[i].time <= time < Stages[i + 1].time
    ensures !(0.0 <= time < 24.0) ==> i == 0
  {
    BracketFound(time, 0);
    FirstBracket(time, 0)
  }

  lemma {:induction false} BracketFound(time: real, from: nat)
    requires from <= |Stages| - 1
    ensures var i := FirstBracket(time, from);
      && (Stages[from].time <= time < 24.0 ==> Stages[i].time <= time < Stages[i + 1].time)
      && (!(0.0 <= time < 24.0) ==> i == 0)
    decreases |Stages| - 1 - from
  {
    StageTable();
    if from < |Stages| - 1 && !(Stages[from].time <= time < Stages[from + 1].time) {
      BracketFound(time, from + 1);
    }
  }

  /** The progress through the start stage's interval, `(time - start) / duration`. */
  function Progress(time: real, i: nat): real
    requires i < |Stages| - 1
  {
    StageTable();
    (time - Stages[i].time) / (Stages[i + 1].time - Stages[i].time)
  }

  /** For a time in [0,24) the progress lies in [0,1). */
  lemma ProgressInUnit(time: real)
    requires 0.0 <= time < 24.0
    ensures 0.0 <= Progress(time, StageIndex(time)) < 1.0
  {
    StageTable();
  }

  /** The four colours of the auto mode as RGB triples, before formatting. */
  datatype Palette = Palette(bg: seq<int>, text: seq<int>, accent: seq<int>, particle: seq<int>)

  function AutoPalette(time: real): (p: Palette)
    ensures |p.bg| == 3 && |p.text| == 3 && |p.accent| == 3 && |p.particle| == 3
  {
    StagesWellFormed();
    var i := StageIndex(time);
    var s, e, f := Stages[i], Stages[i + 1], Progress(time, i);
    Palette(Mix(HexToRgb(s.bg), HexToRgb(e.bg), f), Mix(HexToRgb(s.text), HexToRgb(e.text), f),
            Mix(HexToRgb(s.accent), HexToRgb(e.accent), f), Mix(HexToRgb(s.particle), HexToRgb(e.particle), f))
  }

  /** A locked mode shows one stage unchanged: `"r g b"` forms and the hex particle colour. */
  function Locked(s: Stage): ThemeColors
    requires WellFormedStage(s)
  {
    ThemeColors(SpaceForm(HexToRgb(s.bg)), SpaceForm(HexToRgb(s.text)), SpaceForm(HexToRgb(s.accent)),
                s.particle, s.name)
  }

  lemma NamedStages()
    ensures FindStage("Noon") == Some(3)
    ensures FindStage("Midnight") == Some(0)
  {
  }

  /** `currentTheme` as a value of the mode and the clock. */
  function ThemeFor(mode: Mode, time: real): (t: ThemeColors)
  {
    StagesWellFormed();
    NamedStages();
    match mode
    case Light => Locked(Stages[FindStage("Noon").value])
    case Dark => Locked(Stages[FindStage("Midnight").value])
    case Auto =>
      var p := AutoPalette(time);
      ThemeColors(SpaceForm(p.bg), SpaceForm(p.text), SpaceForm(p.accent), RgbForm(p.particle),
                  Stages[StageIndex(time)].name)
  }

  /** The auto-mode search: the source's `for` loop over the stage pairs that breaks at
      the first stage whose half-open interval holds the time, starting from index 0. */
  method FindStartIndex(time: real) returns (startIndex: nat)
    ensures startIndex == StageIndex(time)
    ensures startIndex < |Stages| - 1
  {
    startIndex := 0;
    var i := 0;
    while i < |Stages| - 1
      invariant 0 <= i <= |Stages| - 1
      invariant startIndex == 0 && FirstBracket(time, 0) == FirstBracket(time, i)
    {
      if Stages[i].time <= time < Stages[i + 1].time {
        startIndex := i;
        break;
      }
      i := i + 1;
    }
  }

  /** The `currentTheme` computation of the provider. */
  method CurrentTheme(mode: Mode, time: real) returns (t: ThemeColors)
    ensures t == ThemeFor(mode, time)
  {
    if mode == Light || mode == Dark {
      return ThemeFor(mode, time);
    }
    t := AutoTheme(time);
  }

  /** The auto branch: interpolate between the bracketing stages. */
  method AutoTheme(time: real) returns (t: ThemeColors)
    ensures t == ThemeFor(Auto, time)
  {
    var startIndex := FindStartIndex(time);
    StagesWellFormed();
    var startStage := Stages[startIndex];
    var endStage := Stages[startIndex + 1];
    var progress := Progress(time, startIndex);
    t := ThemeColors(
      InterpolateColorSpace(startStage.bg, endStage.bg, progress),
      InterpolateColorSpace(startStage.text, endStage.text, progress),
      InterpolateColorSpace(startStage.accent, endStage.accent, progress),
      InterpolateColorString(startStage.particle, endStage.particle, progress),
      startStage.name);
    ghost var p := AutoPalette(time);
    assert p.bg == Mix(HexToRgb(startStage.bg), HexToRgb(endStage.bg), progress);
    assert p.text == Mix(HexToRgb(startStage.text), HexToRgb(endStage.text), progress);
    assert p.accent == Mix(HexToRgb(startStage.accent), HexToRgb(endStage.accent), progress);
    assert p.particle == Mix(HexToRgb(startStage.particle), HexToRgb(endStage.particle), progress);
  }

  /** The locked modes ignore the clock: light shows Noon and dark shows Midnight. */
  lemma LockedModes(t1: real, t2: real)
    ensures WellFormedStage(Stages[3]) && ThemeFor(Light, t1) == ThemeFor(Light, t2) == Locked(Stages[3])
    ensures WellFormedStage(Stages[0]) && ThemeFor(Dark, t1) == ThemeFor(Dark, t2) == Locked(Stages[0])
    ensures ThemeFor(Light, t1).name == "Noon" && ThemeFor(Dark, t1).name == "Midnight"
  {
    StagesWellFormed();
    NamedStages();
  }

  /** In auto mode the name is the start stage's, and every channel is a byte for any
      time on the clock's range [0,24). */
  lemma AutoInRange(time: real)
    requires 0.0 <= time < 24.0
    ensures ThemeFor(Auto, time).name == Stages[StageIndex(time)].name
    ensures var p := AutoPalette(time);
      IsRgb(p.bg) && IsRgb(p.text) && IsRgb(p.accent) && IsRgb(p.particle)
  {
    StagesWellFormed();
    var i := StageIndex(time);
    var f := Progress(time, i);
    ProgressInUnit(time);
    MixInRange(HexToRgb(Stages[i].bg), HexToRgb(Stages[i + 1].bg), f);
    MixInRange(HexToRgb(Stages[i].text), HexToRgb(Stages[i + 1].text), f);
    MixInRange(HexToRgb(Stages[i].accent), HexToRgb(Stages[i + 1].accent), f);
    MixInRange(HexToRgb(Stages[i].particle), HexToRgb(Stages[i + 1].particle), f);
  }

  /** At exactly a stage's hour the auto mode shows that stage's own colours, in the same
      form as when the stage is locked (the particle colour then in `"rgb(r,g,b)"` form). */
  lemma AutoAtStageHour(i: nat)
    requires i < |Stages| - 1
    ensures WellFormedStage(Stages[i])
    ensures var t := ThemeFor(Auto, Stages[i].time);
      && t.bg == Locked(Stages[i]).bg && t.text == Locked(Stages[i]).text
      && t.accent == Locked(Stages[i]).accent && t.name == Stages[i].name
      && t.particle == RgbForm(HexToRgb(Stages[i].particle))
  {
    StagesWellFormed();
    StageTable();
    var time := Stages[i].time;
    assert StageIndex(time) == i;
    assert Progress(time, i) == 0.0;
    var e := Stages[i + 1];
    MixInRange(HexToRgb(Stages[i].bg), HexToRgb(e.bg), 0.0);
    MixInRange(HexToRgb(Stages[i].text), HexToRgb(e.text), 0.0);
    MixInRange(HexToRgb(Stages[i].accent), HexToRgb(e.accent), 0.0);
    MixInRange(HexToRgb(Stages[i].particle), HexToRgb(e.particle), 0.0);
  }

  /** Hour 24 is outside the table's half-open intervals, so the lookup falls back to row
      0 with progress 6 and extrapolates: the accent's blue channel comes out as 878. */
  lemma HourTwentyFourExtrapolates()
    ensures StageIndex(24.0) == 0
    ensures Progress(24.0, 0) == 6.0
    ensures AutoPalette(24.0).accent[2] == 878
    ensures !IsRgb(AutoPalette(24.0).accent)
  {
    StagesWellFormed();
    assert HexToRgb("#71717a")[2] == 122;
    assert HexToRgb("#818cf8")[2] == 248;
    RoundWhole(878);
  }
}
