/** The 25-row hourly timeline the dashboard charts, for the optimized
    protocol (computed from the schedule) and for the Western comparison
    (a fixed table), and the clock labels it shows.

    Each row covers one hour key 0..24 of a day that starts at 00:00; key 24
    is the next midnight and is labelled "00:00" again. */
module Timeline {
  import opened Wrappers
  import opened JsText
  import opened Schedule
  import opened Convolver

  /** The seven illustrative pathway levels of one hour and its label (`caption`). */
  datatype Levels = Levels(
    mtor: real,
    autophagy: real,
    insulin: real,
    gaba: real,
    nad: real,
    cortisol: real,
    coreTemp: real,
    caption: string)

  /** One charted hour: its key, its clock label, the pathway levels and the
      organ-load pair. */
  datatype Row = Row(hour: nat, clockTime: string, levels: Levels, liver: real, kidney: real)

  /** The pathway key points of the optimized protocol, hours 0..24. */
  const OptimizedKeyPoints: seq<Levels> := [
    Levels(0.12, 0.28, 0.15, 0.88, 0.50, 0.15, 0.35, "Sleep (5h fasted)"),
    Levels(0.10, 0.32, 0.12, 0.85, 0.52, 0.12, 0.32, "Sleep (6h fasted)"),
    Levels(0.10, 0.36, 0.10, 0.82, 0.54, 0.10, 0.30, "Deep Sleep (7h)"),
    Levels(0.10, 0.40, 0.10, 0.80, 0.55, 0.12, 0.28, "Deep Sleep (8h)"),
    Levels(0.10, 0.45, 0.10, 0.78, 0.56, 0.18, 0.30, "Sleep (9h fasted)"),
    Levels(0.10, 0.50, 0.10, 0.72, 0.58, 0.28, 0.35, "Sleep (10h)"),
    Levels(0.10, 0.55, 0.10, 0.65, 0.60, 0.45, 0.42, "Waking (11h)"),
    Levels(0.10, 0.60, 0.10, 0.50, 0.65, 0.65, 0.50, "Waking (12h)"),
    Levels(0.10, 0.68, 0.08, 0.35, 0.75, 0.80, 0.58, "Pre-morning (13h)"),
    Levels(0.08, 0.75, 0.08, 0.25, 0.88, 0.85, 0.62, "Morning FASTED (14h)"),
    Levels(0.08, 0.82, 0.06, 0.22, 0.85, 0.78, 0.65, "Late morning (15h)"),
    Levels(0.10, 0.88, 0.08, 0.25, 0.82, 0.70, 0.68, "Pre-exercise (16h) PEAK"),
    Levels(0.55, 0.35, 0.45, 0.28, 0.68, 0.60, 0.72, "Exercise + Lunch"),
    Levels(0.92, 0.08, 0.72, 0.30, 0.52, 0.55, 0.75, "Post-meal PEAK mTOR"),
    Levels(0.55, 0.12, 0.45, 0.32, 0.54, 0.48, 0.72, "Afternoon"),
    Levels(0.40, 0.18, 0.32, 0.35, 0.55, 0.42, 0.70, "Mid-afternoon"),
    Levels(0.45, 0.15, 0.38, 0.38, 0.54, 0.38, 0.68, "Salad"),
    Levels(0.35, 0.18, 0.30, 0.42, 0.52, 0.32, 0.65, "Late afternoon"),
    Levels(0.28, 0.22, 0.25, 0.48, 0.50, 0.28, 0.62, "Early evening"),
    Levels(0.58, 0.10, 0.75, 0.52, 0.45, 0.25, 0.60, "Dinner"),
    Levels(0.42, 0.12, 0.52, 0.58, 0.46, 0.22, 0.55, "Post-dinner"),
    Levels(0.30, 0.18, 0.35, 0.65, 0.47, 0.20, 0.50, "Evening (2h post)"),
    Levels(0.22, 0.22, 0.25, 0.75, 0.48, 0.18, 0.45, "Pre wind-down"),
    Levels(0.15, 0.25, 0.18, 0.88, 0.49, 0.15, 0.38, "Wind-down"),
    Levels(0.12, 0.28, 0.15, 0.90, 0.50, 0.12, 0.35, "Bedtime")
  ]

  /** A key point of the Western table, which fixes its organ loads too. */
  datatype WesternPoint = WesternPoint(levels: Levels, liver: real, kidney: real)

  /** The key points of the Western comparison, hours 0..24. */
  const WesternKeyPoints: seq<WesternPoint> := [
    WesternPoint(Levels(0.25, 0.18, 0.22, 0.65, 0.42, 0.15, 0.42, "Sleep (2h since snack)"), 0.05, 0.05),
    WesternPoint(Levels(0.20, 0.22, 0.18, 0.68, 0.44, 0.12, 0.40, "Sleep"), 0.03, 0.03),
    WesternPoint(Levels(0.18, 0.25, 0.15, 0.70, 0.45, 0.10, 0.38, "Sleep"), 0.02, 0.02),
    WesternPoint(Levels(0.15, 0.28, 0.12, 0.72, 0.46, 0.12, 0.36, "Sleep"), 0.02, 0.02),
    WesternPoint(Levels(0.15, 0.30, 0.12, 0.70, 0.47, 0.18, 0.38, "Sleep"), 0.02, 0.02),
    WesternPoint(Levels(0.15, 0.32, 0.12, 0.65, 0.48, 0.28, 0.42, "Waking"), 0.02, 0.02),
    WesternPoint(Levels(0.18, 0.35, 0.15, 0.55, 0.50, 0.50, 0.48, "Waking"), 0.03, 0.03),
    WesternPoint(Levels(0.65, 0.12, 0.68, 0.40, 0.45, 0.75, 0.58, "BREAKFAST"), 0.15, 0.20),
    WesternPoint(Levels(0.55, 0.10, 0.55, 0.35, 0.42, 0.80, 0.62, "Post-breakfast"), 0.12, 0.15),
    WesternPoint(Levels(0.42, 0.12, 0.40, 0.32, 0.44, 0.75, 0.65, "Mid-morning"), 0.08, 0.10),
    WesternPoint(Levels(0.55, 0.08, 0.52, 0.30, 0.42, 0.70, 0.68, "SNACK"), 0.10, 0.12),
    WesternPoint(Levels(0.45, 0.10, 0.42, 0.32, 0.44, 0.65, 0.70, "Pre-lunch"), 0.08, 0.10),
    WesternPoint(Levels(0.75, 0.06, 0.72, 0.30, 0.40, 0.58, 0.72, "LUNCH"), 0.18, 0.22),
    WesternPoint(Levels(0.62, 0.08, 0.60, 0.32, 0.42, 0.52, 0.74, "Post-lunch"), 0.15, 0.18),
    WesternPoint(Levels(0.48, 0.10, 0.45, 0.35, 0.44, 0.48, 0.72, "Afternoon"), 0.10, 0.12),
    WesternPoint(Levels(0.55, 0.08, 0.52, 0.35, 0.42, 0.42, 0.70, "SNACK"), 0.12, 0.14),
    WesternPoint(Levels(0.45, 0.10, 0.42, 0.38, 0.44, 0.38, 0.68, "Late afternoon"), 0.08, 0.10),
    WesternPoint(Levels(0.38, 0.12, 0.35, 0.40, 0.45, 0.35, 0.66, "Early evening"), 0.06, 0.08),
    WesternPoint(Levels(0.72, 0.06, 0.75, 0.42, 0.40, 0.32, 0.64, "DINNER"), 0.20, 0.25),
    WesternPoint(Levels(0.58, 0.08, 0.58, 0.45, 0.42, 0.28, 0.60, "Post-dinner"), 0.15, 0.18),
    WesternPoint(Levels(0.45, 0.10, 0.45, 0.50, 0.44, 0.25, 0.56, "Evening"), 0.10, 0.12),
    WesternPoint(Levels(0.38, 0.12, 0.38, 0.55, 0.45, 0.22, 0.52, "Evening"), 0.08, 0.10),
    WesternPoint(Levels(0.52, 0.08, 0.55, 0.58, 0.42, 0.20, 0.50, "LATE SNACK"), 0.12, 0.15),
    WesternPoint(Levels(0.40, 0.12, 0.42, 0.62, 0.44, 0.18, 0.46, "Pre-bed"), 0.08, 0.10),
    WesternPoint(Levels(0.30, 0.15, 0.28, 0.65, 0.45, 0.15, 0.44, "Bedtime"), 0.05, 0.06)
  ]

  // ---------------------------------------------------------------------------
  // Clock labels
  // ---------------------------------------------------------------------------

  /** `c` is a clock label `HH:00` whose two digits spell `n`. */
  predicate IsClockLabel(c: string, n: nat) {
    && |c| == 5
    && IsDigit(c[0]) && IsDigit(c[1])
    && 10 * DigitValue(c[0]) + DigitValue(c[1]) == n
    && c[2..] == ":00"
  }

  /** The clock label of row key `h`: `(h % 24)` zero-padded to two digits,
      then ":00". */
  function ClockTime(h: nat): (c: string)
    ensures IsClockLabel(c, h % 24)
  {
    var n := h % 24;
    var digits := NatToString(n);
    var padded := PadStart2(digits);
    if n < 10 then
      assert |digits| == 1 && DigitValue(digits[0]) == n;
      assert padded == ['0', digits[0]];
      padded + ":00"
    else
      assert |digits| == 2 && padded == digits;
      TwoDigitsValue(digits);
      assert 10 * DigitValue(digits[0]) + DigitValue(digits[1]) == n;
      padded + ":00"
  }

  /** Reading a clock label back with `parseInt` recovers its hour. */
  lemma ClockTimeParses(h: nat)
    ensures ParseInt(ClockTime(h)) == Some(h % 24)
  {
    var c := ClockTime(h);
    LabelParses(c, h % 24);
  }

  /** Any two-digit label of hour `n` followed by ":00" parses back to `n`. */
  lemma LabelParses(c: string, n: nat)
    requires IsClockLabel(c, n)
    ensures ParseInt(c) == Some(n)
  {
    var ds, rest := c[..2], c[2..];
    assert ds == [c[0], c[1]] && rest == ":00";
    assert ds + rest == c;
    assert AllDigits(ds, Decimal);
    TwoDigitsValue(ds);
    assert DigitsValue(ds, Decimal) == n;
    assert |ds| == 2 && !IsDigit(rest[0]);
    ParseIntLeadingDigits(ds, rest);
  }

  /** Distinct hours of the day get distinct labels. */
  lemma ClockTimeInjective(h: nat, k: nat)
    requires h < 24 && k < 24 && h != k
    ensures ClockTime(h) != ClockTime(k)
  {
    assert h % 24 == h && k % 24 == k;
    var x, y := ClockTime(h), ClockTime(k);
    assert IsClockLabel(x, h) && IsClockLabel(y, k);
  }

  /** `getClockTime(timeOffset)`: the label shown beside a period, from
      `(morningOffset + timeOffset) % 24` with JavaScript's remainder. When the
      period's hour key names a bucket it is that row's label; otherwise the
      remainder is negative, between -23 and -1, and the label is that number
      unpadded: a minus sign, its one or two digits, then ":00". */
  function GetClockTime(m: int, t: int): (c: string)
    ensures 5 <= |c|
    ensures KeyExists(m, t) ==> 0 <= ClockHour(m, t) < 24 && c == ClockTime(ClockHour(m, t))
    ensures !KeyExists(m, t) ==>
              var n := -JsRem24(m + t);
              && 0 < n < 24
              && (m + t + n) % 24 == 0
              && c[0] == '-'
              && c[|c| - 3..] == ":00"
              && IsDecimal(c[1..|c| - 3], n)
  {
    var c := PadStart2(IntToString(JsRem24(m + t))) + ":00";
    if KeyExists(m, t) then
      ExistingKeyLabel(m, t, c);
      c
    else
      MissingKeyLabel(m, t, c);
      c
  }

  lemma ExistingKeyLabel(m: int, t: int, c: string)
    requires KeyExists(m, t) && c == PadStart2(IntToString(JsRem24(m + t))) + ":00"
    ensures 5 <= |c| && 0 <= ClockHour(m, t) < 24 && c == ClockTime(ClockHour(m, t))
  {
    ClockHourKey(m, t);
    var hour := JsRem24(m + t);
    assert IntToString(hour) == NatToString(hour);
    ClockTimeOfHour(hour);
  }

  /** Below 24 the label is the hour itself, padded. */
  lemma ClockTimeOfHour(h: nat)
    requires h < 24
    ensures ClockTime(h) == PadStart2(NatToString(h)) + ":00"
  {
    assert h % 24 == h;
  }

  lemma MissingKeyLabel(m: int, t: int, c: string)
    requires !KeyExists(m, t) && c == PadStart2(IntToString(JsRem24(m + t))) + ":00"
    ensures 5 <= |c|
    ensures var n := -JsRem24(m + t);
            && 0 < n < 24
            && (m + t + n) % 24 == 0
            && c[0] == '-'
            && c[|c| - 3..] == ":00"
            && IsDecimal(c[1..|c| - 3], n)
  {
    ClockHourKey(m, t);
    NegativeLabelShape(JsRem24(m + t), c);
  }

  /** The label `getClockTime` writes for a negative remainder: a minus sign,
      the magnitude's digits unpadded, then ":00". */
  lemma NegativeLabelShape(hour: int, c: string)
    requires -24 < hour < 0 && c == PadStart2(IntToString(hour)) + ":00"
    ensures 5 <= |c| && c[0] == '-' && c[|c| - 3..] == ":00"
    ensures IsDecimal(c[1..|c| - 3], -hour)
  {
    var digits := IntToString(hour);
    assert PadStart2(digits) == digits;
    assert c[1..|c| - 3] == digits[1..];
  }

  /** A key one hour before midnight of the previous day and one a full day
      back: `getClockTime` writes "-1:00" and "-15:00" from a 09:00 anchor. */
  lemma NegativeKeyLabels()
    ensures GetClockTime(9, -10) == "-1:00"
    ensures GetClockTime(9, -24) == "-15:00"
  {
    NegativeLabel(-10, "1", "-1:00");
    NegativeLabel(-24, "15", "-15:00");
  }

  /** The label of offset `t` from a 09:00 anchor whose negative remainder
      `toString` spells as '-' followed by `d`. */
  lemma NegativeLabel(t: int, d: string, text: string)
    requires (t == -10 && d == "1" && text == "-1:00") || (t == -24 && d == "15" && text == "-15:00")
    ensures GetClockTime(9, t) == text
  {
    var r := 9 + t;
    assert JsRem24(r) == r;
    if r == -1 {
      assert NatToString(1) == d;
    } else {
      assert NatToString(1) == "1";
      assert NatToString(15) == NatToString(1) + [DigitChar(5)];
    }
    assert IntToString(r) == "-" + d;
    assert PadStart2("-" + d) == "-" + d;
    assert "-" + d + ":00" == text;
  }

  // ---------------------------------------------------------------------------
  // The optimized timeline
  // ---------------------------------------------------------------------------

  /** `Math.min(x, 1)`: an upper clamp only. */
  predicate ClampedFrom(v: real, x: real) {
    && v <= 1.0
    && (x <= 1.0 ==> v == x)
    && (x > 1.0 ==> v == 1.0)
  }

  function Clamp(x: real): (v: real)
    ensures ClampedFrom(v, x)
  {
    if x < 1.0 then x else 1.0
  }

  function OptimizedRow(h: nat, load: seq<Bucket>): Row
    requires h < |OptimizedKeyPoints| && |load| == BucketCount
  {
    var b := load[h % 24];
    Row(h, ClockTime(h), OptimizedKeyPoints[h], Clamp(b.liver), Clamp(b.kidney))
  }

  /** `generateOptimizedData(schedule, morningOffset)`. It fails exactly when
      the organ-load computation throws; otherwise row `h` carries the key
      points of hour `h` and the load of bucket `h % 24`, capped at 1 from
      above and never raised from below. Row 24 repeats the load of row 0. */
  function GenerateOptimizedData(schedule: Schedule, m: int): (r: Result<seq<Row>, LoadError>)
    ensures r.Success? <==> Anchored(schedule, m)
    ensures r.Failure? ==> -24 < r.error.key < 0
    ensures r.Success? ==> |r.value| == 25
    ensures r.Success? ==> forall h :: 0 <= h < 25 ==>
              var row := r.value[h];
              var b := LoadAt(schedule, m, h % 24);
              && row.hour == h
              && IsClockLabel(row.clockTime, h % 24)
              && row.levels == OptimizedKeyPoints[h]
              && ClampedFrom(row.liver, b.liver)
              && ClampedFrom(row.kidney, b.kidney)
    ensures r.Success? ==> r.value[24].liver == r.value[0].liver && r.value[24].kidney == r.value[0].kidney
  {
    match CalculateOrganLoad(schedule, m)
    case Failure(e) => Failure(e)
    case Success(load) => Success(seq(25, h requires 0 <= h < 25 => OptimizedRow(h, load)))
  }

  /** The optimized table itself does not repeat at the wrap: row 24 keeps its
      own pathway levels and label, so only the load columns agree with row 0. */
  lemma WrapRowKeepsOwnLevels()
    ensures OptimizedKeyPoints[24] != OptimizedKeyPoints[0]
    ensures OptimizedKeyPoints[0].gaba == 0.88 && OptimizedKeyPoints[24].gaba == 0.90
    ensures OptimizedKeyPoints[0].cortisol == 0.15 && OptimizedKeyPoints[24].cortisol == 0.12
  {
  }

  /** Taurine, the one item with a negative liver load, taken alone at offset
      14 from a 09:00 anchor, that is at 23:00. */
  const TaurineAlone: Schedule := [Some(PeriodAt(14, [Dose("taurine", -0.1, 0.05)]))]

  lemma TaurineBucket()
    ensures Anchored(TaurineAlone, 9)
    ensures LoadAt(TaurineAlone, 9, 23) == Bucket(-0.05, 0.025)
  {
    var p := TaurineAlone[0].value;
    assert LoadItems(p) == [Dose("taurine", -0.1, 0.05)];
    SingleItemSpread(p, OrganLoad(Some(-0.1), Some(0.05)), 9);
    assert ClockHour(9, TimeOrZero(p)) == 23;
  }

  /** Negative loads reach the chart unclamped: a row charts exactly the
      negative load of its bucket, as taurine alone does at 23:00 (-0.05). */
  lemma NegativeLoadPassesThrough(schedule: Schedule, m: int, h: nat)
    requires Anchored(schedule, m) && h < 25
    requires LoadAt(schedule, m, h % 24).liver < 0.0
    ensures GenerateOptimizedData(schedule, m).value[h].liver == LoadAt(schedule, m, h % 24).liver
  {
  }

  // ---------------------------------------------------------------------------
  // The Western timeline
  // ---------------------------------------------------------------------------

  /** `generateWesternData()`: the fixed comparison table, keyed 0..24 in
      order, whatever the schedule or settings say, charting the table's own
      liver and kidney figures. Those stay within [0, 0.25]. */
  function GenerateWesternData(): (rows: seq<Row>)
    ensures |rows| == 25
    ensures forall h :: 0 <= h < 25 ==>
              && rows[h].hour == h
              && IsClockLabel(rows[h].clockTime, h % 24)
              && rows[h].levels == WesternKeyPoints[h].levels
              && rows[h].liver == WesternKeyPoints[h].liver
              && rows[h].kidney == WesternKeyPoints[h].kidney
              && 0.0 <= rows[h].liver <= 0.25
              && 0.0 <= rows[h].kidney <= 0.25
  {
    WesternLoadsBounded();
    seq(25, h requires 0 <= h < 25 =>
      Row(h, ClockTime(h), WesternKeyPoints[h].levels, WesternKeyPoints[h].liver, WesternKeyPoints[h].kidney))
  }

  lemma WesternLoadsBounded()
    ensures |WesternKeyPoints| == 25
    ensures forall h :: 0 <= h < 25 ==>
              0.0 <= WesternKeyPoints[h].liver <= 0.25 && 0.0 <= WesternKeyPoints[h].kidney <= 0.25
  {
  }

  /** Every pathway level in both tables lies in [0, 1]. */
  predicate InUnitRange(l: Levels) {
    && 0.0 <= l.mtor <= 1.0 && 0.0 <= l.autophagy <= 1.0 && 0.0 <= l.insulin <= 1.0
    && 0.0 <= l.gaba <= 1.0 && 0.0 <= l.nad <= 1.0 && 0.0 <= l.cortisol <= 1.0
    && 0.0 <= l.coreTemp <= 1.0
  }

  lemma OptimizedLevelsInUnitRange()
    ensures forall h :: 0 <= h < 25 ==> InUnitRange(OptimizedKeyPoints[h])
  {
  }

  lemma WesternLevelsInUnitRange()
    ensures forall h :: 0 <= h < 25 ==> InUnitRange(WesternKeyPoints[h].levels)
  {
  }

  // ---------------------------------------------------------------------------
  // Dashboard wiring
  // ---------------------------------------------------------------------------

  datatype DietMode = Optimized | Western

  /** The rows the dashboard charts. Both tables are built before the mode is
      consulted, so a schedule on which the organ-load computation throws
      breaks the Western view as well. */
  function TimelineData(c: Config, mode: DietMode): (r: Result<seq<Row>, LoadError>)
    ensures r.Success? <==> Anchored(ScheduleOf(c), MorningOffset(c))
    ensures r.Success? ==> |r.value| == 25
    ensures r.Success? ==> forall h :: 0 <= h < 25 ==> r.value[h].hour == h
    ensures r.Success? && mode.Western? ==> r.value == GenerateWesternData()
    ensures r.Success? && mode.Optimized? ==>
              r == GenerateOptimizedData(ScheduleOf(c), MorningOffset(c))
    ensures r.Success? && mode.Optimized? ==>
              forall h :: 0 <= h < 25 ==> r.value[h].levels == OptimizedKeyPoints[h]
  {
    var optimized := GenerateOptimizedData(ScheduleOf(c), MorningOffset(c));
    var western := GenerateWesternData();
    match optimized
    case Failure(e) => Failure(e)
    case Success(rows) => Success(if mode.Optimized? then rows else western)
  }

  /** A configured morning offset of 0 is not honoured: it falls back to 9,
      exactly as an absent setting does. */
  lemma ZeroOffsetActsAsNine(s: Option<Schedule>, mode: DietMode)
    ensures TimelineData(Config(Some(Settings(Some(0))), s), mode)
         == TimelineData(Config(Some(Settings(Some(9))), s), mode)
         == TimelineData(Config(None, s), mode)
  {
  }

  /** The default configuration charts successfully in either mode. */
  lemma DefaultConfigCharts(mode: DietMode)
    ensures TimelineData(DefaultConfig, mode).Success?
  {
    DefaultConfigAnchoring();
  }
}
