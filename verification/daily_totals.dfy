/** The day's nutrition summary the dashboard shows: calories and protein
    summed over every item taken orally or with food, read from the `macros`
    strings with `parseInt`, next to a fixed fasting window. */
module DailyTotals {
  import opened Wrappers
  import opened JsText
  import opened Schedule
  import opened Sequences

  datatype Intake = Intake(calories: int, protein: int)

  const NoIntake: Intake := Intake(0, 0)

  function Add(a: Intake, b: Intake): Intake {
    Intake(a.calories + b.calories, a.protein + b.protein)
  }

  /** The fasting window the summary reports; it is a fixed figure, not
      derived from the schedule. */
  const FastingHours: nat := 17

  /** What one `macros` field adds to its total: nothing when the field is
      absent or empty, otherwise `parseInt(field) || 0`, so that text
      `parseInt` reads as NaN adds nothing either. */
  function MacroAmount(field: Option<string>): (n: int)
    ensures field.None? ==> n == 0
    ensures field.Some? && IsBlank(field.value) ==> n == 0
    ensures field.Some? && |field.value| > 0 && '1' <= field.value[0] <= '9' ==> n >= 0
  {
    match field
    case None => 0
    case Some(s) => if |s| == 0 then 0 else ParseInt(s).GetOr(0)
  }

  /** A field such as "35g" counts as the number its leading digits spell. */
  lemma MacroAmountReadsLeadingDigits(ds: string, rest: string)
    requires |ds| >= 1 && AllDigits(ds, Decimal)
    requires |rest| == 0 || !IsDigit(rest[0])
    requires !(ds == "0" && |rest| > 0 && (rest[0] == 'x' || rest[0] == 'X'))
    ensures MacroAmount(Some(ds + rest)) == DigitsValue(ds, Decimal)
  {
    ParseIntLeadingDigits(ds, rest);
  }

  /** Text that `parseInt` cannot read counts as zero. */
  lemma MacroAmountOfNaN(s: string)
    requires ParseInt(s) == None
    ensures MacroAmount(Some(s)) == 0
  {
  }

  /** Writing a count with `toString`, with or without a unit suffix such as
      "g", and reading it back with `parseInt` gives the count. */
  lemma MacroAmountRoundTrip(n: nat, suffix: string)
    requires |suffix| == 0 || !IsDigit(suffix[0])
    requires !(n == 0 && |suffix| > 0 && (suffix[0] == 'x' || suffix[0] == 'X'))
    ensures MacroAmount(Some(NatToString(n) + suffix)) == n
  {
    MacroAmountReadsLeadingDigits(NatToString(n), suffix);
  }

  // ---------------------------------------------------------------------------
  // Reference definition
  // ---------------------------------------------------------------------------

  /** The sum of `f` over a sequence: the fold `Convolver.SumOf` makes over
      real-valued bucket loads, here over integer totals. */
  function Sum<T>(xs: seq<T>, f: T -> Intake): Intake {
    if |xs| == 0 then NoIntake else Add(f(xs[0]), Sum(xs[1..], f))
  }

  function ItemIntake(item: Item): Intake {
    match item.macros
    case None => NoIntake
    case Some(mc) => Intake(MacroAmount(mc.calories), MacroAmount(mc.protein))
  }

  /** What a period contributes: the macros of its oral and with-food items. */
  function PeriodIntake(p: Option<Period>): Intake {
    match p
    case None => NoIntake
    case Some(q) => Sum(MealItems(q), ItemIntake)
  }

  /** The intake of a whole schedule, period by period. */
  function ScheduleIntake(schedule: Schedule): Intake {
    Sum(schedule, PeriodIntake)
  }

  // ---------------------------------------------------------------------------
  // The computation
  // ---------------------------------------------------------------------------

  /** The scan over one period's oral and with-food items: each of `calories`
      and `protein` adds `parseInt(field) || 0` when the item has the field
      and it is non-empty. */
  method ListMacros(items: seq<Item>) returns (calories: int, protein: int)
    ensures Intake(calories, protein) == Sum(items, ItemIntake)
  {
    var acc := NoIntake;
    var k := 0;
    while k < |items|
      invariant 0 <= k <= |items|
      invariant acc == Sum(items[..k], ItemIntake)
    {
      var macros := items[k].macros;
      var dc, dp := 0, 0;
      if macros.Some? {
        var cal := macros.value.calories;
        if cal.Some? && |cal.value| > 0 {
          var v := ParseInt(cal.value);
          dc := if v.Some? then v.value else 0;
        }
        var prot := macros.value.protein;
        if prot.Some? && |prot.value| > 0 {
          var v := ParseInt(prot.value);
          dp := if v.Some? then v.value else 0;
        }
      }
      SumStep(items, k, ItemIntake);
      acc := Add(acc, Intake(dc, dp));
      k := k + 1;
    }
    assert items[..k] == items;
    calories, protein := acc.calories, acc.protein;
  }

  /** The scan over the periods: each period's oral and with-food items are
      scanned in turn, and an absent period, through `period?.oral || []`,
      offers no items. */
  method ScheduleMacros(schedule: Schedule) returns (calories: int, protein: int)
    ensures Intake(calories, protein) == ScheduleIntake(schedule)
  {
    var acc := NoIntake;
    var i := 0;
    while i < |schedule|
      invariant 0 <= i <= |schedule|
      invariant acc == Sum(schedule[..i], PeriodIntake)
    {
      var items := if schedule[i].Some? then MealItems(schedule[i].value) else [];
      var dc, dp := ListMacros(items);
      PeriodStep(schedule[i], Intake(dc, dp));
      SumStep(schedule, i, PeriodIntake);
      acc := Add(acc, Intake(dc, dp));
      i := i + 1;
    }
    assert schedule[..i] == schedule;
    calories, protein := acc.calories, acc.protein;
  }

  /** What one period's step adds is its intake. */
  lemma PeriodStep(period: Option<Period>, d: Intake)
    requires period.None? ==> d == NoIntake
    requires period.Some? ==> d == Sum(MealItems(period.value), ItemIntake)
    ensures d == PeriodIntake(period)
  {
  }

  /** `dailyTotals`: a scan over the configuration's periods and, within each,
      over its oral and with-food items, adding each item's parsed calories
      and protein, next to the fixed fasting window. */
  method ComputeDailyTotals(c: Config) returns (intake: Intake, fastingHours: nat)
    ensures intake == ScheduleIntake(ScheduleOf(c))
    ensures fastingHours == FastingHours
  {
    var calories, protein := ScheduleMacros(ScheduleOf(c));
    intake := Intake(calories, protein);
    fastingHours := FastingHours;
  }

  // ---------------------------------------------------------------------------
  // Properties
  // ---------------------------------------------------------------------------

  lemma {:induction false} SumConcat<T>(xs: seq<T>, ys: seq<T>, f: T -> Intake)
    ensures Sum(xs + ys, f) == Add(Sum(xs, f), Sum(ys, f))
    decreases |xs|
  {
    if |xs| == 0 {
      assert xs + ys == ys;
    } else {
      assert (xs + ys)[1..] == xs[1..] + ys;
      SumConcat(xs[1..], ys, f);
    }
  }

  lemma SumSingleton<T>(x: T, f: T -> Intake)
    ensures Sum([x], f) == f(x)
  {
    assert [x][1..] == [];
  }

  /** Extending a prefix by one element adds that element: the step of a scan
      from the front. */
  lemma SumStep<T>(xs: seq<T>, i: nat, f: T -> Intake)
    requires i < |xs|
    ensures Sum(xs[..i + 1], f) == Add(Sum(xs[..i], f), f(xs[i]))
  {
    assert xs[..i + 1] == xs[..i] + [xs[i]];
    SumConcat(xs[..i], [xs[i]], f);
    SumSingleton(xs[i], f);
  }

  /** Totals add up over a split of the schedule. */
  lemma IntakeAdditivity(a: Schedule, b: Schedule)
    ensures ScheduleIntake(a + b) == Add(ScheduleIntake(a), ScheduleIntake(b))
  {
    SumConcat(a, b, PeriodIntake);
  }

  lemma SumCons<T>(x: T, t: seq<T>, f: T -> Intake)
    ensures Sum([x] + t, f) == Add(f(x), Sum(t, f))
  {
    assert ([x] + t)[1..] == t;
  }

  /** An element in the middle of a sequence can be summed first. */
  lemma SumMiddle<T>(a: seq<T>, x: T, t: seq<T>, f: T -> Intake)
    ensures Sum(a + ([x] + t), f) == Add(f(x), Sum(a + t, f))
  {
    SumConcat(a, [x] + t, f);
    SumCons(x, t, f);
    SumConcat(a, t, f);
  }

  lemma SumRemove<T>(ys: seq<T>, k: nat, f: T -> Intake)
    requires k < |ys|
    ensures Sum(ys, f) == Add(f(ys[k]), Sum(ys[..k] + ys[k + 1..], f))
  {
    SplitAt(ys, k);
    SumMiddle(ys[..k], ys[k], ys[k + 1..], f);
  }

  lemma {:induction false} SumPermutation<T>(xs: seq<T>, ys: seq<T>, f: T -> Intake)
    requires multiset(xs) == multiset(ys)
    ensures Sum(xs, f) == Sum(ys, f)
    decreases |xs|
  {
    if |xs| == 0 {
      assert |ys| == |multiset(ys)|;
    } else {
      assert xs[0] in multiset(ys);
      var k :| 0 <= k < |ys| && ys[k] == xs[0];
      MultisetRemove(xs, ys, k);
      SumPermutation(xs[1..], ys[..k] + ys[k + 1..], f);
      SumRemove(xs, 0, f);
      assert xs[..0] + xs[1..] == xs[1..];
      SumRemove(ys, k, f);
    }
  }

  /** The order of the periods, and of the items within the lists, does not
      change the totals. */
  lemma PeriodOrderIrrelevant(a: Schedule, b: Schedule)
    requires multiset(a) == multiset(b)
    ensures ScheduleIntake(a) == ScheduleIntake(b)
  {
    SumPermutation(a, b, PeriodIntake);
  }

  lemma ItemOrderIrrelevant(p: Period, q: Period)
    requires multiset(MealItems(p)) == multiset(MealItems(q))
    ensures PeriodIntake(Some(p)) == PeriodIntake(Some(q))
  {
    SumPermutation(MealItems(p), MealItems(q), ItemIntake);
  }

  /** The `macros` fields of a list of items, in order: all the scan reads of
      an item. */
  function MacrosOf(items: seq<Item>): (r: seq<Option<Macros>>)
    ensures |r| == |items|
    ensures forall i :: 0 <= i < |items| ==> r[i] == items[i].macros
  {
    seq(|items|, i requires 0 <= i < |items| => items[i].macros)
  }

  /** The macros a period offers the scan, an absent period offering none. */
  function PeriodMacros(p: Option<Period>): seq<Option<Macros>> {
    match p
    case None => []
    case Some(q) => MacrosOf(MealItems(q))
  }

  /** Two periods whose oral and with-food items carry the same macros, in
      order, contribute the same: presence, `uti`, `separate`, the topical
      lists, the time, item ids and every organ load are not read. */
  predicate SameMealInputs(p: Option<Period>, q: Option<Period>) {
    PeriodMacros(p) == PeriodMacros(q)
  }

  /** A period's intake is read off its meal items' macros alone. */
  lemma SameMacrosSameIntake(p: Option<Period>, q: Option<Period>)
    requires SameMealInputs(p, q)
    ensures PeriodIntake(p) == PeriodIntake(q)
  {
    if p.Some? && q.Some? {
      var xs, ys := MealItems(p.value), MealItems(q.value);
      forall i | 0 <= i < |xs|
        ensures ItemIntake(xs[i]) == ItemIntake(ys[i])
      {
        assert MacrosOf(xs)[i] == MacrosOf(ys)[i];
      }
      SumPointwise(xs, ys, ItemIntake);
    }
  }

  lemma {:induction false} SumPointwise<T>(xs: seq<T>, ys: seq<T>, f: T -> Intake)
    requires |xs| == |ys|
    requires forall i :: 0 <= i < |xs| ==> f(xs[i]) == f(ys[i])
    ensures Sum(xs, f) == Sum(ys, f)
    decreases |xs|
  {
    if |xs| > 0 {
      SumPointwise(xs[1..], ys[1..], f);
    }
  }

  lemma OnlyMealListsCount(a: Schedule, b: Schedule)
    requires |a| == |b|
    requires forall i :: 0 <= i < |a| ==> SameMealInputs(a[i], b[i])
    ensures ScheduleIntake(a) == ScheduleIntake(b)
  {
    forall i | 0 <= i < |a|
      ensures PeriodIntake(a[i]) == PeriodIntake(b[i])
    {
      SameMacrosSameIntake(a[i], b[i]);
    }
    SumPointwise(a, b, PeriodIntake);
  }

  /** An absent period adds nothing. */
  lemma NullPeriodSkipped(a: Schedule, b: Schedule)
    ensures ScheduleIntake(a + [None] + b) == ScheduleIntake(a + b)
  {
    SumConcat(a + [None], b, PeriodIntake);
    SumConcat(a, [None], PeriodIntake);
    SumSingleton(None, PeriodIntake);
    SumConcat(a, b, PeriodIntake);
  }

  // ---------------------------------------------------------------------------
  // The default configuration
  // ---------------------------------------------------------------------------

  /** A meal whose fields were written as `toString` of the counts, the protein
      with a "g" suffix, contributes those counts. */
  lemma MealIntake(id: string, liver: real, kidney: real, calories: nat, protein: nat)
    ensures ItemIntake(Meal(id, liver, kidney, NatToString(calories), NatToString(protein) + "g"))
         == Intake(calories, protein)
  {
    MacroAmountRoundTrip(calories, "");
    assert NatToString(calories) + "" == NatToString(calories);
    MacroAmountRoundTrip(protein, "g");
  }

  lemma {:induction false} NoMacrosAddNothing(items: seq<Item>)
    requires forall k :: 0 <= k < |items| ==> items[k].macros.None?
    ensures Sum(items, ItemIntake) == NoIntake
    decreases |items|
  {
    if |items| > 0 {
      NoMacrosAddNothing(items[1..]);
    }
  }

  /** A list led by one meal and otherwise made of plain doses contributes the
      meal's macros. */
  lemma LeadingMeal(items: seq<Item>)
    requires |items| > 0
    requires forall k :: 1 <= k < |items| ==> items[k].macros.None?
    ensures Sum(items, ItemIntake) == ItemIntake(items[0])
  {
    NoMacrosAddNothing(items[1..]);
  }

  /** Three digits read as a calorie count. */
  lemma ThreeDigitAmount(s: string)
    requires |s| == 3 && IsDigit(s[0]) && IsDigit(s[1]) && IsDigit(s[2])
    ensures MacroAmount(Some(s)) == 100 * DigitValue(s[0]) + 10 * DigitValue(s[1]) + DigitValue(s[2])
  {
    assert s + "" == s;
    assert AllDigits(s, Decimal);
    MacroAmountReadsLeadingDigits(s, "");
    ThreeDigitsValue(s);
  }

  /** Two digits followed by "g" read as a gram count. */
  lemma TwoDigitGrams(s: string)
    requires |s| == 3 && IsDigit(s[0]) && IsDigit(s[1]) && s[2] == 'g'
    ensures MacroAmount(Some(s)) == 10 * DigitValue(s[0]) + DigitValue(s[1])
  {
    var ds := s[..2];
    assert ds + "g" == s;
    assert AllDigits(ds, Decimal);
    MacroAmountReadsLeadingDigits(ds, "g");
    TwoDigitsValue(ds);
  }

  /** A meal whose calories are three digits and whose protein is two digits
      followed by "g" contributes the numbers those digits spell. */
  lemma DigitMealIntake(id: string, liver: real, kidney: real, calories: string, protein: string)
    requires |calories| == 3 && IsDigit(calories[0]) && IsDigit(calories[1]) && IsDigit(calories[2])
    requires |protein| == 3 && IsDigit(protein[0]) && IsDigit(protein[1]) && protein[2] == 'g'
    ensures ItemIntake(Meal(id, liver, kidney, calories, protein))
         == Intake(100 * DigitValue(calories[0]) + 10 * DigitValue(calories[1]) + DigitValue(calories[2]),
                   10 * DigitValue(protein[0]) + DigitValue(protein[1]))
  {
    ThreeDigitAmount(calories);
    TwoDigitGrams(protein);
  }

  /** A period whose meal list is led by one meal and otherwise holds plain
      doses contributes that meal's intake. */
  lemma MealLedPeriod(p: Period, meal: Item)
    requires |MealItems(p)| > 0 && MealItems(p)[0] == meal
    requires forall k :: 1 <= k < |MealItems(p)| ==> MealItems(p)[k].macros.None?
    ensures PeriodIntake(Some(p)) == ItemIntake(meal)
  {
    LeadingMeal(MealItems(p));
  }

  /** The protein meal item counts 500 kcal and 35 g of protein. */
  lemma ProteinMealMacros()
    ensures ItemIntake(Meal("protein_meal", 0.2, 0.35, "500", "35g")) == Intake(500, 35)
  {
    DigitMealIntake("protein_meal", 0.2, 0.35, "500", "35g");
  }

  lemma MiddayIntake()
    ensures PeriodIntake(DefaultSchedule[1]) == Intake(500, 35)
  {
    MealLedPeriod(DefaultSchedule[1].value, Meal("protein_meal", 0.2, 0.35, "500", "35g"));
    ProteinMealMacros();
  }

  /** The salad item counts 450 kcal and 18 g of protein. */
  lemma SaladMacros()
    ensures ItemIntake(Meal("salad", 0.1, 0.15, "450", "18g")) == Intake(450, 18)
  {
    DigitMealIntake("salad", 0.1, 0.15, "450", "18g");
  }

  lemma LateAfternoonIntake()
    ensures PeriodIntake(DefaultSchedule[3]) == Intake(450, 18)
  {
    MealLedPeriod(DefaultSchedule[3].value, Meal("salad", 0.1, 0.15, "450", "18g"));
    SaladMacros();
  }

  /** The dinner meal item counts 700 kcal and 40 g of protein. */
  lemma DinnerMealMacros()
    ensures ItemIntake(Meal("dinner_meal", 0.25, 0.3, "700", "40g")) == Intake(700, 40)
  {
    DigitMealIntake("dinner_meal", 0.25, 0.3, "700", "40g");
  }

  lemma DinnerIntake()
    ensures PeriodIntake(DefaultSchedule[4]) == Intake(700, 40)
  {
    MealLedPeriod(DefaultSchedule[4].value, Meal("dinner_meal", 0.25, 0.3, "700", "40g"));
    DinnerMealMacros();
  }

  /** The morning, afternoon, wind-down and bedtime periods hold no meal. */
  lemma MealFreeIntakes()
    ensures PeriodIntake(DefaultSchedule[0]) == NoIntake
    ensures PeriodIntake(DefaultSchedule[2]) == NoIntake
    ensures PeriodIntake(DefaultSchedule[5]) == NoIntake
    ensures PeriodIntake(DefaultSchedule[6]) == NoIntake
  {
    NoMacrosAddNothing(MealItems(DefaultSchedule[0].value));
    NoMacrosAddNothing(MealItems(DefaultSchedule[2].value));
    NoMacrosAddNothing(MealItems(DefaultSchedule[5].value));
    NoMacrosAddNothing(MealItems(DefaultSchedule[6].value));
  }

  lemma SumTail<T>(xs: seq<T>, i: nat, f: T -> Intake)
    requires i < |xs|
    ensures Sum(xs[i..], f) == Add(f(xs[i]), Sum(xs[i + 1..], f))
  {
    assert xs[i..][1..] == xs[i + 1..];
  }

  /** The intake of seven periods whose intakes are known. */
  lemma SevenPeriods(s: Schedule, a: Intake, b: Intake, c: Intake, d: Intake, e: Intake, f: Intake, g: Intake)
    requires |s| == 7
    requires PeriodIntake(s[0]) == a && PeriodIntake(s[1]) == b && PeriodIntake(s[2]) == c
    requires PeriodIntake(s[3]) == d && PeriodIntake(s[4]) == e && PeriodIntake(s[5]) == f
    requires PeriodIntake(s[6]) == g
    ensures ScheduleIntake(s) == Add(a, Add(b, Add(c, Add(d, Add(e, Add(f, Add(g, NoIntake)))))))
  {
    assert s[0..] == s;
    SumTail(s, 0, PeriodIntake);
    SumTail(s, 1, PeriodIntake);
    SumTail(s, 2, PeriodIntake);
    SumTail(s, 3, PeriodIntake);
    SumTail(s, 4, PeriodIntake);
    SumTail(s, 5, PeriodIntake);
    SumTail(s, 6, PeriodIntake);
    assert s[7..] == [];
  }

  /** The default schedule's three meals give 1650 kcal and 93 g of protein. */
  lemma DefaultDailyTotals()
    ensures ScheduleIntake(ScheduleOf(DefaultConfig)) == Intake(1650, 93)
  {
    MiddayIntake();
    LateAfternoonIntake();
    DinnerIntake();
    MealFreeIntakes();
    SevenPeriods(DefaultSchedule, NoIntake, Intake(500, 35), NoIntake, Intake(450, 18), Intake(700, 40), NoIntake, NoIntake);
  }
}
