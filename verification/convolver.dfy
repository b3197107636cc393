/** The organ-load convolver, `calculateOrganLoad`: every item of a period's
    `oral`, `with_food`, `uti` and `separate` lists that carries an `organ_load`
    spreads its liver and kidney load over three consecutive clock hours with
    weights 0.5, 0.35 and 0.15, starting at the period's clock hour.

    Loads are exact `real`s here; the source's IEEE-754 products and sums are
    not modelled, so conservation holds exactly only in the model. The result is
    the 25 buckets `hourlyLoad[0..24]`. A period whose clock-hour key is negative
    makes the source throw as soon as one of its items carries a load; that is
    the `Failure` of `CalculateOrganLoad`. */
module Convolver {
  import opened Wrappers
  import opened JsText
  import opened Schedule
  import opened Sequences

  /** One hourly bucket `{liver, kidney}`. */
  datatype Bucket = Bucket(liver: real, kidney: real)

  const NoLoad: Bucket := Bucket(0.0, 0.0)

  /** The number of buckets, hours 0 through 24. */
  const BucketCount: nat := 25

  function Plus(a: Bucket, b: Bucket): Bucket {
    Bucket(a.liver + b.liver, a.kidney + b.kidney)
  }

  function Scale(b: Bucket, f: real): Bucket {
    Bucket(b.liver * f, b.kidney * f)
  }

  /** The initial `hourlyLoad`: every bucket `{liver: 0, kidney: 0}`. */
  function ZeroSeries(): seq<Bucket> {
    seq(BucketCount, _ => NoLoad)
  }

  /** The decay factor applied `offset` hours after intake. */
  function Factor(offset: nat): real {
    if offset == 0 then 0.5 else if offset == 1 then 0.35 else 0.15
  }

  /** `(organ_load.liver || 0, organ_load.kidney || 0)`. */
  function Amount(l: OrganLoad): Bucket {
    Bucket(l.liver.GetOr(0.0), l.kidney.GetOr(0.0))
  }

  /** `hourlyLoad[j] += b`, field by field. */
  function AddAt(s: seq<Bucket>, j: nat, b: Bucket): seq<Bucket>
    requires j < |s|
  {
    s[j := Plus(s[j], b)]
  }

  /** The loop `for (offset = ...; offset < 3; offset++)` over one item's taps. */
  function Taps(s: seq<Bucket>, hour: nat, amount: Bucket, offset: nat): (r: seq<Bucket>)
    requires |s| == BucketCount && hour < 24 && offset <= 3
    ensures |r| == BucketCount
    decreases 3 - offset
  {
    if offset == 3 then s
    else Taps(AddAt(s, (hour + offset) % 24, Scale(amount, Factor(offset))), hour, amount, offset + 1)
  }

  /** `allSupps.forEach(...)`: items without an `organ_load` are skipped. */
  function SpreadItems(s: seq<Bucket>, hour: nat, items: seq<Item>): (r: seq<Bucket>)
    requires |s| == BucketCount && hour < 24
    ensures |r| == BucketCount
    decreases |items|
  {
    if |items| == 0 then s
    else
      var next := match items[0].organLoad
        case None => s
        case Some(l) => Taps(s, hour, Amount(l), 0);
      SpreadItems(next, hour, items[1..])
  }

  /** `(morningOffset + (period.time || 0)) % 24`, with JavaScript's `%`. */
  function ClockHour(m: int, t: int): int {
    JsRem24(m + t)
  }

  predicate HasLoad(items: seq<Item>) {
    exists i :: 0 <= i < |items| && items[i].organLoad.Some?
  }

  /** The key of the bucket the source tried to update when it threw. */
  datatype LoadError = MissingBucket(key: int)

  /** `Object.values(schedule).forEach(...)` from bucket state `s` on. */
  function Accumulate(s: seq<Bucket>, m: int, periods: Schedule): (r: Result<seq<Bucket>, LoadError>)
    requires |s| == BucketCount
    ensures r.Success? ==> |r.value| == BucketCount
    decreases |periods|
  {
    if |periods| == 0 then Success(s)
    else match periods[0]
      case None => Accumulate(s, m, periods[1..])
      case Some(p) =>
        var hour := ClockHour(m, TimeOrZero(p));
        var items := LoadItems(p);
        if hour < 0 then
          if HasLoad(items) then Failure(MissingBucket(hour)) else Accumulate(s, m, periods[1..])
        else Accumulate(SpreadItems(s, hour, items), m, periods[1..])
  }

  // ---------------------------------------------------------------------------
  // Reference definition
  // ---------------------------------------------------------------------------

  /** A clock-hour key `(m + t) % 24` names a bucket: JavaScript's remainder is
      negative exactly when `m + t` is negative and not a multiple of 24. */
  predicate KeyExists(m: int, t: int) {
    m + t >= 0 || (m + t) % 24 == 0
  }

  /** Every period that carries a load has a clock hour that names a bucket. */
  predicate Anchored(schedule: Schedule, m: int) {
    forall i :: 0 <= i < |schedule| && schedule[i].Some? && HasLoad(LoadItems(schedule[i].value))
                ==> KeyExists(m, TimeOrZero(schedule[i].value))
  }

  /** The share of an item's load that lands in bucket `j` when the item is
      taken at clock hour `hour`. */
  function Weight(j: int, hour: int): real {
    if j == hour then 0.5
    else if j == (hour + 1) % 24 then 0.35
    else if j == (hour + 2) % 24 then 0.15
    else 0.0
  }

  function SumOf<T>(xs: seq<T>, f: T -> Bucket): Bucket {
    if |xs| == 0 then NoLoad else Plus(f(xs[0]), SumOf(xs[1..], f))
  }

  /** The share of an optional `organ_load` that lands in bucket `j`. */
  function LoadShare(o: Option<OrganLoad>, hour: int, j: int): Bucket {
    match o
    case None => NoLoad
    case Some(l) => Scale(Amount(l), Weight(j, hour))
  }

  function ItemLoadAt(item: Item, hour: int, j: int): Bucket {
    LoadShare(item.organLoad, hour, j)
  }

  function ShareKernel(hour: int, j: int): Option<OrganLoad> -> Bucket {
    o => LoadShare(o, hour, j)
  }

  /** The `organ_load` fields of a list of items, in order: all the convolver
      reads of an item. */
  function LoadsOf(items: seq<Item>): (r: seq<Option<OrganLoad>>)
    ensures |r| == |items|
    ensures forall i :: 0 <= i < |items| ==> r[i] == items[i].organLoad
  {
    seq(|items|, i requires 0 <= i < |items| => items[i].organLoad)
  }

  function ItemKernel(hour: int, j: int): Item -> Bucket {
    item => ItemLoadAt(item, hour, j)
  }

  function PeriodLoadAt(p: Option<Period>, m: int, j: int): Bucket {
    match p
    case None => NoLoad
    case Some(q) => SumOf(LoadItems(q), ItemKernel(ClockHour(m, TimeOrZero(q)), j))
  }

  function PeriodKernel(m: int, j: int): Option<Period> -> Bucket {
    p => PeriodLoadAt(p, m, j)
  }

  /** The load bucket `j` accumulates from the whole schedule: the sum over
      periods and over their load-carrying items of the item's load times its
      kernel weight at `j`. */
  function LoadAt(schedule: Schedule, m: int, j: int): Bucket {
    SumOf(schedule, PeriodKernel(m, j))
  }

  function ItemAmount(item: Item): Bucket {
    match item.organLoad
    case None => NoLoad
    case Some(l) => Amount(l)
  }

  function PeriodAmount(p: Option<Period>): Bucket {
    match p
    case None => NoLoad
    case Some(q) => SumOf(LoadItems(q), ItemAmount)
  }

  /** The load the whole schedule injects, summed over every load-carrying item. */
  function TotalLoad(schedule: Schedule): Bucket {
    SumOf(schedule, PeriodAmount)
  }

  /** The sum of a series over all its buckets. */
  function Total(s: seq<Bucket>): Bucket {
    if |s| == 0 then NoLoad else Plus(s[0], Total(s[1..]))
  }

  // ---------------------------------------------------------------------------
  // The convolver and its characterisation
  // ---------------------------------------------------------------------------

  /** `calculateOrganLoad(schedule, morningOffset)`. It succeeds exactly when
      every load-carrying period's clock-hour key names a bucket, and then each
      bucket holds the kernel-weighted sum of all loads that land there. */
  function CalculateOrganLoad(schedule: Schedule, m: int): (r: Result<seq<Bucket>, LoadError>)
    ensures r.Success? <==> Anchored(schedule, m)
    ensures r.Success? ==> |r.value| == BucketCount
    ensures r.Success? ==> forall j :: 0 <= j < BucketCount ==> r.value[j] == LoadAt(schedule, m, j)
    ensures r.Failure? ==> -24 < r.error.key < 0
  {
    AccumulateMatchesReference(ZeroSeries(), m, schedule);
    Accumulate(ZeroSeries(), m, schedule)
  }

  lemma ClockHourKey(m: int, t: int)
    ensures 0 <= ClockHour(m, t) <==> KeyExists(m, t)
    ensures ClockHour(m, t) < 24
  {
  }

  lemma TapsMatchWeights(s: seq<Bucket>, hour: nat, a: Bucket)
    requires |s| == BucketCount && hour < 24
    ensures forall j :: 0 <= j < BucketCount ==>
              Taps(s, hour, a, 0)[j] == Plus(s[j], Scale(a, Weight(j, hour)))
  {
    var s1 := AddAt(s, hour, Scale(a, 0.5));
    var s2 := AddAt(s1, (hour + 1) % 24, Scale(a, 0.35));
    var s3 := AddAt(s2, (hour + 2) % 24, Scale(a, 0.15));
    assert Taps(s, hour, a, 0) == Taps(s1, hour, a, 1);
    assert Taps(s1, hour, a, 1) == Taps(s2, hour, a, 2);
    assert Taps(s2, hour, a, 2) == s3;
  }

  lemma {:induction false} SpreadItemsMatchWeights(s: seq<Bucket>, hour: nat, items: seq<Item>)
    requires |s| == BucketCount && hour < 24
    ensures forall j :: 0 <= j < BucketCount ==>
              SpreadItems(s, hour, items)[j] == Plus(s[j], SumOf(items, ItemKernel(hour, j)))
    decreases |items|
  {
    if |items| > 0 {
      var next := match items[0].organLoad
        case None => s
        case Some(l) => Taps(s, hour, Amount(l), 0);
      assert SpreadItems(s, hour, items) == SpreadItems(next, hour, items[1..]);
      if items[0].organLoad.Some? {
        TapsMatchWeights(s, hour, Amount(items[0].organLoad.value));
      }
      SpreadItemsMatchWeights(next, hour, items[1..]);
      forall j | 0 <= j < BucketCount
        ensures SpreadItems(s, hour, items)[j] == Plus(s[j], SumOf(items, ItemKernel(hour, j)))
      {
        assert ItemKernel(hour, j)(items[0]) == ItemLoadAt(items[0], hour, j);
        assert next[j] == Plus(s[j], ItemLoadAt(items[0], hour, j));
      }
    }
  }

  lemma {:induction false} SumOfNoLoad<T>(xs: seq<T>, f: T -> Bucket)
    requires forall i :: 0 <= i < |xs| ==> f(xs[i]) == NoLoad
    ensures SumOf(xs, f) == NoLoad
  {
    if |xs| > 0 {
      SumOfNoLoad(xs[1..], f);
    }
  }

  lemma UnloadedItemsAddNothing(items: seq<Item>, hour: int, j: int)
    requires !HasLoad(items)
    ensures SumOf(items, ItemKernel(hour, j)) == NoLoad
    ensures SumOf(items, ItemAmount) == NoLoad
  {
    assert forall i :: 0 <= i < |items| ==> items[i].organLoad.None?;
    SumOfNoLoad(items, ItemKernel(hour, j));
    SumOfNoLoad(items, ItemAmount);
  }

  lemma AnchoredTail(periods: Schedule, m: int)
    requires |periods| > 0
    ensures Anchored(periods, m) <==>
              (Anchored(periods[1..], m)
               && (periods[0].Some? && HasLoad(LoadItems(periods[0].value))
                   ==> KeyExists(m, TimeOrZero(periods[0].value))))
  {
    if Anchored(periods[1..], m)
       && (periods[0].Some? && HasLoad(LoadItems(periods[0].value))
           ==> KeyExists(m, TimeOrZero(periods[0].value)))
    {
      forall i | 0 <= i < |periods| && periods[i].Some? && HasLoad(LoadItems(periods[i].value))
        ensures KeyExists(m, TimeOrZero(periods[i].value))
      {
        if i > 0 {
          assert periods[i] == periods[1..][i - 1];
        }
      }
    }
  }

  lemma {:induction false} AccumulateMatchesReference(s: seq<Bucket>, m: int, periods: Schedule)
    requires |s| == BucketCount
    ensures Accumulate(s, m, periods).Success? <==> Anchored(periods, m)
    ensures Accumulate(s, m, periods).Success? ==>
              forall j :: 0 <= j < BucketCount ==>
                Accumulate(s, m, periods).value[j] == Plus(s[j], LoadAt(periods, m, j))
    ensures Accumulate(s, m, periods).Failure? ==> -24 < Accumulate(s, m, periods).error.key < 0
    decreases |periods|
  {
    if |periods| > 0 {
      AnchoredTail(periods, m);
      var rest := periods[1..];
      match periods[0]
      case None =>
        AccumulateMatchesReference(s, m, rest);
      case Some(p) =>
        var hour := ClockHour(m, TimeOrZero(p));
        var items := LoadItems(p);
        ClockHourKey(m, TimeOrZero(p));
        if hour < 0 {
          if !HasLoad(items) {
            AccumulateMatchesReference(s, m, rest);
            forall j | 0 <= j < BucketCount
              ensures PeriodLoadAt(periods[0], m, j) == NoLoad
            {
              UnloadedItemsAddNothing(items, hour, j);
            }
          }
        } else {
          var next := SpreadItems(s, hour, items);
          SpreadItemsMatchWeights(s, hour, items);
          AccumulateMatchesReference(next, m, rest);
        }
    }
  }

  // ---------------------------------------------------------------------------
  // Sums
  // ---------------------------------------------------------------------------

  lemma {:induction false} SumOfConcat<T>(xs: seq<T>, ys: seq<T>, f: T -> Bucket)
    ensures SumOf(xs + ys, f) == Plus(SumOf(xs, f), SumOf(ys, f))
    decreases |xs|
  {
    if |xs| == 0 {
      assert xs + ys == ys;
    } else {
      assert (xs + ys)[1..] == xs[1..] + ys;
      SumOfConcat(xs[1..], ys, f);
    }
  }

  lemma SumOfCons<T>(x: T, t: seq<T>, f: T -> Bucket)
    ensures SumOf([x] + t, f) == Plus(f(x), SumOf(t, f))
  {
    assert ([x] + t)[1..] == t;
  }

  /** An element in the middle of a sequence can be summed first. */
  lemma SumOfMiddle<T>(a: seq<T>, x: T, t: seq<T>, f: T -> Bucket)
    ensures SumOf(a + ([x] + t), f) == Plus(f(x), SumOf(a + t, f))
  {
    SumOfConcat(a, [x] + t, f);
    SumOfCons(x, t, f);
    SumOfConcat(a, t, f);
  }

  lemma SumOfRemove<T>(ys: seq<T>, k: nat, f: T -> Bucket)
    requires k < |ys|
    ensures SumOf(ys, f) == Plus(f(ys[k]), SumOf(ys[..k] + ys[k + 1..], f))
  {
    SplitAt(ys, k);
    SumOfMiddle(ys[..k], ys[k], ys[k + 1..], f);
  }

  lemma {:induction false} SumOfPermutation<T>(xs: seq<T>, ys: seq<T>, f: T -> Bucket)
    requires multiset(xs) == multiset(ys)
    ensures SumOf(xs, f) == SumOf(ys, f)
    decreases |xs|
  {
    if |xs| == 0 {
      assert |ys| == |multiset(ys)|;
    } else {
      assert xs[0] in multiset(ys);
      var k :| 0 <= k < |ys| && ys[k] == xs[0];
      MultisetRemove(xs, ys, k);
      SumOfPermutation(xs[1..], ys[..k] + ys[k + 1..], f);
      SumOfRemove(ys, k, f);
    }
  }

  lemma {:induction false} SumOfPointwise<T>(xs: seq<T>, ys: seq<T>, f: T -> Bucket)
    requires |xs| == |ys|
    requires forall i :: 0 <= i < |xs| ==> f(xs[i]) == f(ys[i])
    ensures SumOf(xs, f) == SumOf(ys, f)
    decreases |xs|
  {
    if |xs| > 0 {
      SumOfPointwise(xs[1..], ys[1..], f);
    }
  }

  lemma {:induction false} TotalAddAt(s: seq<Bucket>, j: nat, b: Bucket)
    requires j < |s|
    ensures Total(AddAt(s, j, b)) == Plus(Total(s), b)
    decreases |s|
  {
    if j > 0 {
      assert AddAt(s, j, b)[1..] == AddAt(s[1..], j - 1, b);
      TotalAddAt(s[1..], j - 1, b);
    } else {
      assert AddAt(s, j, b)[1..] == s[1..];
    }
  }

  lemma {:induction false} TotalOfNoLoad(s: seq<Bucket>)
    requires forall j :: 0 <= j < |s| ==> s[j] == NoLoad
    ensures Total(s) == NoLoad
    decreases |s|
  {
    if |s| > 0 {
      TotalOfNoLoad(s[1..]);
    }
  }

  lemma TotalTaps(s: seq<Bucket>, hour: nat, a: Bucket)
    requires |s| == BucketCount && hour < 24
    ensures Total(Taps(s, hour, a, 0)) == Plus(Total(s), a)
  {
    var s1 := AddAt(s, hour, Scale(a, 0.5));
    var s2 := AddAt(s1, (hour + 1) % 24, Scale(a, 0.35));
    var s3 := AddAt(s2, (hour + 2) % 24, Scale(a, 0.15));
    assert Taps(s, hour, a, 0) == Taps(s1, hour, a, 1);
    assert Taps(s1, hour, a, 1) == Taps(s2, hour, a, 2);
    assert Taps(s2, hour, a, 2) == s3;
    TotalAddAt(s, hour, Scale(a, 0.5));
    TotalAddAt(s1, (hour + 1) % 24, Scale(a, 0.35));
    TotalAddAt(s2, (hour + 2) % 24, Scale(a, 0.15));
  }

  lemma {:induction false} TotalSpreadItems(s: seq<Bucket>, hour: nat, items: seq<Item>)
    requires |s| == BucketCount && hour < 24
    ensures Total(SpreadItems(s, hour, items)) == Plus(Total(s), SumOf(items, ItemAmount))
    decreases |items|
  {
    if |items| > 0 {
      var next := match items[0].organLoad
        case None => s
        case Some(l) => Taps(s, hour, Amount(l), 0);
      assert SpreadItems(s, hour, items) == SpreadItems(next, hour, items[1..]);
      if items[0].organLoad.Some? {
        TotalTaps(s, hour, Amount(items[0].organLoad.value));
      }
      TotalSpreadItems(next, hour, items[1..]);
    }
  }

  lemma {:induction false} AccumulateTotal(s: seq<Bucket>, m: int, periods: Schedule)
    requires |s| == BucketCount && Anchored(periods, m)
    ensures Accumulate(s, m, periods).Success?
    ensures Total(Accumulate(s, m, periods).value) == Plus(Total(s), TotalLoad(periods))
    decreases |periods|
  {
    AccumulateMatchesReference(s, m, periods);
    if |periods| > 0 {
      AnchoredTail(periods, m);
      var rest := periods[1..];
      match periods[0]
      case None =>
        AccumulateTotal(s, m, rest);
      case Some(p) =>
        var hour := ClockHour(m, TimeOrZero(p));
        var items := LoadItems(p);
        ClockHourKey(m, TimeOrZero(p));
        if hour < 0 {
          UnloadedItemsAddNothing(items, hour, 0);
          AccumulateTotal(s, m, rest);
        } else {
          TotalSpreadItems(s, hour, items);
          AccumulateTotal(SpreadItems(s, hour, items), m, rest);
        }
    }
  }

  // ---------------------------------------------------------------------------
  // Properties of the convolver
  // ---------------------------------------------------------------------------

  /** Conservation: the buckets together hold exactly the load the schedule
      injects, because the kernel weights 0.5 + 0.35 + 0.15 sum to 1. */
  lemma Conservation(schedule: Schedule, m: int)
    requires Anchored(schedule, m)
    ensures CalculateOrganLoad(schedule, m).Success?
    ensures Total(CalculateOrganLoad(schedule, m).value) == TotalLoad(schedule)
  {
    var z := ZeroSeries();
    ZeroSeriesTotal();
    AccumulateTotal(z, m, schedule);
    var r := Accumulate(z, m, schedule);
    assert CalculateOrganLoad(schedule, m) == r;
    assert Total(r.value) == Plus(NoLoad, TotalLoad(schedule));
  }

  lemma ZeroSeriesTotal()
    ensures Total(ZeroSeries()) == NoLoad
  {
    TotalOfNoLoad(ZeroSeries());
  }

  /** Zero start: a schedule in which no counted item carries an `organ_load`
      (the empty schedule among them) yields 25 buckets `{0, 0}`. */
  lemma UnloadedScheduleIsZero(schedule: Schedule, m: int)
    requires forall i :: 0 <= i < |schedule| && schedule[i].Some? ==> !HasLoad(LoadItems(schedule[i].value))
    ensures CalculateOrganLoad(schedule, m) == Success(ZeroSeries())
  {
    var r := CalculateOrganLoad(schedule, m);
    forall j | 0 <= j < BucketCount
      ensures LoadAt(schedule, m, j) == NoLoad
    {
      forall i | 0 <= i < |schedule|
        ensures PeriodKernel(m, j)(schedule[i]) == NoLoad
      {
        if schedule[i].Some? {
          var q := schedule[i].value;
          UnloadedItemsAddNothing(LoadItems(q), ClockHour(m, TimeOrZero(q)), j);
        }
      }
      SumOfNoLoad(schedule, PeriodKernel(m, j));
    }
    assert r.value == ZeroSeries();
  }

  /** Bucket 24 never receives load: every target hour is taken modulo 24. */
  lemma LastBucketStaysEmpty(schedule: Schedule, m: int)
    requires Anchored(schedule, m)
    ensures CalculateOrganLoad(schedule, m).value[24] == NoLoad
  {
    forall i | 0 <= i < |schedule|
      ensures PeriodKernel(m, 24)(schedule[i]) == NoLoad
    {
      if schedule[i].Some? {
        var q := schedule[i].value;
        var hour := ClockHour(m, TimeOrZero(q));
        var items := LoadItems(q);
        assert forall k :: 0 <= k < |items| ==> ItemKernel(hour, 24)(items[k]) == NoLoad;
        SumOfNoLoad(items, ItemKernel(hour, 24));
      }
    }
    SumOfNoLoad(schedule, PeriodKernel(m, 24));
  }

  /** Kernel spread: a lone item with load `a`, in a period whose clock hour is
      `h`, puts `0.5 a`, `0.35 a` and `0.15 a` in buckets `h`, `(h + 1) % 24` and
      `(h + 2) % 24`, nothing anywhere else, and `a` in total. */
  lemma SingleItemSpread(p: Period, l: OrganLoad, m: int)
    requires |LoadItems(p)| == 1 && LoadItems(p)[0].organLoad == Some(l)
    requires KeyExists(m, TimeOrZero(p))
    ensures var r := CalculateOrganLoad([Some(p)], m);
            var h := ClockHour(m, TimeOrZero(p));
            var a := Amount(l);
            && r.Success?
            && 0 <= h < 24
            && r.value[h] == Bucket(0.5 * a.liver, 0.5 * a.kidney)
            && r.value[(h + 1) % 24] == Bucket(0.35 * a.liver, 0.35 * a.kidney)
            && r.value[(h + 2) % 24] == Bucket(0.15 * a.liver, 0.15 * a.kidney)
            && (forall j :: 0 <= j < BucketCount && j != h && j != (h + 1) % 24 && j != (h + 2) % 24
                  ==> r.value[j] == NoLoad)
            && Total(r.value) == a
  {
    SingleItemWeights(p, l, m);
    SingleItemTotal(p, l, m);
    ClockHourKey(m, TimeOrZero(p));
    var r := CalculateOrganLoad([Some(p)], m);
    KernelShape(r.value, Amount(l), ClockHour(m, TimeOrZero(p)));
  }

  /** Buckets weighted by the kernel at `h`: half, 35% and 15% over three hours, nothing elsewhere. */
  lemma KernelShape(v: seq<Bucket>, a: Bucket, h: int)
    requires |v| == BucketCount && 0 <= h < 24
    requires forall j :: 0 <= j < BucketCount ==> v[j] == Scale(a, Weight(j, h))
    ensures v[h] == Bucket(0.5 * a.liver, 0.5 * a.kidney)
    ensures v[(h + 1) % 24] == Bucket(0.35 * a.liver, 0.35 * a.kidney)
    ensures v[(h + 2) % 24] == Bucket(0.15 * a.liver, 0.15 * a.kidney)
    ensures forall j :: 0 <= j < BucketCount && j != h && j != (h + 1) % 24 && j != (h + 2) % 24
              ==> v[j] == NoLoad
  {
    assert Weight((h + 1) % 24, h) == 0.35;
    assert Weight((h + 2) % 24, h) == 0.15;
  }

  /** A lone loaded item puts its load, scaled by the kernel weight, in every bucket. */
  lemma SingleItemWeights(p: Period, l: OrganLoad, m: int)
    requires |LoadItems(p)| == 1 && LoadItems(p)[0].organLoad == Some(l)
    requires KeyExists(m, TimeOrZero(p))
    ensures CalculateOrganLoad([Some(p)], m).Success?
    ensures forall j :: 0 <= j < BucketCount ==>
              CalculateOrganLoad([Some(p)], m).value[j] == Scale(Amount(l), Weight(j, ClockHour(m, TimeOrZero(p))))
  {
    var schedule := [Some(p)];
    assert HasLoad(LoadItems(p)) by {
      assert LoadItems(p)[0].organLoad.Some?;
    }
    assert Anchored(schedule, m);
    ClockHourKey(m, TimeOrZero(p));
    var h := ClockHour(m, TimeOrZero(p));
    var r := CalculateOrganLoad(schedule, m);
    var items := LoadItems(p);
    assert items[1..] == [];
    assert schedule[1..] == [];
    forall j | 0 <= j < BucketCount
      ensures r.value[j] == Scale(Amount(l), Weight(j, h))
    {
      assert r.value[j] == LoadAt(schedule, m, j);
      assert LoadAt(schedule, m, j) == Plus(PeriodKernel(m, j)(Some(p)), SumOf(schedule[1..], PeriodKernel(m, j)));
      assert SumOf(items, ItemKernel(h, j)) == Plus(ItemKernel(h, j)(items[0]), SumOf(items[1..], ItemKernel(h, j)));
    }
  }

  /** A lone loaded item's buckets add up to its load. */
  lemma SingleItemTotal(p: Period, l: OrganLoad, m: int)
    requires |LoadItems(p)| == 1 && LoadItems(p)[0].organLoad == Some(l)
    requires KeyExists(m, TimeOrZero(p))
    ensures CalculateOrganLoad([Some(p)], m).Success?
    ensures Total(CalculateOrganLoad([Some(p)], m).value) == Amount(l)
  {
    var schedule := [Some(p)];
    assert HasLoad(LoadItems(p)) by {
      assert LoadItems(p)[0].organLoad.Some?;
    }
    assert Anchored(schedule, m);
    Conservation(schedule, m);
    var items := LoadItems(p);
    assert items[1..] == [];
    assert schedule[1..] == [];
    assert SumOf(items, ItemAmount) == Plus(ItemAmount(items[0]), SumOf(items[1..], ItemAmount));
    assert TotalLoad(schedule) == Plus(PeriodAmount(Some(p)), SumOf(schedule[1..], PeriodAmount));
  }

  lemma AnchoredConcat(a: Schedule, b: Schedule, m: int)
    ensures Anchored(a + b, m) <==> Anchored(a, m) && Anchored(b, m)
  {
    var ab := a + b;
    assert forall i :: 0 <= i < |a| ==> ab[i] == a[i];
    assert forall i :: 0 <= i < |b| ==> ab[|a| + i] == b[i];
    if Anchored(a, m) && Anchored(b, m) {
      forall i | 0 <= i < |ab| && ab[i].Some? && HasLoad(LoadItems(ab[i].value))
        ensures KeyExists(m, TimeOrZero(ab[i].value))
      {
        if i >= |a| {
          assert ab[i] == b[i - |a|];
        }
      }
    }
  }

  /** Additivity: the loads of two schedules run one after the other are the
      bucket-wise sums of their separate loads, and the combined schedule fails
      exactly when one of them does. */
  lemma Additivity(a: Schedule, b: Schedule, m: int)
    ensures CalculateOrganLoad(a + b, m).Success?
            <==> CalculateOrganLoad(a, m).Success? && CalculateOrganLoad(b, m).Success?
    ensures CalculateOrganLoad(a + b, m).Success? ==>
              forall j :: 0 <= j < BucketCount ==>
                CalculateOrganLoad(a + b, m).value[j]
                == Plus(CalculateOrganLoad(a, m).value[j], CalculateOrganLoad(b, m).value[j])
  {
    AnchoredConcat(a, b, m);
    forall j | 0 <= j < BucketCount
      ensures LoadAt(a + b, m, j) == Plus(LoadAt(a, m, j), LoadAt(b, m, j))
    {
      SumOfConcat(a, b, PeriodKernel(m, j));
    }
  }

  /** Whether any item carries a load depends only on the items' loads, up
      to order: ids, macros and the order of the items do not matter. */
  lemma HasLoadPermutation(xs: seq<Item>, ys: seq<Item>)
    requires multiset(LoadsOf(xs)) == multiset(LoadsOf(ys))
    ensures HasLoad(xs) <==> HasLoad(ys)
  {
    HasLoadOneWay(xs, ys);
    HasLoadOneWay(ys, xs);
  }

  lemma HasLoadOneWay(xs: seq<Item>, ys: seq<Item>)
    requires multiset(LoadsOf(xs)) == multiset(LoadsOf(ys))
    ensures HasLoad(xs) ==> HasLoad(ys)
  {
    if HasLoad(xs) {
      var i :| 0 <= i < |xs| && xs[i].organLoad.Some?;
      var lx, ly := LoadsOf(xs), LoadsOf(ys);
      assert lx[i] in multiset(ly);
      var k :| 0 <= k < |ly| && ly[k] == lx[i];
      assert ys[k].organLoad.Some?;
    }
  }

  /** Order independence across periods: reordering the schedule's periods
      neither changes whether the computation succeeds nor, when it does, any
      bucket. (Which error a failing schedule reports can depend on the order.) */
  lemma PeriodOrderIrrelevant(a: Schedule, b: Schedule, m: int)
    requires multiset(a) == multiset(b)
    ensures CalculateOrganLoad(a, m).Success? <==> CalculateOrganLoad(b, m).Success?
    ensures CalculateOrganLoad(a, m).Success? ==> CalculateOrganLoad(a, m) == CalculateOrganLoad(b, m)
  {
    if Anchored(a, m) {
      forall i | 0 <= i < |b| && b[i].Some? && HasLoad(LoadItems(b[i].value))
        ensures KeyExists(m, TimeOrZero(b[i].value))
      {
        assert b[i] in multiset(a);
        var k :| 0 <= k < |a| && a[k] == b[i];
      }
    }
    if Anchored(b, m) {
      forall i | 0 <= i < |a| && a[i].Some? && HasLoad(LoadItems(a[i].value))
        ensures KeyExists(m, TimeOrZero(a[i].value))
      {
        assert a[i] in multiset(b);
        var k :| 0 <= k < |b| && b[k] == a[i];
      }
    }
    if Anchored(a, m) {
      forall j | 0 <= j < BucketCount
        ensures LoadAt(a, m, j) == LoadAt(b, m, j)
      {
        SumOfPermutation(a, b, PeriodKernel(m, j));
      }
      assert CalculateOrganLoad(a, m).value == CalculateOrganLoad(b, m).value;
    }
  }

  /** The inputs of a period that the convolver reads: whether it is present,
      its offset `period.time || 0`, and the `organ_load` fields of the items
      of its four counted lists, up to order. */
  predicate SameLoadInputs(p: Option<Period>, q: Option<Period>) {
    || (p.None? && q.None?)
    || (&& p.Some? && q.Some?
        && TimeOrZero(p.value) == TimeOrZero(q.value)
        && multiset(LoadsOf(LoadItems(p.value))) == multiset(LoadsOf(LoadItems(q.value))))
  }

  /** The item loop reads nothing of an item but its `organ_load`, and the
      order of the items does not matter. */
  lemma SpreadItemsPermutation(s: seq<Bucket>, hour: nat, xs: seq<Item>, ys: seq<Item>)
    requires |s| == BucketCount && hour < 24
    requires multiset(LoadsOf(xs)) == multiset(LoadsOf(ys))
    ensures SpreadItems(s, hour, xs) == SpreadItems(s, hour, ys)
  {
    SpreadItemsMatchWeights(s, hour, xs);
    SpreadItemsMatchWeights(s, hour, ys);
    forall j | 0 <= j < BucketCount
      ensures SpreadItems(s, hour, xs)[j] == SpreadItems(s, hour, ys)[j]
    {
      SumOfLoads(xs, hour, j);
      SumOfLoads(ys, hour, j);
      SumOfPermutation(LoadsOf(xs), LoadsOf(ys), ShareKernel(hour, j));
    }
  }

  /** Summing the items' shares is summing the shares of their loads. */
  lemma {:induction false} SumOfLoads(xs: seq<Item>, hour: int, j: int)
    ensures SumOf(xs, ItemKernel(hour, j)) == SumOf(LoadsOf(xs), ShareKernel(hour, j))
    decreases |xs|
  {
    if |xs| > 0 {
      assert LoadsOf(xs)[1..] == LoadsOf(xs[1..]);
      SumOfLoads(xs[1..], hour, j);
    }
  }

  lemma {:induction false} AccumulateSameInputs(s: seq<Bucket>, m: int, a: Schedule, b: Schedule)
    requires |s| == BucketCount
    requires |a| == |b| && forall i :: 0 <= i < |a| ==> SameLoadInputs(a[i], b[i])
    ensures Accumulate(s, m, a) == Accumulate(s, m, b)
    decreases |a|
  {
    if |a| > 0 {
      assert SameLoadInputs(a[0], b[0]);
      assert forall i :: 0 <= i < |a| - 1 ==> a[1..][i] == a[i + 1] && b[1..][i] == b[i + 1];
      if a[0].None? {
        AccumulateSameInputs(s, m, a[1..], b[1..]);
      } else {
        var p, q := a[0].value, b[0].value;
        var hour := ClockHour(m, TimeOrZero(p));
        HasLoadPermutation(LoadItems(p), LoadItems(q));
        if hour < 0 {
          AccumulateSameInputs(s, m, a[1..], b[1..]);
        } else {
          SpreadItemsPermutation(s, hour, LoadItems(p), LoadItems(q));
          AccumulateSameInputs(SpreadItems(s, hour, LoadItems(p)), m, a[1..], b[1..]);
        }
      }
    }
  }

  /** Two items whose loads read the same: both absent, or both present with
      the same `(liver || 0, kidney || 0)`. A missing sub-field and an explicit
      0 read the same. */
  predicate SameAmount(x: Item, y: Item) {
    || (x.organLoad.None? && y.organLoad.None?)
    || (&& x.organLoad.Some? && y.organLoad.Some?
        && Amount(x.organLoad.value) == Amount(y.organLoad.value))
  }

  /** Two periods alike in presence and offset whose counted items, position
      by position, carry loads that read the same. */
  predicate SameAmounts(p: Option<Period>, q: Option<Period>) {
    || (p.None? && q.None?)
    || (&& p.Some? && q.Some?
        && TimeOrZero(p.value) == TimeOrZero(q.value)
        && |LoadItems(p.value)| == |LoadItems(q.value)|
        && forall k :: 0 <= k < |LoadItems(p.value)| ==>
             SameAmount(LoadItems(p.value)[k], LoadItems(q.value)[k]))
  }

  lemma SameAmountsSameGuard(xs: seq<Item>, ys: seq<Item>)
    requires |xs| == |ys| && forall k :: 0 <= k < |xs| ==> SameAmount(xs[k], ys[k])
    ensures HasLoad(xs) <==> HasLoad(ys)
  {
    if HasLoad(xs) {
      var i :| 0 <= i < |xs| && xs[i].organLoad.Some?;
      assert ys[i].organLoad.Some?;
    }
    if HasLoad(ys) {
      var i :| 0 <= i < |ys| && ys[i].organLoad.Some?;
      assert xs[i].organLoad.Some?;
    }
  }

  lemma SpreadItemsSameAmounts(s: seq<Bucket>, hour: nat, xs: seq<Item>, ys: seq<Item>)
    requires |s| == BucketCount && hour < 24
    requires |xs| == |ys| && forall k :: 0 <= k < |xs| ==> SameAmount(xs[k], ys[k])
    ensures SpreadItems(s, hour, xs) == SpreadItems(s, hour, ys)
  {
    SpreadItemsMatchWeights(s, hour, xs);
    SpreadItemsMatchWeights(s, hour, ys);
    forall j | 0 <= j < BucketCount
      ensures SpreadItems(s, hour, xs)[j] == SpreadItems(s, hour, ys)[j]
    {
      forall k | 0 <= k < |xs|
        ensures ItemKernel(hour, j)(xs[k]) == ItemKernel(hour, j)(ys[k])
      {
        assert SameAmount(xs[k], ys[k]);
      }
      SumOfPointwise(xs, ys, ItemKernel(hour, j));
    }
  }

  lemma {:induction false} AccumulateSameAmounts(s: seq<Bucket>, m: int, a: Schedule, b: Schedule)
    requires |s| == BucketCount
    requires |a| == |b| && forall i :: 0 <= i < |a| ==> SameAmounts(a[i], b[i])
    ensures Accumulate(s, m, a) == Accumulate(s, m, b)
    decreases |a|
  {
    if |a| > 0 {
      assert SameAmounts(a[0], b[0]);
      assert forall i :: 0 <= i < |a| - 1 ==> a[1..][i] == a[i + 1] && b[1..][i] == b[i + 1];
      if a[0].None? {
        AccumulateSameAmounts(s, m, a[1..], b[1..]);
      } else {
        var p, q := a[0].value, b[0].value;
        var hour := ClockHour(m, TimeOrZero(p));
        SameAmountsSameGuard(LoadItems(p), LoadItems(q));
        if hour < 0 {
          AccumulateSameAmounts(s, m, a[1..], b[1..]);
        } else {
          SpreadItemsSameAmounts(s, hour, LoadItems(p), LoadItems(q));
          AccumulateSameAmounts(SpreadItems(s, hour, LoadItems(p)), m, a[1..], b[1..]);
        }
      }
    }
  }

  /** `organ_load.liver || 0` and `organ_load.kidney || 0`: a missing
      sub-field is read as 0, so replacing `OrganLoad(None, k)` by
      `OrganLoad(Some(0.0), k)`, or any load by one of the same amounts,
      changes neither the buckets nor the error. */
  lemma MissingLoadFieldReadsAsZero(a: Schedule, b: Schedule, m: int)
    requires |a| == |b| && forall i :: 0 <= i < |a| ==> SameAmounts(a[i], b[i])
    ensures CalculateOrganLoad(a, m) == CalculateOrganLoad(b, m)
    ensures forall k: Option<real> :: Amount(OrganLoad(None, k)) == Amount(OrganLoad(Some(0.0), k))
    ensures forall k: Option<real> :: Amount(OrganLoad(k, None)) == Amount(OrganLoad(k, Some(0.0)))
  {
    AccumulateSameAmounts(ZeroSeries(), m, a, b);
  }

  /** Exclusions: the result, error included, depends on each period only
      through its presence, its offset `period.time || 0` (a missing `time` is
      0) and the `organ_load` fields of the items of `oral`, `with_food`, `uti`
      and `separate` up to order. The topical lists, item ids and macros, and
      the order of items within a period, never matter. */
  lemma LoadDependsOnlyOnLoadLists(a: Schedule, b: Schedule, m: int)
    requires |a| == |b| && forall i :: 0 <= i < |a| ==> SameLoadInputs(a[i], b[i])
    ensures CalculateOrganLoad(a, m) == CalculateOrganLoad(b, m)
  {
    AccumulateSameInputs(ZeroSeries(), m, a, b);
  }

  lemma {:induction false} AccumulateSkipsNull(s: seq<Bucket>, m: int, a: Schedule, b: Schedule)
    requires |s| == BucketCount
    ensures Accumulate(s, m, a + [None] + b) == Accumulate(s, m, a + b)
    decreases |a|
  {
    if |a| == 0 {
      assert a + [None] + b == [None] + b;
      assert ([None] + b)[1..] == b;
      assert a + b == b;
    } else {
      assert (a + [None] + b)[1..] == a[1..] + [None] + b;
      assert (a + b)[1..] == a[1..] + b;
      assert (a + [None] + b)[0] == (a + b)[0] == a[0];
      match a[0]
      case None =>
        AccumulateSkipsNull(s, m, a[1..], b);
      case Some(p) =>
        var hour := ClockHour(m, TimeOrZero(p));
        if hour >= 0 {
          AccumulateSkipsNull(SpreadItems(s, hour, LoadItems(p)), m, a[1..], b);
        } else {
          AccumulateSkipsNull(s, m, a[1..], b);
        }
    }
  }

  /** A `null` period is skipped: inserting one anywhere changes nothing. */
  lemma NullPeriodSkipped(a: Schedule, b: Schedule, m: int)
    ensures CalculateOrganLoad(a + [None] + b, m) == CalculateOrganLoad(a + b, m)
  {
    AccumulateSkipsNull(ZeroSeries(), m, a, b);
  }
}
