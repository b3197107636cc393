/** The schedule model: periods of the day, the items taken in each, and the
    settings that anchor the schedule to the clock, as the dashboard's
    configuration object holds them.

    Only the fields the computations read are kept, the `organ_load` pair and
    the `calories`/`protein` strings of `macros`, together with the item's
    `id` (such as "egcg"), which no computation reads and which only
    identifies the item. Its display `name` is dropped.
    Labels, notes, doses, benefit texts, pathway tags and sub-components are
    display text and are dropped. The schedule is the ordered list of the
    configuration's period values, `Object.values(schedule)`; a `null` or
    otherwise falsy period is `None`. */
module Schedule {
  import opened Wrappers

  /** An item's `organ_load`; an absent (or zero) sub-field counts as zero. */
  datatype OrganLoad = OrganLoad(liver: Option<real>, kidney: Option<real>)

  /** The two `macros` fields that are summed; both are strings such as "35g". */
  datatype Macros = Macros(calories: Option<string>, protein: Option<string>)

  datatype Item = Item(id: string, organLoad: Option<OrganLoad>, macros: Option<Macros>)

  /** A period of the day. `time` is the hour offset from the morning anchor;
      the six lists are the consumption categories `oral`, `with_food`, `uti`,
      `separate`, `skin_topical` and `scalp_topical`, an absent list being empty. */
  datatype Period = Period(
    time: Option<int>,
    oral: seq<Item>,
    withFood: seq<Item>,
    uti: seq<Item>,
    separate: seq<Item>,
    skinTopical: seq<Item>,
    scalpTopical: seq<Item>)

  type Schedule = seq<Option<Period>>

  datatype Settings = Settings(morningOffset: Option<int>)

  datatype Config = Config(settings: Option<Settings>, schedule: Option<Schedule>)

  /** `period.time || 0`. */
  function TimeOrZero(p: Period): int {
    p.time.GetOr(0)
  }

  /** The items whose organ load is counted:
      `[...oral, ...with_food, ...uti, ...separate]`. */
  function LoadItems(p: Period): seq<Item> {
    p.oral + p.withFood + p.uti + p.separate
  }

  /** The items whose macros are counted: `[...oral, ...with_food]`. */
  function MealItems(p: Period): seq<Item> {
    p.oral + p.withFood
  }

  /** `config?.schedule || {}`. */
  function ScheduleOf(c: Config): Schedule {
    c.schedule.GetOr([])
  }

  /** `config?.settings?.morning_offset || 9`: an absent offset, and also an
      offset of 0, falls back to 9. */
  function MorningOffset(c: Config): (m: int)
    ensures m != 0
    ensures c.settings.Some? && c.settings.value.morningOffset.Some?
            && c.settings.value.morningOffset.value != 0
            ==> m == c.settings.value.morningOffset.value
    ensures m != 9 ==> c.settings.Some? && c.settings.value.morningOffset == Some(m)
  {
    match c.settings
    case None => 9
    case Some(s) =>
      match s.morningOffset
      case None => 9
      case Some(m) => if m == 0 then 9 else m
  }

  // ---------------------------------------------------------------------------
  // The built-in default configuration
  // ---------------------------------------------------------------------------

  function Dose(id: string, liver: real, kidney: real): Item {
    Item(id, Some(OrganLoad(Some(liver), Some(kidney))), None)
  }

  function Meal(id: string, liver: real, kidney: real, calories: string, protein: string): Item {
    Item(id, Some(OrganLoad(Some(liver), Some(kidney))), Some(Macros(Some(calories), Some(protein))))
  }

  function Topical(id: string): Item {
    Item(id, None, None)
  }

  function PeriodAt(time: int, oral: seq<Item>): Period {
    Period(Some(time), oral, [], [], [], [], [])
  }

  const MorningPeriod: Period := Period(
    Some(0),
    [Dose("egcg", 0.4, 0.1), Dose("pterostilbene", 0.2, 0.05), Dose("spermidine", 0.05, 0.02),
     Dose("nr", 0.1, 0.1), Dose("tyrosine", 0.15, 0.1), Dose("msm", 0.05, 0.15),
     Dose("ghkcu", 0.1, 0.05)],
    [],
    [Dose("hiprex_am", 0.05, 0.3), Dose("dmannose_am", 0.0, 0.2)],
    [],
    [Topical("Cleanser"), Topical("Vitamin C"), Topical("SPF")],
    [Topical("Minoxidil"), Topical("Red Light")])

  const MiddayPeriod: Period := Period(
    Some(3),
    [Meal("protein_meal", 0.2, 0.35, "500", "35g"), Dose("joint", 0.05, 0.1)],
    [Dose("zinc", 0.05, 0.05), Dose("vitamin_e", 0.15, 0.02), Dose("vitamin_dk", 0.05, 0.02),
     Dose("fish_oil", 0.1, 0.02), Dose("lutein", 0.05, 0.02)],
    [], [], [], [])

  const AfternoonPeriod: Period := Period(
    Some(5),
    [Dose("quercetin", 0.35, 0.1), Dose("rhodiola", 0.3, 0.05), Dose("cognition", 0.2, 0.15),
     Dose("vitality", 0.15, 0.2)],
    [], [],
    [Dose("marshmallow", 0.05, -0.1)],
    [], [])

  const LateAfternoonPeriod: Period := Period(
    Some(7), [Meal("salad", 0.1, 0.15, "450", "18g")], [], [], [], [], [])

  const DinnerPeriod: Period := Period(
    Some(10),
    [Meal("dinner_meal", 0.25, 0.3, "700", "40g"), Dose("tocotrienols", 0.15, 0.02)],
    [], [], [], [], [])

  const WindDownPeriod: Period := Period(
    Some(14),
    [Dose("glycine", 0.05, 0.1), Dose("inositol", 0.05, 0.15), Dose("magnesium", 0.02, 0.1),
     Dose("l_theanine", 0.05, 0.05), Dose("ashwagandha", 0.18, 0.05), Dose("taurine", -0.1, 0.05)],
    [], [], [],
    [Topical("Cleanser"), Topical("Essence"), Topical("Retinoid"), Topical("PDRN"), Topical("Night Mask")],
    [Topical("Minoxidil"), Topical("Revivogen")])

  const BedtimePeriod: Period := Period(
    Some(15), [Dose("hiprex_pm", 0.05, 0.3), Dose("dmannose_pm", 0.0, 0.2)], [], [], [], [], [])

  /** The periods of the default configuration, in declaration order. */
  const DefaultSchedule: Schedule := [
    Some(MorningPeriod), Some(MiddayPeriod), Some(AfternoonPeriod), Some(LateAfternoonPeriod),
    Some(DinnerPeriod), Some(WindDownPeriod), Some(BedtimePeriod)
  ]

  const DefaultConfig: Config := Config(Some(Settings(Some(9))), Some(DefaultSchedule))

  /** The default configuration anchors its schedule at 09:00 and every one of
      its periods at a non-negative offset. */
  lemma DefaultConfigAnchoring()
    ensures MorningOffset(DefaultConfig) == 9
    ensures ScheduleOf(DefaultConfig) == DefaultSchedule && |DefaultSchedule| == 7
    ensures forall i :: 0 <= i < |DefaultSchedule| ==>
              DefaultSchedule[i].Some? && 0 <= TimeOrZero(DefaultSchedule[i].value) <= 15
  {
  }
}
