/**
 * The week-by-week guide (`src/pages/PregnancyGuide.tsx`): three tabs
 * listing the weeks of each trimester, and a guide text for the few weeks
 * that have one.
 */
module PregnancyGuide {
  import opened Wrappers

  /** The selectable trimesters. */
  type Trimester = t: int | 1 <= t <= 3 witness 1

  /** The tab selected when the page opens. */
  const InitialTrimester: Trimester := 1

  /** `Array.from({ length }, (_, i) => i + first)`. */
  function Range(first: int, length: nat): (r: seq<int>)
    ensures |r| == length
    ensures forall i :: 0 <= i < length ==> r[i] == first + i
  {
    seq(length, i requires 0 <= i < length => first + i)
  }

  /** `trimesters[t]`. */
  function Weeks(t: Trimester): seq<int> {
    if t == 1 then Range(1, 13) else if t == 2 then Range(14, 14) else Range(28, 15)
  }

  /** The trimester a week of 1..42 falls in. */
  function TrimesterOf(week: int): Trimester
    requires 1 <= week <= 42
  {
    if week <= 13 then 1 else if week <= 27 then 2 else 3
  }

  /** Each trimester lists 13, 14 and 15 weeks, from week 1, 14 and 28, each week one after the last. */
  lemma WeeksShape(t: Trimester)
    ensures |Weeks(t)| == (if t == 1 then 13 else if t == 2 then 14 else 15)
    ensures Weeks(t)[0] == (if t == 1 then 1 else if t == 2 then 14 else 28)
    ensures forall i :: 0 <= i < |Weeks(t)| - 1 ==> Weeks(t)[i + 1] == Weeks(t)[i] + 1
  {
  }

  /** The three lists partition weeks 1..42: a week is listed exactly under its own trimester. */
  lemma WeeksPartition(t: Trimester, week: int)
    ensures week in Weeks(t) <==> 1 <= week <= 42 && TrimesterOf(week) == t
  {
    var first := if t == 1 then 1 else if t == 2 then 14 else 28;
    if 1 <= week <= 42 && TrimesterOf(week) == t {
      assert Weeks(t)[week - first] == week;
    }
  }

  datatype WeekGuide = WeekGuide(title: string, description: string, milestones: seq<string>)

  /** `weekGuides`. */
  const WeekGuides: map<int, WeekGuide> := map[
    1 := WeekGuide("Getting Started",
                   "While you're not technically pregnant yet, your body is preparing for conception.",
                   ["Menstrual period begins", "Ovulation occurs", "Possible conception"]),
    4 := WeekGuide("Early Development",
                   "Your baby is now the size of a poppy seed. The amniotic sac and fluid are forming around the embryo.",
                   ["Implantation occurs", "Pregnancy hormone (hCG) starts being produced", "Early pregnancy symptoms may begin"]),
    8 := WeekGuide("Major Development",
                   "Your baby is now the size of a raspberry. Major organs and structures are forming.",
                   ["Baby's heart begins to beat", "Neural tube develops", "Tiny limb buds appear"])
  ]

  /** A week card: its number, and the guide when `weekGuides[week]` is defined. */
  datatype WeekCard = WeekCard(week: int, guide: Option<WeekGuide>)

  /** The cards of the selected tab. */
  function Cards(t: Trimester): (r: seq<WeekCard>)
    ensures |r| == |Weeks(t)|
    ensures forall i :: 0 <= i < |r| ==> r[i].week == Weeks(t)[i]
    ensures forall i :: 0 <= i < |r| ==> (r[i].guide.Some? <==> Weeks(t)[i] in WeekGuides)
  {
    var weeks := Weeks(t);
    seq(|weeks|, i requires 0 <= i < |weeks| =>
      WeekCard(weeks[i], if weeks[i] in WeekGuides then Some(WeekGuides[weeks[i]]) else None))
  }

  /** Guides exist for weeks 1, 4 and 8 only, all in the first trimester, so later tabs show bare cards. */
  lemma GuidesOnlyInFirstTrimester(t: Trimester)
    ensures WeekGuides.Keys == {1, 4, 8}
    ensures forall w :: w in WeekGuides ==> w in Weeks(1)
    ensures t != 1 ==> forall i :: 0 <= i < |Cards(t)| ==> Cards(t)[i].guide.None?
  {
    assert Weeks(1)[0] == 1 && Weeks(1)[3] == 4 && Weeks(1)[7] == 8;
    if t != 1 {
      forall i | 0 <= i < |Cards(t)|
        ensures Cards(t)[i].guide.None?
      {
        assert Weeks(t)[i] >= 14;
      }
    }
  }
}
