/**
 * The statistics the progress card shows: total prayers, the share of
 * fully prayed days, the achievement list and the recent-activity list.
 *
 * The prayer record is a map from date to that day's five flags; the
 * JavaScript reduce/filter over `Object.values` is a fold over the map's
 * keys, specified by the ghost sums below and computed by the methods.
 */
module ProgressTracker {
  import opened Types
  import PrayerCalculations

  /** Some key of a non-empty key set; the sums below peel keys off in this order. */
  ghost function PickKey(keys: set<string>): (k: string)
    requires keys != {}
    ensures k in keys
  {
    var k :| k in keys; k
  }

  /** Prayed flags over the days whose dates are in `keys`. */
  ghost function TotalPrayersOver(days: map<string, DayPrayers>, keys: set<string>): (total: nat)
    requires keys <= days.Keys
    ensures total <= 5 * |keys|
    decreases keys
  {
    if keys == {} then 0
    else
      var k := PickKey(keys);
      days[k].PrayedCount() + TotalPrayersOver(days, keys - {k})
  }

  /** Days, among those whose dates are in `keys`, with all five prayers prayed. */
  ghost function CompleteDaysOver(days: map<string, DayPrayers>, keys: set<string>): (count: nat)
    requires keys <= days.Keys
    ensures count <= |keys|
    decreases keys
  {
    if keys == {} then 0
    else
      var k := PickKey(keys);
      (if days[k].AllPrayed() then 1 else 0) + CompleteDaysOver(days, keys - {k})
  }

  /** The number of true flags across every recorded day. */
  ghost function TotalPrayers(days: map<string, DayPrayers>): (total: nat)
    ensures total <= 5 * |days|
  {
    TotalPrayersOver(days, days.Keys)
  }

  /** The number of recorded days with all five prayers prayed. */
  ghost function CompleteDays(days: map<string, DayPrayers>): (count: nat)
    ensures count <= |days|
  {
    CompleteDaysOver(days, days.Keys)
  }

  /** The sum does not depend on the order the keys are taken in: any key can be peeled off first. */
  lemma {:induction false} TotalPrayersOverRemove(days: map<string, DayPrayers>, keys: set<string>, k: string)
    requires keys <= days.Keys && k in keys
    ensures TotalPrayersOver(days, keys) == days[k].PrayedCount() + TotalPrayersOver(days, keys - {k})
    decreases keys
  {
    var x := PickKey(keys);
    if x != k {
      calc {
        TotalPrayersOver(days, keys);
        days[x].PrayedCount() + TotalPrayersOver(days, keys - {x});
        { TotalPrayersOverRemove(days, keys - {x}, k); }
        days[x].PrayedCount() + days[k].PrayedCount() + TotalPrayersOver(days, keys - {x} - {k});
        { assert keys - {x} - {k} == keys - {k} - {x};
          TotalPrayersOverRemove(days, keys - {k}, x); }
        days[k].PrayedCount() + TotalPrayersOver(days, keys - {k});
      }
    }
  }

  lemma {:induction false} CompleteDaysOverRemove(days: map<string, DayPrayers>, keys: set<string>, k: string)
    requires keys <= days.Keys && k in keys
    ensures CompleteDaysOver(days, keys) == (if days[k].AllPrayed() then 1 else 0) + CompleteDaysOver(days, keys - {k})
    decreases keys
  {
    var x := PickKey(keys);
    if x != k {
      calc {
        CompleteDaysOver(days, keys);
        (if days[x].AllPrayed() then 1 else 0) + CompleteDaysOver(days, keys - {x});
        { CompleteDaysOverRemove(days, keys - {x}, k); }
        (if days[x].AllPrayed() then 1 else 0) + (if days[k].AllPrayed() then 1 else 0)
          + CompleteDaysOver(days, keys - {x} - {k});
        { assert keys - {x} - {k} == keys - {k} - {x};
          CompleteDaysOverRemove(days, keys - {k}, x); }
        (if days[k].AllPrayed() then 1 else 0) + CompleteDaysOver(days, keys - {k});
      }
    }
  }

  /** Every fully prayed day contributes five prayers to the total. */
  lemma {:induction false} CompleteDaysCountFivePrayers(days: map<string, DayPrayers>, keys: set<string>)
    requires keys <= days.Keys
    ensures 5 * CompleteDaysOver(days, keys) <= TotalPrayersOver(days, keys)
    decreases keys
  {
    if keys != {} {
      var k := PickKey(keys);
      CompleteDaysCountFivePrayers(days, keys - {k});
    }
  }

  /** Recording one more day adds exactly that day's prayed flags to the total. */
  lemma NewDayAddsItsPrayers(days: map<string, DayPrayers>, date: string, day: DayPrayers)
    requires date !in days
    ensures TotalPrayers(days[date := day]) == TotalPrayers(days) + day.PrayedCount()
  {
    var m := days[date := day];
    TotalPrayersOverRemove(m, m.Keys, date);
    assert m.Keys - {date} == days.Keys;
    TotalPrayersOverSameEntries(m, days, days.Keys);
  }

  /** The sum over `keys` only looks at the entries under `keys`. */
  lemma {:induction false} TotalPrayersOverSameEntries(m: map<string, DayPrayers>, n: map<string, DayPrayers>, keys: set<string>)
    requires keys <= m.Keys && keys <= n.Keys
    requires forall k :: k in keys ==> m[k] == n[k]
    ensures TotalPrayersOver(m, keys) == TotalPrayersOver(n, keys)
    decreases keys
  {
    if keys != {} {
      TotalPrayersOverSameEntries(m, n, keys - {PickKey(keys)});
    }
  }

  /** `getTotalPrayers`: the reduce over the recorded days, one day at a time. */
  method GetTotalPrayers(days: map<string, DayPrayers>) returns (total: nat)
    ensures total == TotalPrayers(days)
  {
    total := 0;
    var remaining := days.Keys;
    while remaining != {}
      invariant remaining <= days.Keys
      invariant total + TotalPrayersOver(days, remaining) == TotalPrayers(days)
      decreases remaining
    {
      var k :| k in remaining;
      TotalPrayersOverRemove(days, remaining, k);
      total := total + days[k].PrayedCount();
      remaining := remaining - {k};
    }
  }

  /** The filter of fully prayed days, counted one day at a time. */
  method CountCompleteDays(days: map<string, DayPrayers>) returns (count: nat)
    ensures count == CompleteDays(days)
  {
    count := 0;
    var remaining := days.Keys;
    while remaining != {}
      invariant remaining <= days.Keys
      invariant count + CompleteDaysOver(days, remaining) == CompleteDays(days)
      decreases remaining
    {
      var k :| k in remaining;
      CompleteDaysOverRemove(days, remaining, k);
      if days[k].AllPrayed() {
        count := count + 1;
      }
      remaining := remaining - {k};
    }
  }

  /**
   * `Math.round((completedDays / totalDays) * 100)`, and 0 for no days:
   * the whole percentage nearest to the share of complete days, halves
   * rounding up.
   */
  function CompletionRate(completedDays: nat, totalDays: nat): (rate: int)
    requires completedDays <= totalDays
    ensures totalDays == 0 ==> rate == 0
    ensures 0 <= rate <= 100
    ensures totalDays > 0 ==>
      var share := (completedDays as real / totalDays as real) * 100.0;
      rate as real - 0.5 <= share < rate as real + 0.5
    ensures totalDays > 0 && completedDays == totalDays ==> rate == 100
    ensures completedDays == 0 ==> rate == 0
  {
    if totalDays == 0 then 0
    else PrayerCalculations.Round((completedDays as real / totalDays as real) * 100.0)
  }

  /** `getCompletionRate` */
  method GetCompletionRate(days: map<string, DayPrayers>) returns (rate: int)
    ensures rate == CompletionRate(CompleteDays(days), |days|)
    ensures 0 <= rate <= 100
  {
    var totalDays := |days|;
    if totalDays == 0 {
      return 0;
    }
    var completedDays := CountCompleteDays(days);
    rate := CompletionRate(completedDays, totalDays);
  }

  /** The six entries `getAchievements` can push, in push order. */
  datatype AchievementKind = Week | Month | Century | Learner | WeekLocked | MonthLocked

  /** An entry of the achievement list as the card receives it. */
  datatype Achievement = Achievement(id: string, title: string, description: string, icon: string, unlocked: bool)

  /** The object literal pushed for each kind. */
  function Details(kind: AchievementKind): (a: Achievement)
    ensures a.unlocked <==> kind in {Week, Month, Century, Learner}
  {
    match kind
    case Week => Achievement("week", "Week Warrior", "7-day prayer streak", "flame", true)
    case Month => Achievement("month", "Monthly Master", "30-day prayer streak", "trophy", true)
    case Century => Achievement("century", "Century Club", "100 prayers completed", "star", true)
    case Learner => Achievement("learner", "Dedicated Learner", "10 lessons completed", "book", true)
    case WeekLocked => Achievement("week_locked", "Week Warrior", "7-day prayer streak", "flame", false)
    case MonthLocked => Achievement("month_locked", "Monthly Master", "30-day prayer streak", "trophy", false)
  }

  /** A locked placeholder shows the same title, text and icon as the goal it stands for. */
  lemma LockedMirrorsGoal()
    ensures Details(WeekLocked) == Details(Week).(id := "week_locked", unlocked := false)
    ensures Details(MonthLocked) == Details(Month).(id := "month_locked", unlocked := false)
  {
  }

  /** Different kinds carry different ids. */
  lemma DetailsIdsDistinct(k1: AchievementKind, k2: AchievementKind)
    requires k1 != k2
    ensures Details(k1).id != Details(k2).id
  {
  }

  /** Position of a kind in the push order. */
  function Rank(kind: AchievementKind): nat {
    match kind
    case Week => 0
    case Month => 1
    case Century => 2
    case Learner => 3
    case WeekLocked => 4
    case MonthLocked => 5
  }

  /**
   * The achievements earned by a streak, a prayer total and a number of
   * completed lessons, in push order: the unlocked ones first, then the
   * locked placeholders of the streak goals not reached.
   */
  function AchievementList(streak: int, totalPrayers: nat, lessons: nat): (list: seq<AchievementKind>)
    ensures Week in list <==> streak >= 7
    ensures WeekLocked in list <==> streak < 7
    ensures Month in list <==> streak >= 30
    ensures MonthLocked in list <==> streak < 30
    ensures Century in list <==> totalPrayers >= 100
    ensures Learner in list <==> lessons >= 10
    ensures forall i, j :: 0 <= i < j < |list| ==> Rank(list[i]) < Rank(list[j])
    ensures |list| <= 4
  {
    var unlocked, others, locked := StreakGoals(streak), OtherGoals(totalPrayers, lessons), LockedGoals(streak);
    RanksIncrease(unlocked, others, locked);
    KindsInGoals(streak, totalPrayers, lessons);
    unlocked + others + locked
  }

  /** Which kinds the three parts together hold: each kind can come only from the part of its rank. */
  lemma KindsInGoals(streak: int, totalPrayers: nat, lessons: nat)
    ensures var list := StreakGoals(streak) + OtherGoals(totalPrayers, lessons) + LockedGoals(streak);
      && (Week in list <==> streak >= 7) && (WeekLocked in list <==> streak < 7)
      && (Month in list <==> streak >= 30) && (MonthLocked in list <==> streak < 30)
      && (Century in list <==> totalPrayers >= 100) && (Learner in list <==> lessons >= 10)
  {
    var unlocked, others, locked := StreakGoals(streak), OtherGoals(totalPrayers, lessons), LockedGoals(streak);
    var list := unlocked + others + locked;
    assert forall k :: k in list <==> k in unlocked || k in others || k in locked;
    assert forall k :: k in unlocked ==> Rank(k) <= 1;
    assert forall k :: k in others ==> 2 <= Rank(k) <= 3;
    assert forall k :: k in locked ==> 4 <= Rank(k);
  }

  /** Unlocked streak goals, then the other goals, then locked placeholders: the ranks increase along the whole list. */
  lemma RanksIncrease(unlocked: seq<AchievementKind>, others: seq<AchievementKind>, locked: seq<AchievementKind>)
    requires forall i :: 0 <= i < |unlocked| ==> Rank(unlocked[i]) == i
    requires |others| <= 2 && forall i :: 0 <= i < |others| ==> 2 <= Rank(others[i]) <= 3
    requires |others| == 2 ==> Rank(others[0]) < Rank(others[1])
    requires |unlocked| + |locked| == 2
    requires forall i :: 0 <= i < |locked| ==> Rank(locked[i]) == 6 - |locked| + i
    ensures var list := unlocked + others + locked;
      forall i, j :: 0 <= i < j < |list| ==> Rank(list[i]) < Rank(list[j])
  {
    var list := unlocked + others + locked;
    forall i, j | 0 <= i < j < |list| ensures Rank(list[i]) < Rank(list[j]) {
      var u, o := |unlocked|, |others|;
      if j < u {
        assert list[i] == unlocked[i] && list[j] == unlocked[j];
      } else if j < u + o {
        assert list[j] == others[j - u];
        if i >= u {
          assert list[i] == others[i - u];
        } else {
          assert list[i] == unlocked[i];
        }
      } else {
        assert list[j] == locked[j - u - o];
        if i >= u + o {
          assert list[i] == locked[i - u - o];
        } else if i >= u {
          assert list[i] == others[i - u];
        } else {
          assert list[i] == unlocked[i];
        }
      }
    }
  }

  /** The unlocked streak goals, ranks 0 and 1. */
  function StreakGoals(streak: int): (goals: seq<AchievementKind>)
    ensures Week in goals <==> streak >= 7
    ensures Month in goals <==> streak >= 30
    ensures forall i :: 0 <= i < |goals| ==> Rank(goals[i]) == i
  {
    if streak >= 30 then [Week, Month] else if streak >= 7 then [Week] else []
  }

  /** The prayer and lesson goals, ranks 2 and 3. */
  function OtherGoals(totalPrayers: nat, lessons: nat): (goals: seq<AchievementKind>)
    ensures Century in goals <==> totalPrayers >= 100
    ensures Learner in goals <==> lessons >= 10
    ensures |goals| <= 2 && forall i :: 0 <= i < |goals| ==> 2 <= Rank(goals[i]) <= 3
    ensures |goals| == 2 ==> Rank(goals[0]) < Rank(goals[1])
  {
    (if totalPrayers >= 100 then [Century] else []) + (if lessons >= 10 then [Learner] else [])
  }

  /** The locked placeholders of the streak goals not reached, ranks 4 and 5; they fill the places the streak goals leave. */
  function LockedGoals(streak: int): (goals: seq<AchievementKind>)
    ensures WeekLocked in goals <==> streak < 7
    ensures MonthLocked in goals <==> streak < 30
    ensures |StreakGoals(streak)| + |goals| == 2
    ensures forall i :: 0 <= i < |goals| ==> Rank(goals[i]) == 6 - |goals| + i
  {
    if streak < 7 then [WeekLocked, MonthLocked] else if streak < 30 then [MonthLocked] else []
  }

  /** The achievement list is its three parts in order. */
  lemma AchievementListParts(streak: int, totalPrayers: nat, lessons: nat)
    ensures AchievementList(streak, totalPrayers, lessons)
         == StreakGoals(streak) + OtherGoals(totalPrayers, lessons) + LockedGoals(streak)
  {
  }

  /**
   * The pushes of `getAchievements`, in order. The pushes go to three
   * consecutive runs — streak goals, other goals, locked placeholders —
   * that are joined in push order.
   */
  method PushAchievements(progress: Progress) returns (achievements: seq<AchievementKind>)
    ensures achievements == AchievementList(progress.streak, TotalPrayers(progress.dailyPrayers), |progress.lessonsCompleted|)
  {
    var streak, lessons := progress.streak, |progress.lessonsCompleted|;
    var unlocked := [];
    if streak >= 7 {
      unlocked := unlocked + [Week];
    }
    if streak >= 30 {
      unlocked := unlocked + [Month];
    }
    assert unlocked == StreakGoals(streak);
    var total := GetTotalPrayers(progress.dailyPrayers);
    var others := [];
    if total >= 100 {
      others := others + [Century];
    }
    if lessons >= 10 {
      others := others + [Learner];
    }
    assert others == OtherGoals(total, lessons);
    var locked := [];
    if streak < 7 {
      locked := locked + [WeekLocked];
    }
    if streak < 30 {
      locked := locked + [MonthLocked];
    }
    assert locked == LockedGoals(streak);
    achievements := unlocked + others + locked;
    AchievementListParts(streak, total, lessons);
  }

  /**
   * `getAchievements`: the pushed entries as the objects the card shows,
   * of which the first six are kept.
   */
  method GetAchievements(progress: Progress) returns (shown: seq<Achievement>)
    ensures var list := AchievementList(progress.streak, TotalPrayers(progress.dailyPrayers), |progress.lessonsCompleted|);
      |shown| == |list| && forall i :: 0 <= i < |shown| ==> shown[i] == Details(list[i])
    ensures forall i, j :: 0 <= i < j < |shown| ==> shown[i].id != shown[j].id
  {
    var achievements := PushAchievements(progress);
    var kept := achievements[..if |achievements| < 6 then |achievements| else 6];
    shown := seq(|kept|, i requires 0 <= i < |kept| => Details(kept[i]));
    forall i, j | 0 <= i < j < |shown| ensures shown[i].id != shown[j].id {
      DetailsIdsDistinct(kept[i], kept[j]);
    }
  }

  /** `s.reverse()` */
  function Reverse(s: seq<string>): (r: seq<string>)
    ensures |r| == |s|
    ensures forall i :: 0 <= i < |s| ==> r[i] == s[|s| - 1 - i]
    decreases |s|
  {
    if |s| == 0 then [] else [s[|s| - 1]] + Reverse(s[..|s| - 1])
  }

  /** `lessonsCompleted.slice(-3).reverse()`: the last three ids (or fewer), most recent first. */
  function RecentActivity(lessonsCompleted: seq<string>): (recent: seq<string>)
    ensures |recent| == if |lessonsCompleted| < 3 then |lessonsCompleted| else 3
    ensures forall i :: 0 <= i < |recent| ==> recent[i] == lessonsCompleted[|lessonsCompleted| - 1 - i]
  {
    var start := if |lessonsCompleted| >= 3 then |lessonsCompleted| - 3 else 0;
    Reverse(lessonsCompleted[start..])
  }
}
