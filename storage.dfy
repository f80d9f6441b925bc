/**
 * Persisted user state: preferences with their defaults, and the progress
 * record that prayer check-ins and finished lessons update.
 *
 * The key-value store is the object `ProgressStore`; its slot holds the
 * already-parsed progress record, `None` standing for "no value stored"
 * (an empty value or a failed read reads the same way). The clock's
 * "today" is a parameter.
 */
module Storage {
  import opened Types

  const DefaultPreferences: UserPreferences :=
    UserPreferences(MWL, NotificationSettings(true, 15, true), Light, En, Shafi)

  const EmptyProgress: Progress := Progress(map[], [], 0, 0)

  /** `getUserPreferences`: the stored preferences, or the defaults when nothing is stored. */
  function GetUserPreferences(stored: Option<UserPreferences>): (prefs: UserPreferences)
    ensures stored.Some? ==> prefs == stored.value
    ensures stored.None? ==>
      && prefs.calculationMethod == MWL
      && prefs.notifications.enabled && prefs.notifications.beforeMinutes == 15 && prefs.notifications.sound
      && prefs.theme == Light && prefs.language == En && prefs.madhab == Shafi
  {
    stored.GetOr(DefaultPreferences)
  }

  /** `getUserProgress`: the stored record, or an empty one when nothing is stored. */
  function GetUserProgress(stored: Option<Progress>): (progress: Progress)
    ensures stored.Some? ==> progress == stored.value
    ensures stored.None? ==>
      && progress.dailyPrayers == map[] && progress.lessonsCompleted == []
      && progress.streak == 0 && progress.totalPoints == 0
  {
    stored.GetOr(EmptyProgress)
  }

  /**
   * The record after `recordPrayer(date, prayer, prayed)` on the day `today`:
   * the date's entry (all five false if it was missing) gets `prayer` set to
   * `prayed`; when the date is today and all five are now prayed, the streak
   * goes up by one and the points by 50.
   */
  function RecordedPrayer(p: Progress, date: string, prayer: Prayer, prayed: bool, today: string): (r: Progress)
    ensures r.dailyPrayers.Keys == p.dailyPrayers.Keys + {date}
    ensures r.dailyPrayers[date].Get(prayer) == prayed
    ensures forall q :: q != prayer ==>
      r.dailyPrayers[date].Get(q) == (date in p.dailyPrayers && p.dailyPrayers[date].Get(q))
    ensures forall d :: d in p.dailyPrayers && d != date ==> r.dailyPrayers[d] == p.dailyPrayers[d]
    ensures r.lessonsCompleted == p.lessonsCompleted
    ensures date != today ==> r.streak == p.streak && r.totalPoints == p.totalPoints
    ensures date == today && r.dailyPrayers[date].AllPrayed() ==>
      r.streak == p.streak + 1 && r.totalPoints == p.totalPoints + 50
    ensures !r.dailyPrayers[date].AllPrayed() ==> r.streak == p.streak && r.totalPoints == p.totalPoints
  {
    var day := (if date in p.dailyPrayers then p.dailyPrayers[date] else NoPrayers).Set(prayer, prayed);
    var award := date == today && day.AllPrayed();
    Progress(
      p.dailyPrayers[date := day],
      p.lessonsCompleted,
      p.streak + (if award then 1 else 0),
      p.totalPoints + (if award then 50 else 0))
  }

  /**
   * The record after `markLessonComplete(lessonId)`: a new id is appended
   * and earns 25 points; an id already present changes nothing.
   */
  function MarkedLesson(p: Progress, lessonId: string): (r: Progress)
    ensures lessonId in p.lessonsCompleted ==> r == p
    ensures lessonId !in p.lessonsCompleted ==>
      r.lessonsCompleted == p.lessonsCompleted + [lessonId] && r.totalPoints == p.totalPoints + 25
    ensures r.dailyPrayers == p.dailyPrayers && r.streak == p.streak
  {
    if lessonId in p.lessonsCompleted then p
    else p.(lessonsCompleted := p.lessonsCompleted + [lessonId], totalPoints := p.totalPoints + 25)
  }

  /**
   * What the store holds after `markLessonComplete`: the updated record is
   * saved only when the id is new; otherwise the store keeps what it held.
   */
  function StoredAfterMark(stored: Option<Progress>, lessonId: string): (after: Option<Progress>)
    ensures after.Some? ==> lessonId in after.value.lessonsCompleted
    ensures lessonId in GetUserProgress(stored).lessonsCompleted ==> after == stored
    ensures lessonId !in GetUserProgress(stored).lessonsCompleted ==>
      after == Some(MarkedLesson(GetUserProgress(stored), lessonId))
  {
    var progress := GetUserProgress(stored);
    if lessonId in progress.lessonsCompleted then stored else Some(MarkedLesson(progress, lessonId))
  }

  predicate NoDuplicates(s: seq<string>) {
    forall i, j :: 0 <= i < j < |s| ==> s[i] != s[j]
  }

  /** Completing a lesson twice is completing it once. */
  lemma MarkedLessonIdempotent(p: Progress, lessonId: string)
    ensures MarkedLesson(MarkedLesson(p, lessonId), lessonId) == MarkedLesson(p, lessonId)
  {
  }

  /** The second `markLessonComplete` with the same id leaves the store as the first left it. */
  lemma StoredAfterMarkIdempotent(stored: Option<Progress>, lessonId: string)
    ensures StoredAfterMark(StoredAfterMark(stored, lessonId), lessonId) == StoredAfterMark(stored, lessonId)
  {
  }

  /** A duplicate-free lesson list stays duplicate-free. */
  lemma MarkedLessonKeepsNoDuplicates(p: Progress, lessonId: string)
    requires NoDuplicates(p.lessonsCompleted)
    ensures NoDuplicates(MarkedLesson(p, lessonId).lessonsCompleted)
  {
    var s := p.lessonsCompleted;
    if lessonId !in s {
      var t := s + [lessonId];
      forall i, j | 0 <= i < j < |t| ensures t[i] != t[j] {
        if j == |s| {
          assert t[i] == s[i];
        }
      }
    }
  }

  /** The streak award is not idempotent: recording a prayed prayer again on a complete today awards again. */
  lemma StreakAwardRepeats(p: Progress, today: string, prayer: Prayer)
    requires RecordedPrayer(p, today, prayer, true, today).dailyPrayers[today].AllPrayed()
    ensures var once := RecordedPrayer(p, today, prayer, true, today);
      var twice := RecordedPrayer(once, today, prayer, true, today);
      twice.streak == p.streak + 2 && twice.totalPoints == p.totalPoints + 100
  {
    var once := RecordedPrayer(p, today, prayer, true, today);
    var twice := RecordedPrayer(once, today, prayer, true, today);
    assert twice.dailyPrayers[today] == once.dailyPrayers[today];
  }

  /** Neither update ever lowers the streak or the points. */
  lemma UpdatesNeverLowerScores(p: Progress, date: string, prayer: Prayer, prayed: bool, today: string, lessonId: string)
    ensures RecordedPrayer(p, date, prayer, prayed, today).streak >= p.streak
    ensures RecordedPrayer(p, date, prayer, prayed, today).totalPoints >= p.totalPoints
    ensures MarkedLesson(p, lessonId).streak >= p.streak
    ensures MarkedLesson(p, lessonId).totalPoints >= p.totalPoints
  {
  }

  /** The progress slot of the key-value store. */
  class ProgressStore {
    var stored: Option<Progress>

    constructor (stored: Option<Progress>)
      ensures this.stored == stored
    {
      this.stored := stored;
    }

    /** `recordPrayer`: load (or start empty), update the loaded record in steps, save. */
    method RecordPrayer(date: string, prayer: Prayer, prayed: bool, today: string)
      modifies this
      ensures stored == Some(RecordedPrayer(GetUserProgress(old(stored)), date, prayer, prayed, today))
    {
      var progress := GetUserProgress(stored);
      ghost var loaded := progress;
      if date !in progress.dailyPrayers {
        progress := progress.(dailyPrayers := progress.dailyPrayers[date := NoPrayers]);
      }
      progress := progress.(dailyPrayers := progress.dailyPrayers[date := progress.dailyPrayers[date].Set(prayer, prayed)]);
      if date == today {
        var allPrayed := progress.dailyPrayers[date].AllPrayed();
        if allPrayed {
          progress := progress.(streak := progress.streak + 1);
          progress := progress.(totalPoints := progress.totalPoints + 50);
        }
      }
      assert progress.dailyPrayers == loaded.dailyPrayers[date := progress.dailyPrayers[date]];
      stored := Some(progress);
    }

    /** `markLessonComplete`: push a new id, add 25 points and save; an id already present saves nothing. */
    method MarkLessonComplete(lessonId: string)
      modifies this
      ensures stored == StoredAfterMark(old(stored), lessonId)
    {
      var progress := GetUserProgress(stored);
      if lessonId !in progress.lessonsCompleted {
        progress := progress.(lessonsCompleted := progress.lessonsCompleted + [lessonId]);
        progress := progress.(totalPoints := progress.totalPoints + 25);
        stored := Some(progress);
      }
    }
  }
}
