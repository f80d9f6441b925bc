/**
 * The shared data shapes of the companion app (its `types` module): prayer
 * times, locations, preferences, lessons, learning modules and the stored
 * progress record. Optional values of the JavaScript side (`null`,
 * `undefined`, a missing storage key) become `Option`.
 */
module Types {

  datatype Option<+T> = None | Some(value: T) {
    function GetOr(default: T): T {
      match this
      case Some(v) => v
      case None => default
    }
  }

  /** The seven twilight conventions a user can pick. */
  datatype CalculationMethod = MWL | ISNA | Egypt | Makkah | Karachi | Tehran | Jafari

  /** The six clock times of one day, each an "HH:MM" string. */
  datatype PrayerTimes = PrayerTimes(
    fajr: string, sunrise: string, dhuhr: string,
    asr: string, maghrib: string, isha: string)

  /** An observer position in degrees. */
  datatype Location = Location(latitude: real, longitude: real)

  /** A calendar date as a JavaScript `Date` reports it: full year, month 1..12, day of month. */
  datatype CalendarDate = CalendarDate(year: int, month: int, day: int)

  datatype Theme = Light | Dark | Auto
  datatype Language = En | Ar
  datatype Madhab = Shafi | Hanafi

  datatype NotificationSettings = NotificationSettings(enabled: bool, beforeMinutes: int, sound: bool)

  datatype UserPreferences = UserPreferences(
    calculationMethod: CalculationMethod,
    notifications: NotificationSettings,
    theme: Theme,
    language: Language,
    madhab: Madhab)

  /** The five obligatory prayers, the keys of one day's record. */
  datatype Prayer = Fajr | Dhuhr | Asr | Maghrib | Isha

  /** One day's record: whether each of the five prayers was prayed. */
  datatype DayPrayers = DayPrayers(fajr: bool, dhuhr: bool, asr: bool, maghrib: bool, isha: bool) {

    function Get(p: Prayer): bool {
      match p
      case Fajr => fajr
      case Dhuhr => dhuhr
      case Asr => asr
      case Maghrib => maghrib
      case Isha => isha
    }

    function Set(p: Prayer, v: bool): (d: DayPrayers)
      ensures d.Get(p) == v
      ensures forall q :: q != p ==> d.Get(q) == Get(q)
    {
      match p
      case Fajr => this.(fajr := v)
      case Dhuhr => this.(dhuhr := v)
      case Asr => this.(asr := v)
      case Maghrib => this.(maghrib := v)
      case Isha => this.(isha := v)
    }

    /** `Object.values(day).every(p => p)` */
    predicate AllPrayed() {
      fajr && dhuhr && asr && maghrib && isha
    }

    /** All prayed means every one of the five prayers is marked prayed. */
    lemma AllPrayedEveryPrayer()
      ensures AllPrayed() <==> forall p: Prayer :: Get(p)
    {
      assert Get(Fajr) == fajr && Get(Dhuhr) == dhuhr && Get(Asr) == asr;
      assert Get(Maghrib) == maghrib && Get(Isha) == isha;
    }

    /** `Object.values(day).filter(p => p).length` */
    function PrayedCount(): (n: nat)
      ensures n <= 5
      ensures n == 5 <==> AllPrayed()
    {
      (if fajr then 1 else 0) + (if dhuhr then 1 else 0) + (if asr then 1 else 0)
      + (if maghrib then 1 else 0) + (if isha then 1 else 0)
    }
  }

  const NoPrayers: DayPrayers := DayPrayers(false, false, false, false, false)

  /** The persisted progress record: one entry per date string, completed lesson ids, streak and points. */
  datatype Progress = Progress(
    dailyPrayers: map<string, DayPrayers>,
    lessonsCompleted: seq<string>,
    streak: int,
    totalPoints: int)

  datatype LessonType = Text | Video | Interactive

  /**
   * A lesson. The lesson screen flips `completed` on the very object that
   * also sits in its module's list, so a lesson is an object.
   */
  class Lesson {
    const id: string
    const title: string
    const content: string
    const kind: LessonType
    const duration: int
    var completed: bool

    constructor (id: string, title: string, content: string, kind: LessonType, duration: int, completed: bool)
      ensures this.id == id && this.title == title && this.content == content
      ensures this.kind == kind && this.duration == duration && this.completed == completed
    {
      this.id := id;
      this.title := title;
      this.content := content;
      this.kind := kind;
      this.duration := duration;
      this.completed := completed;
    }

    /** The shallow copy `{ ...lesson }`. */
    constructor Copy(other: Lesson)
      ensures id == other.id && title == other.title && content == other.content
      ensures kind == other.kind && duration == other.duration && completed == other.completed
    {
      id := other.id;
      title := other.title;
      content := other.content;
      kind := other.kind;
      duration := other.duration;
      completed := other.completed;
    }
  }

  datatype Category = Basics | PrayerCategory | Quran | DailyLife

  datatype LearningModule = LearningModule(
    id: string,
    title: string,
    description: string,
    category: Category,
    lessons: seq<Lesson>,
    completed: bool,
    progress: int)
}
