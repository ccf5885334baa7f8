/**
 * The learner's dashboard: mock statistics derived from the signed-in user, the badge
 * count, the overall progress percentage, the study-time label and the activity icons.
 */
module UserDashboard {
  import opened Wrappers
  import opened Text
  import opened Seqs
  import opened Numbers
  import opened AuthContext

  datatype Achievement = Achievement(id: int, title: string, description: string, icon: string, earned: bool)

  datatype Stats = Stats(
    totalLessons: int,
    completedLessons: int,
    streakDays: int,
    totalTime: int,
    achievements: seq<Achievement>)

  /** The statistics before they are loaded. */
  const InitialStats := Stats(0, 0, 0, 0, [])

  const CatalogueSize := 75
  const SignMasterThreshold := 10

  /** The number of lessons the user lists; 0 without a user. */
  function CompletedOf(user: Option<User>): (n: nat)
    ensures user.None? ==> n == 0
    ensures user.Some? ==> n == |user.value.completedLessons|
  {
    if user.Some? then |user.value.completedLessons| else 0
  }

  /**
   * `loadUserStats`: fixed totals, the user's completed-lesson count, and four achievements of
   * which the first two are always earned, the third once ten lessons are completed, the
   * fourth never.
   */
  function LoadUserStats(user: Option<User>): (s: Stats)
    ensures s.totalLessons == CatalogueSize && s.streakDays == 7 && s.totalTime == 240
    ensures s.completedLessons == CompletedOf(user)
    ensures |s.achievements| == 4
    ensures s.achievements[0].earned && s.achievements[1].earned && !s.achievements[3].earned
    ensures s.achievements[2].earned <==> CompletedOf(user) >= SignMasterThreshold
    ensures forall i :: 0 <= i < 4 ==> s.achievements[i].id == i + 1
  {
    Stats(
      CatalogueSize,
      CompletedOf(user),
      7,
      240,
      [
        Achievement(1, "First Steps", "Completed your first lesson", "\U{1F3AF}", true),
        Achievement(2, "Week Warrior", "Studied for 7 consecutive days", "\U{1F525}", true),
        Achievement(3, "Sign Master", "Completed 10 lessons", "\U{1F3C6}", user.Some? && |user.value.completedLessons| >= SignMasterThreshold),
        Achievement(4, "Dedication", "Studied for 30 days", "\U{1F4AA}", false)
      ])
  }

  function IsEarned(a: Achievement): bool
  {
    a.earned
  }

  /** `stats.achievements.filter(a => a.earned).length`. */
  function BadgeCount(s: Stats): (n: nat)
    ensures n <= |s.achievements|
  {
    Count(IsEarned, s.achievements)
  }

  /** The dashboard shows two badges, or three once ten lessons are completed. */
  lemma BadgesShown(user: Option<User>)
    ensures BadgeCount(LoadUserStats(user)) == if CompletedOf(user) >= SignMasterThreshold then 3 else 2
  {
    var a := LoadUserStats(user).achievements;
    assert a == [a[0]] + ([a[1]] + ([a[2]] + [a[3]]));
    FilterAppend(IsEarned, [a[0]], [a[1]] + ([a[2]] + [a[3]]));
    FilterAppend(IsEarned, [a[1]], [a[2]] + [a[3]]);
    FilterAppend(IsEarned, [a[2]], [a[3]]);
  }

  /** `getProgressPercentage`: the rounded share of completed lessons, 0 when there are none in total. */
  function ProgressPercentage(s: Stats): (p: int)
    ensures s.totalLessons <= 0 ==> p == 0
    ensures s.totalLessons > 0 ==>
      s.totalLessons * (2 * p - 1) <= 200 * s.completedLessons < s.totalLessons * (2 * p + 1)
    ensures s.totalLessons > 0 && 0 <= s.completedLessons <= s.totalLessons ==> 0 <= p <= 100
  {
    if s.totalLessons > 0 then RoundPercent(s.completedLessons, s.totalLessons) else 0
  }

  /** The demo account's two lessons out of 75 show as 3%; the unloaded statistics show 0%. */
  lemma DemoProgress(u: User)
    requires |u.completedLessons| == 2
    ensures ProgressPercentage(LoadUserStats(Some(u))) == 3
    ensures ProgressPercentage(InitialStats) == 0
  {
  }

  /** JavaScript's `%`: the remainder takes the sign of the dividend. */
  function JsRemainder(a: int, b: int): (r: int)
    requires b > 0
    ensures a >= 0 ==> 0 <= r < b && r == a % b
    ensures a < 0 ==> -b < r <= 0 && r == -((-a) % b)
  {
    if a >= 0 then a % b else -((-a) % b)
  }

  /**
   * `formatTime`: "<h>h <m>m" when there is at least one whole hour, otherwise "<m>m";
   * hours are floored and minutes are the truncating remainder, as in the source's arithmetic.
   */
  function FormatTime(minutes: int): (r: string)
    ensures |r| >= 2 && r[|r| - 1] == 'm'
    ensures 0 <= minutes < 60 ==> r == NatToString(minutes) + "m"
    ensures minutes >= 60 ==> r == NatToString(minutes / 60) + "h " + NatToString(minutes % 60) + "m"
    ensures minutes < 0 ==> r == IntToString(-((-minutes) % 60)) + "m"
  {
    var hours := minutes / 60;
    var mins := JsRemainder(minutes, 60);
    if hours > 0 then IntToString(hours) + "h " + IntToString(mins) + "m"
    else IntToString(mins) + "m"
  }

  /** Reads "<digits>m" back. */
  function ParseMinutes(s: string): Option<nat>
  {
    if |s| >= 2 && s[|s| - 1] == 'm' && AllDigits(s[..|s| - 1]) then Some(ParseDigits(s[..|s| - 1]))
    else None
  }

  /** Reads a study-time label back into minutes: "<h>h <m>m" or "<m>m". */
  function ParseTime(s: string): Option<nat>
  {
    match IndexOf(s, 'h')
    case None => ParseMinutes(s)
    case Some(k) =>
      if 0 < k && k + 1 < |s| && s[k + 1] == ' ' && AllDigits(s[..k]) then
        match ParseMinutes(s[k + 2..])
        case None => None
        case Some(m) => Some(60 * ParseDigits(s[..k]) + m)
      else None
  }

  lemma DigitsHaveNoH(s: string)
    requires AllDigits(s)
    ensures 'h' !in s
  {
    forall i | 0 <= i < |s|
      ensures s[i] != 'h'
    {
      assert IsDigit(s[i]);
    }
  }

  /** The first `c` of `a + b` is the head of `b` when `a` holds none. */
  lemma IndexOfAfter(a: string, b: string, c: char)
    requires c !in a && b != [] && b[0] == c
    ensures IndexOf(a + b, c) == Some(|a|)
  {
    var s := a + b;
    assert s[|a|] == c;
    assert forall i | 0 <= i < |a| :: s[i] == a[i];
  }

  lemma MinutesRoundTrip(m: nat)
    ensures ParseMinutes(NatToString(m) + "m") == Some(m)
  {
    var s := NatToString(m) + "m";
    assert s[..|s| - 1] == NatToString(m);
    ParseNatToString(m);
  }

  lemma MinutesLabelRoundTrip(mins: nat)
    requires mins < 60
    ensures ParseTime(FormatTime(mins)) == Some(mins)
  {
    var t := NatToString(mins);
    var s := FormatTime(mins);
    assert s == t + "m";
    DigitsHaveNoH(t);
    assert 'h' !in s by {
      forall i | 0 <= i < |s| ensures s[i] != 'h' {
        if i < |t| {
          assert s[i] == t[i];
        }
      }
    }
    MinutesRoundTrip(mins);
  }

  lemma HoursLabelShape(s: string, k: nat, hours: nat, mins: nat)
    requires IndexOf(s, 'h') == Some(k) && 0 < k && k + 1 < |s| && s[k + 1] == ' '
    requires AllDigits(s[..k]) && ParseDigits(s[..k]) == hours && ParseMinutes(s[k + 2..]) == Some(mins)
    ensures ParseTime(s) == Some(60 * hours + mins)
  {
  }

  lemma LabelSlices(h: string, m: string)
    ensures var s := h + "h " + m + "m";
      && |s| == |h| + |m| + 3 && s[..|h|] == h && s[|h|] == 'h' && s[|h| + 1] == ' '
      && s[|h| + 2..] == m + "m" && s == h + ("h " + m + "m")
  {
  }

  /** Any digit run followed by "h " and a minutes label reads back as hours and minutes. */
  lemma HoursLabelOf(h: string, m: string, hours: nat, mins: nat)
    requires |h| >= 1 && AllDigits(h) && ParseDigits(h) == hours
    requires ParseMinutes(m + "m") == Some(mins)
    ensures ParseTime(h + "h " + m + "m") == Some(60 * hours + mins)
  {
    var s := h + "h " + m + "m";
    LabelSlices(h, m);
    DigitsHaveNoH(h);
    IndexOfAfter(h, "h " + m + "m", 'h');
    HoursLabelShape(s, |h|, hours, mins);
  }

  lemma HoursLabelParses(hours: nat, mins: nat)
    requires hours > 0
    ensures ParseTime(NatToString(hours) + "h " + NatToString(mins) + "m") == Some(60 * hours + mins)
  {
    MinutesRoundTrip(mins);
    ParseNatToString(hours);
    HoursLabelOf(NatToString(hours), NatToString(mins), hours, mins);
  }

  lemma HoursLabelRoundTrip(minutes: nat)
    requires minutes >= 60
    ensures ParseTime(FormatTime(minutes)) == Some(minutes)
  {
    var hours := minutes / 60;
    var mins := minutes % 60;
    assert FormatTime(minutes) == NatToString(hours) + "h " + NatToString(mins) + "m";
    HoursLabelParses(hours, mins);
  }

  /** The label of a non-negative duration reads back as that duration, so distinct durations get distinct labels. */
  lemma FormatTimeRoundTrip(minutes: nat)
    ensures ParseTime(FormatTime(minutes)) == Some(minutes)
  {
    if minutes >= 60 {
      HoursLabelRoundTrip(minutes);
    } else {
      MinutesLabelRoundTrip(minutes);
    }
  }

  /** Four hours show as "4h 0m"; a negative duration keeps its sign in the minutes, as the truncating `%` does. */
  lemma FormatTimeExamples()
    ensures FormatTime(240) == "4h 0m"
    ensures FormatTime(45) == "45m"
    ensures FormatTime(-90) == "-30m"
  {
    assert NatToString(45) == NatToString(4) + [DigitChar(5)];
    assert NatToString(30) == NatToString(3) + [DigitChar(0)];
  }

  const LessonIcon := "\U{1F4DA}"
  const PracticeIcon := "\U{1F4A1}"
  const AchievementIcon := "\U{1F3C6}"
  const OtherIcon := "\U{1F4DD}"

  /** `getActivityIcon`: one icon per known activity type and a fallback for any other. */
  function GetActivityIcon(kind: string): (icon: string)
    ensures kind == "lesson" <==> icon == LessonIcon
    ensures kind == "practice" <==> icon == PracticeIcon
    ensures kind == "achievement" <==> icon == AchievementIcon
    ensures kind !in {"lesson", "practice", "achievement"} <==> icon == OtherIcon
  {
    match kind
    case "lesson" => LessonIcon
    case "practice" => PracticeIcon
    case "achievement" => AchievementIcon
    case _ => OtherIcon
  }

  datatype Activity = Activity(id: int, kind: string, title: string, date: string, completed: bool)

  /** `loadRecentActivity`'s fixed list. */
  const RecentActivity: seq<Activity> := [
    Activity(1, "lesson", "Numbers 1-10", "2 hours ago", true),
    Activity(2, "practice", "Family Signs Practice", "1 day ago", true),
    Activity(3, "lesson", "Hello & Goodbye", "2 days ago", true),
    Activity(4, "achievement", "Week Warrior Achievement", "3 days ago", true)
  ]

  /** Every listed activity has a type with its own icon. */
  lemma RecentActivityIcons()
    ensures forall a :: a in RecentActivity ==> GetActivityIcon(a.kind) != OtherIcon
  {
  }

  /** The `UserDashboard` component's state. */
  class Dashboard {
    var stats: Stats
    var recentActivity: seq<Activity>

    constructor()
      ensures stats == InitialStats && recentActivity == []
    {
      stats := InitialStats;
      recentActivity := [];
    }

    /** The mount effect: a visitor who is not signed in is sent to `/login`; otherwise both lists load. */
    method Open(auth: AuthProvider) returns (navigateTo: Option<string>)
      modifies this
      ensures !auth.isAuthenticated ==>
        navigateTo == Some("/login") && stats == old(stats) && recentActivity == old(recentActivity)
      ensures auth.isAuthenticated ==>
        navigateTo.None? && stats == LoadUserStats(auth.user) && recentActivity == RecentActivity
    {
      if !auth.isAuthenticated {
        return Some("/login");
      }
      stats := LoadUserStats(auth.user);
      recentActivity := RecentActivity;
      navigateTo := None;
    }

    /** `handleLogout`: the session ends and the visitor goes to the landing page. */
    method HandleLogout(auth: AuthProvider) returns (navigateTo: string)
      requires auth.Valid()
      modifies auth, auth.store
      ensures auth.Valid() && auth.user.None? && !auth.isAuthenticated
      ensures auth.store.entries == old(auth.store.entries) - {"user", "authToken"}
      ensures navigateTo == "/"
    {
      auth.Logout();
      navigateTo := "/";
    }
  }
}
