/** The dashboard statistics handler: fixed demo figures whenever the caller
    or their profile cannot be read, the demo-quota counters for demo users,
    and for everyone else the subscription minutes, the mean analysis score
    and the run of consecutive days with a completed session. Calendar days
    are integer day numbers; the query results after the profile lookup are
    inputs. */
module DashboardStats {
  import opened Common
  import opened Database
  import opened SupabaseBackend

  /** The `demoLimits` object of a demo user's statistics. */
  datatype DemoCounters = DemoCounters(
    maxSessions: int,
    maxMinutes: real,
    sessionsUsed: int,
    minutesUsed: real,
    sessionsLeft: int,
    canStartSession: bool)

  /** The JSON body of the response; absent keys are `None`. */
  datatype Stats = Stats(
    minutesLeft: real,
    sessionsToday: int,
    progressScore: real,
    streakDays: int,
    totalMinutesUsed: real,
    totalSessions: int,
    averageScore: real,
    isDemo: bool,
    error: Option<string>,
    demoLimits: Option<DemoCounters>,
    subscriptionTier: Option<string>)

  /** The figures shown to anyone whose real statistics cannot be read. */
  function DemoFallback(error: Option<string>): (s: Stats)
    ensures s.minutesLeft == 2.0 && s.isDemo
    ensures s.sessionsToday == 0 && s.streakDays == 0 && s.totalSessions == 0
    ensures s.progressScore == 0.0 && s.averageScore == 0.0 && s.totalMinutesUsed == 0.0
    ensures s.error == error && s.demoLimits.None? && s.subscriptionTier.None?
  {
    Stats(2.0, 0, 0.0, 0, 0.0, 0, 0.0, true, error, None, None)
  }

  // ---------------------------------------------------------------------
  // Demo users
  // ---------------------------------------------------------------------

  function Max(a: real, b: real): real { if a < b then b else a }

  function MaxInt(a: int, b: int): int { if a < b then b else a }

  /** A demo user's statistics, computed from the profile's usage counters
      with the demo quota of one session and two minutes written out. */
  function DemoStats(p: ProfileRow): Stats
  {
    var sessionsUsed := SessionsUsed(p);
    var minutesUsed := MinutesUsed(p);
    var minutesLeft := Max(0.0, 2.0 - minutesUsed);
    var sessionsLeft := MaxInt(0, 1 - sessionsUsed);
    Stats(minutesLeft, sessionsUsed, 0.0, 0, minutesUsed, sessionsUsed, 0.0, true, None,
          Some(DemoCounters(1, 2.0, sessionsUsed, minutesUsed, sessionsLeft,
                            sessionsLeft > 0 && minutesLeft > 0.0)),
          None)
  }

  /** The counters shown to a demo user are never negative, they report the
      profile's usage, and `canStartSession` is exactly the backend's demo
      quota rule for the same profile. */
  lemma DemoStatsAgreeWithQuota(p: ProfileRow)
    requires p.role == DEMO_USER
    ensures var s := DemoStats(p);
      && s.isDemo && s.demoLimits.Some?
      && s.minutesLeft >= 0.0 && s.demoLimits.value.sessionsLeft >= 0
      && s.minutesLeft == (if MinutesUsed(p) < 2.0 then 2.0 - MinutesUsed(p) else 0.0)
      && s.demoLimits.value.sessionsLeft == (if SessionsUsed(p) < 1 then 1 - SessionsUsed(p) else 0)
      && s.demoLimits.value.maxSessions == GetDemoLimits().maxSessions
      && s.demoLimits.value.maxMinutes == GetDemoLimits().maxMinutes
      && s.demoLimits.value.sessionsUsed == SessionsUsed(p)
      && s.demoLimits.value.minutesUsed == MinutesUsed(p)
      && (s.demoLimits.value.canStartSession <==> CanStartDemoSession(p))
  {
  }

  // ---------------------------------------------------------------------
  // Sums and the mean score
  // ---------------------------------------------------------------------

  /** `xs.reduce((sum, x) => sum + x, 0)` */
  function Sum(xs: seq<real>): real
  {
    if xs == [] then 0.0 else Sum(xs[..|xs| - 1]) + xs[|xs| - 1]
  }

  /** The mean of the scores, 0 when there are none. */
  function Mean(xs: seq<real>): (m: real)
    ensures xs != [] ==> m * (|xs| as real) == Sum(xs)
    ensures xs == [] ==> m == 0.0
  {
    if |xs| > 0 then Sum(xs) / (|xs| as real) else 0.0
  }

  /** Scores between `lo` and `hi` sum to between `n * lo` and `n * hi`. */
  lemma {:induction false} SumBounds(xs: seq<real>, lo: real, hi: real)
    requires forall i :: 0 <= i < |xs| ==> lo <= xs[i] <= hi
    ensures (|xs| as real) * lo <= Sum(xs) <= (|xs| as real) * hi
  {
    if xs != [] {
      SumBounds(xs[..|xs| - 1], lo, hi);
    }
  }

  /** The mean of scores that all lie between `lo` and `hi` lies there too. */
  lemma MeanBounds(xs: seq<real>, lo: real, hi: real)
    requires xs != []
    requires forall i :: 0 <= i < |xs| ==> lo <= xs[i] <= hi
    ensures lo <= Mean(xs) <= hi
  {
    SumBounds(xs, lo, hi);
    var n := |xs| as real;
    assert Mean(xs) * n == Sum(xs);
    assert (Mean(xs) - lo) * n == Sum(xs) - n * lo >= 0.0;
    NonNegativeFactor(Mean(xs) - lo, n);
    assert (hi - Mean(xs)) * n == n * hi - Sum(xs) >= 0.0;
    NonNegativeFactor(hi - Mean(xs), n);
  }

  /** A product with a positive factor is non-negative only if the other
      factor is. */
  lemma NonNegativeFactor(x: real, n: real)
    requires n > 0.0 && x * n >= 0.0
    ensures x >= 0.0
  {
  }

  /** `Math.round(x * 10) / 10` over exact reals. */
  function Round1(x: real): (r: real)
    ensures -0.05 < r - x <= 0.05
  {
    var f := (x * 10.0 + 0.5).Floor;
    assert x * 10.0 - 0.5 < f as real <= x * 10.0 + 0.5;
    (f as real) / 10.0
  }

  // ---------------------------------------------------------------------
  // The streak of consecutive days
  // ---------------------------------------------------------------------

  predicate StrictlyDescending(u: seq<int>)
  {
    forall i, j :: 0 <= i < j < |u| ==> u[i] > u[j]
  }

  /** A day put into its place in a list of distinct days, latest first. */
  function InsertDay(u: seq<int>, d: int): (r: seq<int>)
    requires StrictlyDescending(u)
    ensures StrictlyDescending(r)
    ensures forall x :: x in r <==> x in u || x == d
  {
    if u == [] || d > u[0] then [d] + u
    else if d == u[0] then u
    else
      var t := InsertDay(u[1..], d);
      assert forall i :: 0 <= i < |t| ==> t[i] < u[0] by {
        forall i | 0 <= i < |t|
          ensures t[i] < u[0]
        {
          assert t[i] in t;
        }
      }
      [u[0]] + t
  }

  /** `[...new Set(sessionDates)].sort(latest first)`: every day with a
      session once, latest first. */
  function UniqueDates(days: seq<int>): (u: seq<int>)
    ensures StrictlyDescending(u)
    ensures forall x :: x in u <==> x in days
  {
    if days == [] then []
    else
      var u := InsertDay(UniqueDates(days[..|days| - 1]), days[|days| - 1]);
      assert forall x :: x in days <==> x in days[..|days| - 1] || x == days[|days| - 1];
      u
  }

  /** How many of the gaps from position `i` on are exactly one day,
      counting until the first that is not. */
  function DayGaps(u: seq<int>, i: nat): nat
    requires 1 <= i <= |u|
    decreases |u| - i
  {
    if i < |u| && u[i - 1] - u[i] == 1 then 1 + DayGaps(u, i + 1) else 0
  }

  /** The streak the handler's loop computes over the distinct days. */
  function StreakOf(u: seq<int>, today: int): nat
  {
    if |u| == 0 || (u[0] != today && u[0] != today - 1) then 0 else 1 + DayGaps(u, 1)
  }

  /** The streak loop: 0 unless the latest day is today or yesterday, and
      then one more for each leading gap of exactly one day. */
  method Streak(days: seq<int>, today: int) returns (streakDays: nat)
    ensures streakDays == StreakOf(UniqueDates(days), today)
  {
    streakDays := 0;
    if |days| > 0 {
      var uniqueDates := UniqueDates(days);
      assert days[0] in uniqueDates;
      if uniqueDates[0] == today || uniqueDates[0] == today - 1 {
        streakDays := 1;
        var i := 1;
        while i < |uniqueDates|
          invariant 1 <= i <= |uniqueDates|
          invariant streakDays + DayGaps(uniqueDates, i) == 1 + DayGaps(uniqueDates, 1)
          decreases |uniqueDates| - i
        {
          if uniqueDates[i - 1] - uniqueDates[i] == 1 {
            streakDays := streakDays + 1;
          } else {
            break;
          }
          i := i + 1;
        }
      }
    }
  }

  /** On distinct days latest first, the one-day gaps from position `i` lead
      through consecutive days, and the day just before the last of them is
      not in the list at all. */
  lemma {:induction false} DayGapsMeaning(u: seq<int>, i: nat)
    requires StrictlyDescending(u) && 1 <= i <= |u|
    ensures i + DayGaps(u, i) <= |u|
    ensures forall j :: i - 1 <= j < i + DayGaps(u, i) ==> u[j] == u[i - 1] - (j - i + 1)
    ensures forall j :: i - 1 <= j < |u| ==> u[j] != u[i - 1] - DayGaps(u, i) - 1
    decreases |u| - i
  {
    if i < |u| && u[i - 1] - u[i] == 1 {
      DayGapsMeaning(u, i + 1);
    } else {
      forall j | i - 1 <= j < |u|
        ensures u[j] != u[i - 1] - 1
      {
        if j >= i {
          assert u[j] <= u[i];
        }
      }
    }
  }

  /** The first of the distinct days is the latest day with a session. */
  lemma LatestFirst(days: seq<int>)
    requires days != []
    ensures var u := UniqueDates(days); u != [] && u[0] in days && forall d :: d in days ==> d <= u[0]
  {
    var u := UniqueDates(days);
    assert days[0] in u;
    forall d | d in days
      ensures d <= u[0]
    {
      assert d in u;
    }
  }

  /** A streak of `k` days covers the `k` days up to the latest one, and the
      day before them had no session. */
  lemma StreakRun(days: seq<int>, today: int)
    requires StreakOf(UniqueDates(days), today) > 0
    ensures var u := UniqueDates(days); var k := StreakOf(u, today);
      && k <= |u|
      && (forall d :: u[0] - k < d <= u[0] ==> d in days)
      && u[0] - k !in days
  {
    var u := UniqueDates(days);
    var k := StreakOf(u, today);
    DayGapsMeaning(u, 1);
    forall d | u[0] - k < d <= u[0]
      ensures d in days
    {
      var j := u[0] - d;
      assert u[j] == d;
      assert d in u;
    }
    assert forall j :: 0 <= j < |u| ==> u[j] != u[0] - k;
    assert u[0] - k !in u;
  }

  /** The streak is the number of consecutive days with a completed session
      ending at the latest one, provided that one is today or yesterday, and
      0 otherwise; it never exceeds the number of distinct days. */
  lemma StreakMeaning(days: seq<int>, today: int)
    ensures var u := UniqueDates(days); var k := StreakOf(u, today);
      && k <= |u|
      && (days != [] ==> u != [] && u[0] in days && forall d :: d in days ==> d <= u[0])
      && (k == 0 <==> days == [] || (u[0] != today && u[0] != today - 1))
      && (k > 0 ==> (forall d :: u[0] - k < d <= u[0] ==> d in days) && u[0] - k !in days)
  {
    if days != [] {
      LatestFirst(days);
      if StreakOf(UniqueDates(days), today) > 0 {
        StreakRun(days, today);
      }
    }
  }

  // ---------------------------------------------------------------------
  // The handler
  // ---------------------------------------------------------------------

  /** What `.eq('auth_id', id).maybeSingle()` gives: an error, no row, or the one row. */
  datatype ProfileLookup = LookupFailed | NoProfile | Found(id: Id, row: ProfileRow)

  /** `.maybeSingle()` over the profiles table: several matching rows are an
      error, as is a failed query. */
  function LookUpProfile(profiles: map<Id, ProfileRow>, authId: string, queryFails: bool): (r: ProfileLookup)
    ensures r.Found? ==> r.id in profiles && profiles[r.id] == r.row && r.row.authId == authId
    ensures r.NoProfile? <==> !queryFails && ProfilesWithAuth(profiles, authId) == {}
    ensures r.Found? <==> !queryFails && |ProfilesWithAuth(profiles, authId)| == 1
    ensures r.LookupFailed? <==> queryFails || |ProfilesWithAuth(profiles, authId)| > 1
  {
    var matches := ProfilesWithAuth(profiles, authId);
    if queryFails || |matches| > 1 then LookupFailed
    else
      SingleOfAtMostOne(matches);
      match Single(matches)
      case None => NoProfile
      case Some(id) => Found(id, profiles[id])
  }

  /** The answers of the queries issued after the profile was found:
      the profile's newest active subscription, this month's usage minutes,
      today's session count, the days of its latest completed sessions
      (newest first) and its latest non-null overall scores. */
  datatype Queries = Queries(
    subscription: Option<SubscriptionRow>,
    usageMinutes: seq<real>,
    sessionsToday: Option<int>,
    completedDays: seq<int>,
    scores: seq<real>)

  /** A real user's statistics; the streak is given as computed by `Streak`. */
  function UserStats(q: Queries, streakDays: int): Stats
  {
    var minutesLeft :=
      match q.subscription
      case None => 100.0
      case Some(sub) => Max(0.0, sub.minutesLimit - sub.minutesUsed);
    var average := Round1(Mean(q.scores));
    var tier :=
      match q.subscription
      case None => "starter"
      case Some(sub) => OrElse(sub.planName, "starter");
    Stats(minutesLeft, match q.sessionsToday case None => 0 case Some(n) => n,
          average, streakDays, Sum(q.usageMinutes), |q.completedDays|, average,
          false, None, None, Some(tier))
  }

  /** The handler as a function of the caller, the profiles table and the
      later query answers. `threw` stands for any query rejecting, which the
      handler catches. */
  function GetStats(user: Option<string>, profiles: map<Id, ProfileRow>, profileQueryFails: bool,
                    q: Queries, today: int, threw: bool): Stats
  {
    if threw then DemoFallback(Some("Could not load real stats"))
    else match user
      case None => DemoFallback(None)
      case Some(authId) =>
        match LookUpProfile(profiles, authId, profileQueryFails)
        case LookupFailed => DemoFallback(Some("Profile query failed"))
        case NoProfile => DemoFallback(Some("Profile needs to be created"))
        case Found(_, p) =>
          if p.role == DEMO_USER then DemoStats(p)
          else UserStats(q, StreakOf(UniqueDates(q.completedDays), today))
  }

  /** `GET`, with the streak computed by its loop. */
  method Get(user: Option<string>, profiles: map<Id, ProfileRow>, profileQueryFails: bool,
             q: Queries, today: int, threw: bool) returns (stats: Stats)
    ensures stats == GetStats(user, profiles, profileQueryFails, q, today, threw)
  {
    if threw {
      return DemoFallback(Some("Could not load real stats"));
    }
    if user.None? {
      return DemoFallback(None);
    }
    var lookup := LookUpProfile(profiles, user.value, profileQueryFails);
    if lookup.LookupFailed? {
      return DemoFallback(Some("Profile query failed"));
    }
    if lookup.NoProfile? {
      return DemoFallback(Some("Profile needs to be created"));
    }
    if lookup.row.role == DEMO_USER {
      return DemoStats(lookup.row);
    }
    var streakDays := Streak(q.completedDays, today);
    stats := UserStats(q, streakDays);
  }

  /** No session, a failed or ambiguous profile query, a missing profile and
      a thrown error all give the fixed demo figures. */
  lemma FallbacksAreDemoFigures(user: Option<string>, profiles: map<Id, ProfileRow>, profileQueryFails: bool,
                                q: Queries, today: int, threw: bool)
    requires threw || user.None? || !LookUpProfile(profiles, user.value, profileQueryFails).Found?
    ensures var s := GetStats(user, profiles, profileQueryFails, q, today, threw);
      && s.isDemo && s.minutesLeft == 2.0 && s.sessionsToday == 0 && s.streakDays == 0
      && s.totalSessions == 0 && s.totalMinutesUsed == 0.0 && s.averageScore == 0.0
      && s.progressScore == 0.0 && s.demoLimits.None?
  {
  }

  /** A caller whose one profile is a demo user's sees the demo counters. */
  lemma DemoUserSeesQuota(authId: string, profiles: map<Id, ProfileRow>, q: Queries, today: int)
    requires ProfileByAuth(profiles, authId).Some?
    requires profiles[ProfileByAuth(profiles, authId).value].role == DEMO_USER
    ensures var p := profiles[ProfileByAuth(profiles, authId).value];
      var s := GetStats(Some(authId), profiles, false, q, today, false);
      && s.isDemo && s.demoLimits.Some?
      && (s.demoLimits.value.canStartSession <==> CanStartDemoSession(p))
  {
    var p := profiles[ProfileByAuth(profiles, authId).value];
    DemoStatsAgreeWithQuota(p);
  }

  /** Other users see their subscription's remaining minutes (never
      negative), 100 without a subscription, the tier defaulting to
      `starter`, and a completed-session count equal to the rows read. */
  lemma RegularUserFigures(authId: string, profiles: map<Id, ProfileRow>, q: Queries, today: int)
    requires ProfileByAuth(profiles, authId).Some?
    requires profiles[ProfileByAuth(profiles, authId).value].role != DEMO_USER
    ensures var s := GetStats(Some(authId), profiles, false, q, today, false);
      && !s.isDemo && s.demoLimits.None? && s.minutesLeft >= 0.0
      && (q.subscription.None? ==> s.minutesLeft == 100.0 && s.subscriptionTier == Some("starter"))
      && (q.subscription.Some? ==>
            s.minutesLeft == (if q.subscription.value.minutesUsed < q.subscription.value.minutesLimit
                              then q.subscription.value.minutesLimit - q.subscription.value.minutesUsed
                              else 0.0))
      && (q.subscription.Some? && q.subscription.value.planName != "" ==>
            s.subscriptionTier == Some(q.subscription.value.planName))
      && s.totalSessions == |q.completedDays|
      && s.streakDays <= |UniqueDates(q.completedDays)|
      && s.averageScore == s.progressScore
      && -0.05 < s.averageScore - Mean(q.scores) <= 0.05
  {
    StreakMeaning(q.completedDays, today);
  }

  /** A user with sessions on days 10, 11 and 12 (twice) and 8 has a
      three-day streak on day 13, and none on day 14. */
  lemma ExampleStreak(days: seq<int>)
    requires days == [12, 12, 11, 10, 8]
    ensures StreakOf(UniqueDates(days), 13) == 3
    ensures StreakOf(UniqueDates(days), 14) == 0
  {
    LatestDay(days);
    forall d | 9 < d <= 12
      ensures d in days
    {
      assert d == days[13 - d];
    }
    assert 9 !in days;
    StreakIs(days, 13, 3);
  }

  /** When the latest day is today or yesterday, the `k` days up to it all
      had a session and the day before them did not, the streak is `k`. */
  lemma StreakIs(days: seq<int>, today: int, k: nat)
    requires days != [] && k > 0
    requires var latest := UniqueDates(days)[0];
      && (latest == today || latest == today - 1)
      && (forall d :: latest - k < d <= latest ==> d in days)
      && latest - k !in days
    ensures StreakOf(UniqueDates(days), today) == k
  {
    StreakRun(days, today);
  }

  /** The latest of the example's days is 12. */
  lemma LatestDay(days: seq<int>)
    requires days == [12, 12, 11, 10, 8]
    ensures UniqueDates(days)[0] == 12
  {
    var u := UniqueDates(days);
    LatestFirst(days);
    assert 12 in days;
    assert u[0] in days ==> u[0] <= 12;
  }
}
