/** The shared backend helpers: table names, profile roles, the demo-quota
    rule and the outcome of the demo-usage counter RPCs. */
module SupabaseBackend {
  import opened Common
  import opened Database

  const COMPANIES := "salesai_companies"
  const PROFILES := "salesai_profiles"
  const API_KEYS := "salesai_api_keys"
  const SESSIONS := "salesai_sessions"
  const ANALYSIS_RESULTS := "salesai_analysis_results"
  const SUBSCRIPTIONS := "salesai_subscriptions"
  const AUDIT_LOGS := "salesai_audit_logs"

  const USER := "user"
  const ADMIN := "admin"
  const SUPER_ADMIN := "super_admin"
  const DEMO_USER := "demo_user"

  datatype DemoLimits = DemoLimits(maxSessions: int, maxMinutes: real)

  /** The fixed demo quota: one session and two minutes. */
  function GetDemoLimits(): (l: DemoLimits)
    ensures l.maxSessions == 1 && l.maxMinutes == 2.0
  {
    DemoLimits(1, 2.0)
  }

  /** `profile.demo_sessions_used || 0` */
  function SessionsUsed(p: ProfileRow): int
  {
    match p.demoSessionsUsed
    case None => 0
    case Some(n) => n
  }

  /** `profile.demo_minutes_used || 0` */
  function MinutesUsed(p: ProfileRow): real
  {
    match p.demoMinutesUsed
    case None => 0.0
    case Some(m) => m
  }

  /** Whether a profile may start another session under the demo quota. */
  predicate CanStartDemoSession(p: ProfileRow)
  {
    if p.role != DEMO_USER then true
    else
      var limits := GetDemoLimits();
      SessionsUsed(p) < limits.maxSessions && MinutesUsed(p) < limits.maxMinutes
  }

  /** Any role other than demo_user may always start a session. */
  lemma NonDemoCanAlwaysStart(p: ProfileRow)
    requires p.role != DEMO_USER
    ensures CanStartDemoSession(p)
  {
  }

  /** A demo user may start a session exactly while fewer than one session
      and fewer than two minutes are used, a missing counter reading as 0. */
  lemma DemoCanStartIff(p: ProfileRow)
    requires p.role == DEMO_USER
    ensures CanStartDemoSession(p) <==>
      (p.demoSessionsUsed.None? || p.demoSessionsUsed.value < 1) &&
      (p.demoMinutesUsed.None? || p.demoMinutesUsed.value < 2.0)
  {
  }

  /** Raising either counter never turns a refusal into a permission. */
  lemma CanStartMonotone(p: ProfileRow, sessions: int, minutes: real)
    requires SessionsUsed(p) <= sessions && MinutesUsed(p) <= minutes
    ensures CanStartDemoSession(p.(demoSessionsUsed := Some(sessions), demoMinutesUsed := Some(minutes)))
            ==> CanStartDemoSession(p)
  {
  }

  /** A demo profile whose counters are both 0, as profile creation inserts
      it, may start a session; once one session is counted it may not. */
  lemma FreshDemoProfileCanStart(p: ProfileRow)
    requires p.role == DEMO_USER && p.demoSessionsUsed == Some(0) && p.demoMinutesUsed == Some(0.0)
    ensures CanStartDemoSession(p)
    ensures !CanStartDemoSession(p.(demoSessionsUsed := Some(1)))
  {
  }

  /** What the database returns for an RPC call: an error message or none. */
  datatype RpcReply = RpcOk | RpcError(message: string)

  /** Whether a helper returned normally or raised an error with a message. */
  datatype Completion = Returned | Raised(message: string)

  /** The three counter helpers, named after the RPC each calls:
      `updateDemoUsage` calls `increment_demo_usage`, `incrementDemoSessions`
      calls `increment_demo_sessions` and `incrementDemoMinutes` calls
      `increment_demo_minutes`. */
  datatype CounterRpc = IncrementDemoUsage | IncrementDemoSessions | IncrementDemoMinutes

  /** The text each helper puts before the RPC's error message. */
  function ErrorPrefix(h: CounterRpc): string
  {
    match h
    case IncrementDemoUsage => "Failed to update demo usage: "
    case IncrementDemoSessions => "Failed to increment demo sessions: "
    case IncrementDemoMinutes => "Failed to increment demo minutes: "
  }

  lemma PrefixLength(h: CounterRpc)
    ensures |ErrorPrefix(h)| > 25
  {
    match h
    case IncrementDemoUsage =>
    case IncrementDemoSessions =>
    case IncrementDemoMinutes =>
  }

  /** A counter helper's outcome: it raises exactly when the RPC reports an
      error, with its own prefix before the RPC's message. */
  function CallCounter(h: CounterRpc, reply: RpcReply): (c: Completion)
    ensures c.Raised? <==> reply.RpcError?
    ensures reply.RpcError? ==> c.message == ErrorPrefix(h) + reply.message
  {
    match reply
    case RpcOk => Returned
    case RpcError(m) => Raised(ErrorPrefix(h) + m)
  }

  /** A raised message tells which helper raised it and what the database
      reported: no two helpers or RPC errors give the same message. */
  lemma {:induction false} RaisedMessageIdentifiesHelper(h1: CounterRpc, r1: RpcReply, h2: CounterRpc, r2: RpcReply)
    requires CallCounter(h1, r1).Raised? && CallCounter(h1, r1) == CallCounter(h2, r2)
    ensures h1 == h2 && r1 == r2
  {
    var m1, m2 := CallCounter(h1, r1).message, CallCounter(h2, r2).message;
    var p1, p2 := ErrorPrefix(h1), ErrorPrefix(h2);
    assert m1 == p1 + r1.message && m2 == p2 + r2.message;
    PrefixLength(h1);
    PrefixLength(h2);
    assert m1[10] == p1[10] && m2[10] == p2[10] && m1[25] == p1[25] && m2[25] == p2[25];
    assert p1 == m1[..|p1|] && p2 == m2[..|p2|];
    assert r1.message == m1[|p1|..] && r2.message == m2[|p2|..];
  }
}
