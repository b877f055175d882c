/** The rows the handlers read and write in the hosted Postgres database, and
    the database itself as one map per table from row id to row. Lookups that
    the handlers end with `.single()` give a row only when exactly one row
    matches: no match and several matches both come back as "no row". */
module Database {
  import opened Common

  /** Row ids are the uuid strings the database generates. */
  type Id = string

  datatype ProfileSettings = ProfileSettings(notifications: bool, emailSummaries: bool, onboardingCompleted: bool)

  /** A row of salesai_profiles. The demo counters may be missing on rows the
      handlers did not create; `None` stands for null/undefined. */
  datatype ProfileRow = ProfileRow(
    authId: string,
    companyId: Option<Id>,
    email: string,
    firstName: string,
    lastName: string,
    position: Option<string>,
    phone: Option<string>,
    teamSize: Option<int>,
    role: string,
    demoSessionsUsed: Option<int>,
    demoMinutesUsed: Option<real>,
    settings: ProfileSettings)

  /** A row of salesai_companies (its `settings` column is always `{}` here). */
  datatype CompanyRow = CompanyRow(name: string, domain: Option<string>)

  datatype AnalyticsSummary = AnalyticsSummary(overallScore: Option<real>, messageCount: Option<int>)

  /** A row of salesai_sessions. */
  datatype SessionRow = SessionRow(
    profileId: Id,
    companyId: Option<string>,
    conversationId: Option<string>,
    title: Option<string>,
    status: string,
    durationSeconds: Option<real>,
    processingStatus: string,
    summary: Option<AnalyticsSummary>)

  /** The fields of a client-computed analysis that the handlers read; the
      empty string stands for an absent or empty text field. */
  datatype AnalysisData = AnalysisData(
    title: string,
    durationSeconds: Option<real>,
    overallScore: Option<real>,
    messageCount: Option<int>,
    model: string)

  /** A row of salesai_analysis_results; the table is keyed by its unique
      `session_id` column, the upsert's conflict target. */
  datatype AnalysisRow = AnalysisRow(
    analysisType: string,
    provider: string,
    version: string,
    results: AnalysisData,
    confidenceScore: real)

  /** A row of salesai_api_keys. */
  datatype ApiKeyRow = ApiKeyRow(profileId: Id, service: string, encryptedKey: string, keyHash: string, isActive: bool)

  /** A row of salesai_subscriptions. */
  datatype SubscriptionRow = SubscriptionRow(profileId: Id, status: string, minutesLimit: real, minutesUsed: real, planName: string)

  /** A row of salesai_audit_logs as session creation writes it. */
  datatype AuditEntry = AuditEntry(
    userId: string,
    companyId: Option<Id>,
    eventType: string,
    resource: string,
    action: string,
    sessionId: Id,
    title: Option<string>)

  /** The database. Handlers change it only through the statements they issue. */
  class Db {
    var profiles: map<Id, ProfileRow>
    var companies: map<Id, CompanyRow>
    var sessions: map<Id, SessionRow>
    var analyses: map<Id, AnalysisRow>
    var apiKeys: map<Id, ApiKeyRow>
    var subscriptions: map<Id, SubscriptionRow>
    var auditLogs: seq<AuditEntry>

    constructor ()
      ensures profiles == map[] && companies == map[] && sessions == map[] && analyses == map[]
      ensures apiKeys == map[] && subscriptions == map[] && auditLogs == []
    {
      profiles, companies, sessions, analyses := map[], map[], map[], map[];
      apiKeys, subscriptions, auditLogs := map[], map[], [];
    }
  }

  lemma SingletonOfCardOne(s: set<Id>, x: Id)
    requires |s| == 1 && x in s
    ensures s == {x}
  {
    var rest := s - {x};
    assert s == rest + {x};
    assert |rest| == 0;
  }

  lemma SubsetCard(a: set<Id>, b: set<Id>)
    requires a <= b
    ensures |a| <= |b|
  {
    assert b == a + (b - a);
  }

  /** What `.single()` returns for the set of matching row ids. */
  function Single(s: set<Id>): (r: Option<Id>)
    ensures r.Some? <==> |s| == 1
    ensures r.Some? ==> s == {r.value}
  {
    if |s| == 1 then
      var x :| x in s;
      SingletonOfCardOne(s, x);
      Some(x)
    else None
  }

  /** When at most one row can match, `.single()` finds a row exactly when one exists. */
  lemma SingleOfAtMostOne(s: set<Id>)
    requires |s| <= 1
    ensures Single(s).Some? <==> s != {}
    ensures Single(s).Some? ==> Single(s).value in s
  {
    if s != {} {
      var x :| x in s;
      assert |s| == 1;
    }
  }

  function ProfilesWithAuth(profiles: map<Id, ProfileRow>, authId: string): set<Id>
  {
    set k | k in profiles && profiles[k].authId == authId
  }

  /** `.from(profiles).eq('auth_id', authId).single()` */
  function ProfileByAuth(profiles: map<Id, ProfileRow>, authId: string): (r: Option<Id>)
    ensures r.Some? ==> r.value in profiles && profiles[r.value].authId == authId
  {
    Single(ProfilesWithAuth(profiles, authId))
  }

  /** The token a handler takes from its Authorization header with
      `authHeader.replace('Bearer ', '')`: the first "Bearer " is removed. */
  function BearerToken(authHeader: string): string
  {
    ReplaceFirst(authHeader, "Bearer ", "")
  }

  /** The caller's profile as the analysis-save and API-key handlers resolve
      it: a non-empty Authorization header, a user the auth provider gives for
      its token, and that user's profile read with `.single()`. The read's
      error is not looked at, so a failed read (`readFails`) reads as "no
      profile". */
  function CallerProfile(profiles: map<Id, ProfileRow>, authHeader: string,
                         verify: string -> Option<string>, readFails: bool): (r: Option<Id>)
    ensures r.Some? ==> authHeader != "" && !readFails && r.value in profiles
    ensures r.Some? ==> verify(BearerToken(authHeader)) == Some(profiles[r.value].authId)
    ensures r.Some? <==>
      && authHeader != "" && !readFails
      && verify(BearerToken(authHeader)).Some?
      && |ProfilesWithAuth(profiles, verify(BearerToken(authHeader)).value)| == 1
  {
    if authHeader == "" then None
    else
      match verify(BearerToken(authHeader))
      case None => None
      case Some(uid) => if readFails then None else ProfileByAuth(profiles, uid)
  }

  /** The single-match converse: a header whose token verifies to a user with
      exactly one profile, read without failure, resolves to that profile. */
  lemma CallerProfileOfOnlyProfile(profiles: map<Id, ProfileRow>, authHeader: string,
                                   verify: string -> Option<string>, pid: Id)
    requires authHeader != "" && pid in profiles
    requires verify(BearerToken(authHeader)) == Some(profiles[pid].authId)
    requires ProfilesWithAuth(profiles, profiles[pid].authId) == {pid}
    ensures CallerProfile(profiles, authHeader, verify, false) == Some(pid)
  {
  }

  /** At most one profile per external-auth id. */
  ghost predicate UniqueAuthIds(profiles: map<Id, ProfileRow>)
  {
    forall a :: |ProfilesWithAuth(profiles, a)| <= 1
  }

  function SessionsWithConversation(sessions: map<Id, SessionRow>, conversationId: string): set<Id>
  {
    set k | k in sessions && sessions[k].conversationId == Some(conversationId)
  }

  /** `.from(sessions).eq('conversation_id', conversationId).single()` */
  function SessionByConversation(sessions: map<Id, SessionRow>, conversationId: string): (r: Option<Id>)
    ensures r.Some? ==> r.value in sessions && sessions[r.value].conversationId == Some(conversationId)
  {
    Single(SessionsWithConversation(sessions, conversationId))
  }

  /** At most one session per conversation id. */
  ghost predicate UniqueConversations(sessions: map<Id, SessionRow>)
  {
    forall c :: |SessionsWithConversation(sessions, c)| <= 1
  }

  function CompaniesNamed(companies: map<Id, CompanyRow>, name: string): set<Id>
  {
    set k | k in companies && companies[k].name == name
  }

  /** `.from(companies).eq('name', name).single()` */
  function CompanyByName(companies: map<Id, CompanyRow>, name: string): (r: Option<Id>)
    ensures r.Some? ==> r.value in companies && companies[r.value].name == name
  {
    Single(CompaniesNamed(companies, name))
  }

  /** At most one company per name. */
  ghost predicate UniqueCompanyNames(companies: map<Id, CompanyRow>)
  {
    forall n :: |CompaniesNamed(companies, n)| <= 1
  }

  function KeysFor(apiKeys: map<Id, ApiKeyRow>, profileId: Id, service: string): set<Id>
  {
    set k | k in apiKeys && apiKeys[k].profileId == profileId && apiKeys[k].service == service
  }

  /** `.from(api_keys).eq('profile_id', profileId).eq('service', service).single()` */
  function KeyFor(apiKeys: map<Id, ApiKeyRow>, profileId: Id, service: string): (r: Option<Id>)
    ensures r.Some? ==> r.value in apiKeys && apiKeys[r.value].profileId == profileId && apiKeys[r.value].service == service
  {
    Single(KeysFor(apiKeys, profileId, service))
  }

  /** At most one key row per (profile, service). */
  ghost predicate UniqueKeyRows(apiKeys: map<Id, ApiKeyRow>)
  {
    forall p, s :: |KeysFor(apiKeys, p, s)| <= 1
  }

  function ActiveSubscriptions(subscriptions: map<Id, SubscriptionRow>, profileId: Id): set<Id>
  {
    set k | k in subscriptions && subscriptions[k].profileId == profileId && subscriptions[k].status == "active"
  }

  /** `.from(subscriptions).eq('profile_id', profileId).eq('status', 'active').single()` */
  function ActiveSubscription(subscriptions: map<Id, SubscriptionRow>, profileId: Id): (r: Option<Id>)
    ensures r.Some? ==> r.value in subscriptions && subscriptions[r.value].profileId == profileId
    ensures r.Some? ==> subscriptions[r.value].status == "active"
  {
    Single(ActiveSubscriptions(subscriptions, profileId))
  }
}
