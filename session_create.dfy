/** POST /api/session/create: start a training session. Requests without an
    Authorization header, or from the `demo-user` id, get a session that is
    never stored; others are authenticated, their profile is loaded, the body
    is checked against the schema, an exhausted subscription is refused, and
    the session and an audit entry are inserted. The demo quota of the
    backend helpers is not consulted here. */
module SessionCreate {
  import opened Common
  import opened Database
  import opened SupabaseBackend

  /** A JSON value as the handler sees it; `Other` is an array or object. */
  datatype Json = Undefined | Null | Bool(b: bool) | Num(n: real) | Str(s: string) | Other

  /** JavaScript truthiness (NaN is not representable here). */
  predicate Truthy(v: Json)
  {
    match v
    case Undefined => false
    case Null => false
    case Bool(b) => b
    case Num(n) => n != 0.0
    case Str(s) => s != ""
    case Other => true
  }

  /** A request body: reading a missing key gives `undefined`. */
  type Body = map<string, Json>

  function Get(body: Body, key: string): Json
  {
    if key in body then body[key] else Undefined
  }

  /** The two field validators of `createSessionSchema`. */
  datatype Rule = TitleRule | CompanyIdRule

  predicate IsHexDigit(c: char)
  {
    ('0' <= c <= '9') || ('a' <= c <= 'f') || ('A' <= c <= 'F')
  }

  /** The 8-4-4-4-12 hexadecimal form, in either case. */
  predicate IsUuid(s: string)
  {
    |s| == 36 &&
    forall i :: 0 <= i < 36 ==> if i == 8 || i == 13 || i == 18 || i == 23 then s[i] == '-' else IsHexDigit(s[i])
  }

  predicate Accepts(rule: Rule, v: Json)
  {
    match rule
    case TitleRule => v.Str? && 1 <= |v.s| <= 255
    case CompanyIdRule => !Truthy(v) || (v.Str? && IsUuid(v.s))
  }

  /** `createSessionSchema`, in its declaration order. */
  const CreateSessionSchema: seq<(string, Rule)> := [("title", TitleRule), ("company_id", CompanyIdRule)]

  /** A schema entry rejects the body when the key is present and its value fails the rule. */
  predicate Rejects(data: Body, entry: (string, Rule))
  {
    Get(data, entry.0) != Undefined && !Accepts(entry.1, Get(data, entry.0))
  }

  datatype Checked = Passed(data: Body) | Thrown(message: string)

  /** `validateSchema` as a function of the body and the schema. */
  function SchemaCheck(data: Body, schema: seq<(string, Rule)>): Checked
  {
    if schema == [] then Passed(data)
    else if Rejects(data, schema[0]) then Thrown("Invalid " + schema[0].0)
    else SchemaCheck(data, schema[1..])
  }

  /** `validateSchema` passes, returning the body unchanged, exactly when no
      entry rejects it; otherwise it throws `Invalid <key>` for the first
      entry that does. */
  lemma {:induction false} SchemaCheckMeaning(data: Body, schema: seq<(string, Rule)>)
    ensures SchemaCheck(data, schema).Passed? <==> forall i :: 0 <= i < |schema| ==> !Rejects(data, schema[i])
    ensures SchemaCheck(data, schema).Passed? ==> SchemaCheck(data, schema).data == data
    ensures SchemaCheck(data, schema).Thrown? ==>
      exists i :: 0 <= i < |schema| && Rejects(data, schema[i]) &&
        (forall j :: 0 <= j < i ==> !Rejects(data, schema[j])) &&
        SchemaCheck(data, schema).message == "Invalid " + schema[i].0
  {
    if schema != [] && !Rejects(data, schema[0]) {
      SchemaCheckMeaning(data, schema[1..]);
      assert forall i :: 1 <= i < |schema| ==> schema[i] == schema[1..][i - 1];
      if SchemaCheck(data, schema).Thrown? {
        var i :| 0 <= i < |schema[1..]| && Rejects(data, schema[1..][i]) &&
          (forall j :: 0 <= j < i ==> !Rejects(data, schema[1..][j])) &&
          SchemaCheck(data, schema[1..]).message == "Invalid " + schema[1..][i].0;
        assert Rejects(data, schema[i + 1]);
        assert forall j :: 0 <= j < i + 1 ==> !Rejects(data, schema[j]);
      }
    } else if schema != [] {
      assert Rejects(data, schema[0]);
    }
  }

  /** `validateSchema`: walk the schema entries in order, throwing at the
      first one that rejects the body. */
  method ValidateSchema(data: Body, schema: seq<(string, Rule)>) returns (r: Checked)
    ensures r == SchemaCheck(data, schema)
  {
    var i := 0;
    while i < |schema|
      invariant 0 <= i <= |schema|
      invariant SchemaCheck(data, schema[i..]) == SchemaCheck(data, schema)
    {
      var (key, rule) := schema[i];
      if Get(data, key) != Undefined && !Accepts(rule, Get(data, key)) {
        return Thrown("Invalid " + key);
      }
      assert schema[i..][1..] == schema[i + 1..];
      i := i + 1;
    }
    return Passed(data);
  }

  /** With the handler's schema: the body passes exactly when the title is
      absent or a string of 1..255 characters and the company_id is absent,
      falsy or a uuid string. */
  lemma CreateSessionSchemaMeaning(data: Body)
    ensures SchemaCheck(data, CreateSessionSchema).Passed? <==>
      && (Get(data, "title") == Undefined || (Get(data, "title").Str? && 1 <= |Get(data, "title").s| <= 255))
      && (!Truthy(Get(data, "company_id")) || (Get(data, "company_id").Str? && IsUuid(Get(data, "company_id").s)))
    ensures Get(data, "title") == Null ==> SchemaCheck(data, CreateSessionSchema) == Thrown("Invalid title")
  {
    SchemaCheckMeaning(data, CreateSessionSchema);
    assert CreateSessionSchema[0] == ("title", TitleRule);
    assert CreateSessionSchema[1] == ("company_id", CompanyIdRule);
  }

  /** The uuid check ignores case. */
  lemma UuidAcceptsUpperCase()
    ensures IsUuid("123E4567-E89B-12D3-A456-426614174000")
  {
  }

  /** The uuid check needs the four dashes. */
  lemma UuidNeedsDashes()
    ensures !IsUuid("123e4567e89b12d3a456426614174000")
  {
  }

  const DEMO_TITLE := "Demo Voice Training Session"

  datatype CreateResponse =
    | DemoSession(id: string, demoTitle: Json)   // 200, status active, processing ready, isDemo
    | InvalidToken                           // 401
    | ProfileNotFound                        // 404
    | LimitReached                           // 400 'Subscription minute limit reached...'
    | SessionFailed                          // 500 'Failed to create session'
    | Created(id: Id, title: Option<string>, status: string, processingStatus: string)  // 200
    | InternalError                          // 500, bad JSON or a schema violation

  function StatusCode(r: CreateResponse): int
  {
    match r
    case DemoSession(_, _) => 200
    case InvalidToken => 401
    case ProfileNotFound => 404
    case LimitReached => 400
    case SessionFailed => 500
    case Created(_, _, _, _) => 200
    case InternalError => 500
  }

  /** The answers of the services the handler calls: the auth provider's user
      for a token, `Date.now()` rendered, whether the profile read fails (a
      404, like a missing profile), whether the subscription read fails (its
      error is ignored, so that reads as "no subscription"), the id of the new
      session, whether its insert fails, and whether the (unchecked) audit
      insert fails. */
  datatype Oracle = Oracle(
    verify: string -> Option<string>,
    now: string,
    profileReadFails: bool,
    subscriptionReadFails: bool,
    newSessionId: Id,
    insertFails: bool,
    auditFails: bool)

  /** The short-circuit: no Authorization header, or the `demo-user` id. */
  predicate IsDemoRequest(body: Body, authHeader: string)
  {
    authHeader == "" || Get(body, "userId") == Str("demo-user")
  }

  /** `title || 'Demo Voice Training Session'` */
  function DemoTitle(body: Body): (t: Json)
    ensures Truthy(t)
    ensures Truthy(Get(body, "title")) ==> t == Get(body, "title")
  {
    if Truthy(Get(body, "title")) then Get(body, "title") else Str(DEMO_TITLE)
  }

  /** The column value of a title that passed the schema. */
  function TitleColumn(v: Json): Option<string>
  {
    if v.Str? then Some(v.s) else None
  }

  /** `company_id || profile.company_id` */
  function CompanyColumn(v: Json, profileCompany: Option<Id>): (r: Option<string>)
    ensures Truthy(v) && v.Str? ==> r == Some(v.s)
    ensures !Truthy(v) ==> r == profileCompany
  {
    if Truthy(v) && v.Str? then Some(v.s)
    else if Truthy(v) then None
    else profileCompany
  }

  /** The session row the handler inserts. */
  function NewSession(profileId: Id, profile: ProfileRow, data: Body): (row: SessionRow)
    ensures row.profileId == profileId && row.status == "active" && row.processingStatus == "ready"
    ensures row.companyId == CompanyColumn(Get(data, "company_id"), profile.companyId)
    ensures row.title == TitleColumn(Get(data, "title"))
    ensures row.conversationId.None? && row.durationSeconds.None? && row.summary.None?
  {
    SessionRow(profileId, CompanyColumn(Get(data, "company_id"), profile.companyId), None,
      TitleColumn(Get(data, "title")), "active", None, "ready", None)
  }

  /** A subscription that is active and whose minutes are used up. */
  predicate Exhausted(subscriptions: map<Id, SubscriptionRow>, profileId: Id)
  {
    var s := ActiveSubscription(subscriptions, profileId);
    s.Some? && subscriptions[s.value].minutesUsed >= subscriptions[s.value].minutesLimit
  }

  datatype CreateOutcome = CreateOutcome(response: CreateResponse, sessions: map<Id, SessionRow>, auditLogs: seq<AuditEntry>)

  /** The writes once the caller, the profile and the body are settled. */
  function Insert(sessions: map<Id, SessionRow>, auditLogs: seq<AuditEntry>, userId: string,
                  profileId: Id, profile: ProfileRow, data: Body, o: Oracle): CreateOutcome
  {
    if o.insertFails then CreateOutcome(SessionFailed, sessions, auditLogs)
    else
      var row := NewSession(profileId, profile, data);
      var entry := AuditEntry(userId, profile.companyId, "session", "sessions", "create", o.newSessionId, row.title);
      CreateOutcome(
        Created(o.newSessionId, row.title, row.status, row.processingStatus),
        sessions[o.newSessionId := row],
        if o.auditFails then auditLogs else auditLogs + [entry])
  }

  /** The handler as a function of the tables it reads and the answers it gets;
      `None` is a body that is not JSON. */
  function Create(db: DbView, body: Option<Body>, authHeader: string, o: Oracle): CreateOutcome
  {
    if body.None? then CreateOutcome(InternalError, db.sessions, db.auditLogs)
    else
      var b := body.value;
      if IsDemoRequest(b, authHeader) then
        CreateOutcome(DemoSession("demo-session-" + o.now, DemoTitle(b)), db.sessions, db.auditLogs)
      else match o.verify(ReplaceFirst(authHeader, "Bearer ", ""))
      case None => CreateOutcome(InvalidToken, db.sessions, db.auditLogs)
      case Some(uid) =>
        if o.profileReadFails then CreateOutcome(ProfileNotFound, db.sessions, db.auditLogs)
        else match ProfileByAuth(db.profiles, uid)
        case None => CreateOutcome(ProfileNotFound, db.sessions, db.auditLogs)
        case Some(pid) =>
          if SchemaCheck(b, CreateSessionSchema).Thrown? then CreateOutcome(InternalError, db.sessions, db.auditLogs)
          else if !o.subscriptionReadFails && Exhausted(db.subscriptions, pid) then CreateOutcome(LimitReached, db.sessions, db.auditLogs)
          else Insert(db.sessions, db.auditLogs, uid, pid, db.profiles[pid], b, o)
  }

  /** The tables the handler reads or writes, as values. */
  datatype DbView = DbView(
    profiles: map<Id, ProfileRow>,
    subscriptions: map<Id, SubscriptionRow>,
    sessions: map<Id, SessionRow>,
    auditLogs: seq<AuditEntry>)

  /** The handler: the checks in order, then the session insert and the audit append. */
  method Post(db: Db, body: Option<Body>, authHeader: string, o: Oracle) returns (response: CreateResponse)
    modifies db`sessions, db`auditLogs
    ensures var out := Create(old(DbView(db.profiles, db.subscriptions, db.sessions, db.auditLogs)), body, authHeader, o);
      response == out.response && db.sessions == out.sessions && db.auditLogs == out.auditLogs
  {
    if body.None? {
      return InternalError;
    }
    var b := body.value;
    if authHeader == "" || Get(b, "userId") == Str("demo-user") {
      var demoSessionId := "demo-session-" + o.now;
      return DemoSession(demoSessionId, if Truthy(Get(b, "title")) then Get(b, "title") else Str(DEMO_TITLE));
    }

    var token := ReplaceFirst(authHeader, "Bearer ", "");
    var user := o.verify(token);
    if user.None? {
      return InvalidToken;
    }
    if o.profileReadFails {
      return ProfileNotFound;
    }
    var profile := ProfileByAuth(db.profiles, user.value);
    if profile.None? {
      return ProfileNotFound;
    }
    var profileId := profile.value;

    var validated := ValidateSchema(b, CreateSessionSchema);
    if validated.Thrown? {
      return InternalError;
    }
    var data := validated.data;
    SchemaCheckMeaning(b, CreateSessionSchema);

    var subscription: Option<Id> := None;
    if !o.subscriptionReadFails {
      subscription := ActiveSubscription(db.subscriptions, profileId);
    }
    if subscription.Some? && db.subscriptions[subscription.value].minutesUsed >= db.subscriptions[subscription.value].minutesLimit {
      return LimitReached;
    }

    if o.insertFails {
      return SessionFailed;
    }
    var row := NewSession(profileId, db.profiles[profileId], data);
    db.sessions := db.sessions[o.newSessionId := row];

    if !o.auditFails {
      db.auditLogs := db.auditLogs + [AuditEntry(user.value, db.profiles[profileId].companyId, "session", "sessions", "create", o.newSessionId, row.title)];
    }
    return Created(o.newSessionId, row.title, row.status, row.processingStatus);
  }

  /** A demo request writes nothing and never consults the auth provider:
      its answer is the same whatever the provider would say. */
  lemma DemoRequestTouchesNothing(db: DbView, b: Body, authHeader: string, o: Oracle, o2: Oracle)
    requires IsDemoRequest(b, authHeader) && o2.now == o.now
    ensures var out := Create(db, Some(b), authHeader, o);
      && out == CreateOutcome(DemoSession("demo-session-" + o.now, DemoTitle(b)), db.sessions, db.auditLogs)
      && out == Create(db, Some(b), authHeader, o2)
    ensures StartsWith(Create(db, Some(b), authHeader, o).response.id, "demo-session-")
  {
  }

  /** An invalid token is a 401 and a missing or unreadable profile a 404,
      both decided before the body is validated; a body the schema rejects
      then gives 500. */
  lemma CheckOrder(db: DbView, b: Body, authHeader: string, o: Oracle)
    requires !IsDemoRequest(b, authHeader)
    ensures var uid := o.verify(ReplaceFirst(authHeader, "Bearer ", ""));
      var out := Create(db, Some(b), authHeader, o);
      && (uid.None? ==> out.response == InvalidToken)
      && (uid.Some? && (o.profileReadFails || ProfileByAuth(db.profiles, uid.value).None?) ==> out.response == ProfileNotFound)
      && (uid.Some? && !o.profileReadFails && ProfileByAuth(db.profiles, uid.value).Some? && SchemaCheck(b, CreateSessionSchema).Thrown? ==>
            out.response == InternalError)
      && (!out.response.Created? ==> out.sessions == db.sessions && out.auditLogs == db.auditLogs)
  {
  }

  /** A used-up active subscription, read without failure, is refused with
      400 and nothing is inserted. */
  lemma ExhaustedSubscriptionRefused(db: DbView, b: Body, authHeader: string, o: Oracle)
    requires !IsDemoRequest(b, authHeader) && SchemaCheck(b, CreateSessionSchema).Passed?
    requires !o.profileReadFails && !o.subscriptionReadFails
    requires var uid := o.verify(ReplaceFirst(authHeader, "Bearer ", ""));
      uid.Some? && ProfileByAuth(db.profiles, uid.value).Some? && Exhausted(db.subscriptions, ProfileByAuth(db.profiles, uid.value).value)
    ensures Create(db, Some(b), authHeader, o) == CreateOutcome(LimitReached, db.sessions, db.auditLogs)
  {
  }

  /** The subscription read's error is ignored: when it fails, a caller whose
      active subscription is used up still gets a stored session. */
  lemma FailedSubscriptionReadSkipsLimit(db: DbView, b: Body, authHeader: string, o: Oracle)
    requires !IsDemoRequest(b, authHeader) && SchemaCheck(b, CreateSessionSchema).Passed?
    requires !o.profileReadFails && o.subscriptionReadFails && !o.insertFails
    requires var uid := o.verify(ReplaceFirst(authHeader, "Bearer ", ""));
      uid.Some? && ProfileByAuth(db.profiles, uid.value).Some? && Exhausted(db.subscriptions, ProfileByAuth(db.profiles, uid.value).value)
    ensures Create(db, Some(b), authHeader, o).response.Created?
    ensures Create(db, Some(b), authHeader, o).sessions.Keys == db.sessions.Keys + {o.newSessionId}
  {
  }

  /** A created session is "active" and "ready", takes its company from the
      body when one was given and from the profile otherwise, and is logged. */
  lemma CreatedSessionDefaults(db: DbView, b: Body, authHeader: string, o: Oracle)
    requires o.newSessionId !in db.sessions
    requires Create(db, Some(b), authHeader, o).response.Created?
    ensures var out := Create(db, Some(b), authHeader, o);
      var uid := o.verify(ReplaceFirst(authHeader, "Bearer ", "")).value;
      var pid := ProfileByAuth(db.profiles, uid).value;
      var row := out.sessions[o.newSessionId];
      && out.sessions == db.sessions[o.newSessionId := row]
      && row.profileId == pid && row.status == "active" && row.processingStatus == "ready"
      && (Truthy(Get(b, "company_id")) ==> Get(b, "company_id").Str? && IsUuid(Get(b, "company_id").s))
      && row.companyId == (if Truthy(Get(b, "company_id")) then Some(Get(b, "company_id").s) else db.profiles[pid].companyId)
      && row.title == TitleColumn(Get(b, "title"))
      && (row.title.Some? ==> 1 <= |row.title.value| <= 255)
      && (!o.auditFails ==> out.auditLogs == db.auditLogs + [AuditEntry(uid, db.profiles[pid].companyId, "session", "sessions", "create", o.newSessionId, row.title)])
      && (o.auditFails ==> out.auditLogs == db.auditLogs)
  {
    CreateSessionSchemaMeaning(b);
  }

  /** The demo quota is not enforced here: a demo user whose quota is used
      up still gets a stored session when nothing else stands in the way. */
  lemma DemoQuotaNotEnforced(db: DbView, b: Body, authHeader: string, o: Oracle)
    requires !IsDemoRequest(b, authHeader) && SchemaCheck(b, CreateSessionSchema).Passed?
    requires var uid := o.verify(ReplaceFirst(authHeader, "Bearer ", ""));
      uid.Some? && ProfileByAuth(db.profiles, uid.value).Some? &&
      !Exhausted(db.subscriptions, ProfileByAuth(db.profiles, uid.value).value)
    requires !o.profileReadFails && !o.insertFails
    ensures Create(db, Some(b), authHeader, o).response.Created?
  {
  }

  /** The exhausted demo profile of that lemma exists: one used session is
      enough to fail the quota. */
  lemma ExhaustedDemoProfileExample(p: ProfileRow)
    requires p.role == DEMO_USER && p.demoSessionsUsed == Some(1)
    ensures !CanStartDemoSession(p)
  {
  }

  /** New sessions carry no conversation id, so creating one keeps
      conversation ids unique. */
  lemma CreatePreservesUniqueConversations(db: DbView, body: Option<Body>, authHeader: string, o: Oracle)
    requires UniqueConversations(db.sessions) && o.newSessionId !in db.sessions
    ensures UniqueConversations(Create(db, body, authHeader, o).sessions)
  {
    var out := Create(db, body, authHeader, o);
    if out.sessions != db.sessions {
      var row := out.sessions[o.newSessionId];
      assert out.sessions == db.sessions[o.newSessionId := row] && row.conversationId.None?;
      forall c ensures SessionsWithConversation(out.sessions, c) == SessionsWithConversation(db.sessions, c) {
      }
    }
  }
}
