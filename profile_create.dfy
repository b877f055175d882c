/** POST /api/profile/create: provision a profile for an authenticated user.
    The checks run in a fixed order (required fields, identity, role,
    cross-account, duplicate), then the company is found by its trimmed name
    or created, and the profile row is inserted with demo counters at 0. */
module ProfileCreate {
  import opened Common
  import opened Database
  import opened SupabaseBackend

  /** The request body; "" stands for a falsy text field. */
  datatype CreateRequest = CreateRequest(
    authId: string,
    email: string,
    firstName: string,
    lastName: string,
    companyName: string,
    role: string,
    position: string,
    phone: string,
    teamSize: Option<int>)

  datatype AuthMethod = Cookie | Bearer

  /** The user the request is acting as and how it was identified. */
  datatype Identity = Identity(userId: string, via: AuthMethod)

  datatype CreateResponse =
    | MissingFields                        // 400
    | Unauthenticated                      // 401
    | RoleForbidden                        // 403 'Insufficient permissions to assign non-demo roles'
    | OtherUserForbidden                   // 403 'Cannot create profile for another user'
    | AlreadyExists                        // 409
    | CompanyFailed                        // 500 'Failed to create company record'
    | ProfileFailed(details: string)       // 500 'Failed to create user profile'
    | Created(profileId: Id, profile: ProfileRow)  // 200
    | InternalError                        // 500, the body was not JSON

  /** The HTTP status of each response: 200 only for a created profile and
      409 only for a duplicate. */
  function StatusCode(r: CreateResponse): (c: int)
    ensures c == 200 <==> r.Created?
    ensures c == 409 <==> r.AlreadyExists?
    ensures 200 <= c <= 299 ==> r.Created?
  {
    match r
    case MissingFields => 400
    case Unauthenticated => 401
    case RoleForbidden => 403
    case OtherUserForbidden => 403
    case AlreadyExists => 409
    case CompanyFailed => 500
    case ProfileFailed(_) => 500
    case Created(_, _) => 200
    case InternalError => 500
  }

  /** The answers of the services the handler calls: the auth provider's user
      for a bearer token; whether the requester-profile read, the
      existing-profile read or the company-by-name read fails (the handler
      ignores all three errors, so a failed read reads as "no row"); the ids
      the database gives new rows; whether the company insert fails; and the
      error (if any) of the profile insert, which runs under the caller's
      row-level security unless the caller is an admin. */
  datatype Oracle = Oracle(
    bearerVerify: string -> Option<string>,
    requesterReadFails: bool,
    existingReadFails: bool,
    companyReadFails: bool,
    newCompanyId: Id,
    newProfileId: Id,
    companyInsertFails: bool,
    profileInsertError: Option<string>)

  predicate HasRequiredFields(b: CreateRequest)
  {
    b.authId != "" && b.email != "" && b.firstName != "" && b.companyName != ""
  }

  /** The cookie session's user is taken when there is one; only otherwise is
      an Authorization header starting with "Bearer " consulted, its token
      being everything after those seven characters. */
  function ResolveUser(cookieUser: Option<string>, authHeader: string, bearerVerify: string -> Option<string>): (r: Option<Identity>)
    ensures cookieUser.Some? ==> r == Some(Identity(cookieUser.value, Cookie))
    ensures cookieUser.None? && !StartsWith(authHeader, "Bearer ") ==> r.None?
    ensures cookieUser.None? && StartsWith(authHeader, "Bearer ") ==>
      (r.Some? <==> bearerVerify(authHeader[7..]).Some?) &&
      (r.Some? ==> r.value == Identity(bearerVerify(authHeader[7..]).value, Bearer))
  {
    if cookieUser.Some? then Some(Identity(cookieUser.value, Cookie))
    else if authHeader != "" && StartsWith(authHeader, "Bearer ") then
      match bearerVerify(authHeader[7..])
      case None => None
      case Some(uid) => Some(Identity(uid, Bearer))
    else None
  }

  /** The role column of the requester's own profile, when `.single()` finds one. */
  function RequesterRole(profiles: map<Id, ProfileRow>, userId: string): (r: Option<string>)
    ensures r.Some? <==> ProfileByAuth(profiles, userId).Some?
    ensures r.Some? ==> r.value == profiles[ProfileByAuth(profiles, userId).value].role
  {
    match ProfileByAuth(profiles, userId)
    case None => None
    case Some(id) => Some(profiles[id].role)
  }

  predicate IsAdminRole(role: Option<string>)
  {
    role == Some(ADMIN) || role == Some(SUPER_ADMIN)
  }

  /** The role requested in the body, `demo_user` when absent. */
  function RequestedRole(b: CreateRequest): (r: string)
    ensures r != ""
    ensures b.role != "" ==> r == b.role
  {
    OrElse(b.role, DEMO_USER)
  }

  /** The role stored: the requested one for an admin requester, `demo_user`
      for everyone else. */
  function FinalRole(requested: string, isAdmin: bool): (r: string)
    ensures !isAdmin ==> r == DEMO_USER
    ensures isAdmin ==> r == requested
  {
    if isAdmin then requested else DEMO_USER
  }

  /** The part of `s` before its first line terminator. */
  function LineRun(s: string): (r: string)
    ensures |r| <= |s| && r == s[..|r|]
    ensures forall i :: 0 <= i < |r| ==> !IsLineTerminator(r[i])
    ensures |r| < |s| ==> IsLineTerminator(s[|r|])
  {
    if s == "" || IsLineTerminator(s[0]) then ""
    else [s[0]] + LineRun(s[1..])
  }

  /** `/@(.+)/` can match starting at position `i`: an '@' followed by at
      least one character that is not a line terminator. */
  predicate DomainMatchAt(s: string, i: int)
  {
    0 <= i && i + 1 < |s| && s[i] == '@' && !IsLineTerminator(s[i + 1])
  }

  /** The leftmost position at or after `from` where the pattern matches. */
  function FirstDomainMatch(s: string, from: nat): (r: Option<nat>)
    ensures r.Some? ==> from <= r.value && DomainMatchAt(s, r.value)
    ensures r.Some? ==> forall j :: from <= j < r.value ==> !DomainMatchAt(s, j)
    ensures r.None? ==> forall j :: from <= j ==> !DomainMatchAt(s, j)
    decreases |s| - from
  {
    if from + 1 >= |s| then None
    else if DomainMatchAt(s, from) then Some(from)
    else FirstDomainMatch(s, from + 1)
  }

  /** `extractDomainFromEmail`: the capture of the leftmost match of `/@(.+)/`
      (the greedy run up to the next line terminator), lowercased; null when
      the pattern matches nowhere. */
  function ExtractDomainFromEmail(email: string): (r: Option<string>)
    ensures r.None? <==> forall j :: !DomainMatchAt(email, j)
    ensures r.Some? ==> r.value != "" && forall i :: 0 <= i < |r.value| ==> !IsLineTerminator(r.value[i])
  {
    match FirstDomainMatch(email, 0)
    case None => None
    case Some(k) =>
      var d := LineRun(email[k + 1..]);
      assert d[0] == email[k + 1];
      Some(ToLower(d))
  }

  /** For a one-line email, the domain is everything after the first '@',
      lowercased, provided something follows it. */
  lemma DomainOfOneLineEmail(email: string, k: nat)
    requires forall i :: 0 <= i < |email| ==> !IsLineTerminator(email[i])
    requires k + 1 < |email| && email[k] == '@' && '@' !in email[..k]
    ensures ExtractDomainFromEmail(email) == Some(ToLower(email[k + 1..]))
  {
    forall j | 0 <= j < k ensures !DomainMatchAt(email, j) {
      assert email[j] == email[..k][j];
    }
    assert DomainMatchAt(email, k);
    assert FirstDomainMatch(email, 0) == Some(k);
    var rest := email[k + 1..];
    assert forall i :: 0 <= i < |rest| ==> !IsLineTerminator(rest[i]);
    assert LineRun(rest) == rest;
  }

  /** An email without '@', or with nothing after its only '@', has no domain. */
  lemma NoDomainWithoutAt(email: string)
    requires email == "" || '@' !in email[..|email| - 1]
    ensures ExtractDomainFromEmail(email).None?
  {
    forall j ensures !DomainMatchAt(email, j) {
      if 0 <= j && j + 1 < |email| {
        assert email[j] == email[..|email| - 1][j];
      }
    }
  }

  /** `s?.trim() || null` */
  function TrimmedOrNull(s: string): (r: Option<string>)
    ensures r.None? <==> Trim(s) == ""
    ensures r.Some? ==> r.value == Trim(s)
  {
    var t := Trim(s);
    if t == "" then None else Some(t)
  }

  /** `n || null` for a number: 0 and absence become null. */
  function NonZeroOrNull(n: Option<int>): (r: Option<int>)
    ensures r.Some? <==> n.Some? && n.value != 0
    ensures r.Some? ==> r == n
  {
    if n.Some? && n.value != 0 then n else None
  }

  /** The profile row the handler inserts. */
  function NewProfileRow(b: CreateRequest, companyId: Id, role: string): (p: ProfileRow)
    ensures p.authId == b.authId && p.companyId == Some(companyId) && p.role == role
    ensures p.email == Trim(ToLower(b.email)) && p.firstName == Trim(b.firstName) && p.lastName == Trim(b.lastName)
    ensures p.position == TrimmedOrNull(b.position) && p.phone == TrimmedOrNull(b.phone)
    ensures p.teamSize == NonZeroOrNull(b.teamSize)
    ensures p.demoSessionsUsed == Some(0) && p.demoMinutesUsed == Some(0.0)
    ensures p.settings == ProfileSettings(true, true, false)
  {
    ProfileRow(
      b.authId, Some(companyId), Trim(ToLower(b.email)), Trim(b.firstName), Trim(b.lastName),
      TrimmedOrNull(b.position), TrimmedOrNull(b.phone), NonZeroOrNull(b.teamSize), role,
      Some(0), Some(0.0), ProfileSettings(true, true, false))
  }

  datatype CreateOutcome = CreateOutcome(response: CreateResponse, profiles: map<Id, ProfileRow>, companies: map<Id, CompanyRow>)

  /** What the checks before any write decide: a rejection, or whether the
      requester is an admin and which role the new profile gets. */
  datatype Decision = Reject(response: CreateResponse) | Proceed(isAdmin: bool, finalRole: string)

  /** Whether the requester counts as an admin: its own profile, read with
      an ignored error, has role admin or super_admin. */
  predicate RequesterIsAdmin(profiles: map<Id, ProfileRow>, userId: string, o: Oracle)
  {
    !o.requesterReadFails && IsAdminRole(RequesterRole(profiles, userId))
  }

  /** The duplicate check sees a profile for `authId`: the read succeeded and found one. */
  predicate SeesExistingProfile(profiles: map<Id, ProfileRow>, authId: string, o: Oracle)
  {
    !o.existingReadFails && ProfileByAuth(profiles, authId).Some?
  }

  /** Required fields, identity, role, cross-account and duplicate checks, in
      the handler's order. */
  function Authorize(profiles: map<Id, ProfileRow>, b: CreateRequest, cookieUser: Option<string>,
                     authHeader: string, o: Oracle): (d: Decision)
    ensures !HasRequiredFields(b) ==> d == Reject(MissingFields)
    ensures HasRequiredFields(b) && ResolveUser(cookieUser, authHeader, o.bearerVerify).None? ==> d == Reject(Unauthenticated)
    ensures d.Proceed? ==>
      && HasRequiredFields(b)
      && ResolveUser(cookieUser, authHeader, o.bearerVerify).Some?
      && !SeesExistingProfile(profiles, b.authId, o)
      && var uid := ResolveUser(cookieUser, authHeader, o.bearerVerify).value.userId;
         && d.isAdmin == RequesterIsAdmin(profiles, uid, o)
         && d.finalRole == FinalRole(RequestedRole(b), d.isAdmin)
         && (!d.isAdmin ==> uid == b.authId && RequestedRole(b) == DEMO_USER)
  {
    if !HasRequiredFields(b) then Reject(MissingFields)
    else match ResolveUser(cookieUser, authHeader, o.bearerVerify)
    case None => Reject(Unauthenticated)
    case Some(user) =>
      var isAdmin := RequesterIsAdmin(profiles, user.userId, o);
      var requested := RequestedRole(b);
      if requested != DEMO_USER && !isAdmin then Reject(RoleForbidden)
      else if !isAdmin && user.userId != b.authId then Reject(OtherUserForbidden)
      else if SeesExistingProfile(profiles, b.authId, o) then Reject(AlreadyExists)
      else Proceed(isAdmin, FinalRole(requested, isAdmin))
  }

  datatype CompanyStep = CompanyStep(companyId: Option<Id>, companies: map<Id, CompanyRow>)

  /** The company a profile is attached to: the one named `name` when
      `.single()` finds it (a failed read finding none), else a new one with
      the email's domain; no id when that insert fails. */
  function CompanyFor(companies: map<Id, CompanyRow>, name: string, email: string, newId: Id,
                      readFails: bool, insertFails: bool): (r: CompanyStep)
    ensures !readFails && CompanyByName(companies, name).Some? ==> r == CompanyStep(CompanyByName(companies, name), companies)
    ensures (readFails || CompanyByName(companies, name).None?) && insertFails ==> r == CompanyStep(None, companies)
    ensures (readFails || CompanyByName(companies, name).None?) && !insertFails ==>
      r == CompanyStep(Some(newId), companies[newId := CompanyRow(name, ExtractDomainFromEmail(email))])
    ensures r.companyId.Some? ==> r.companyId.value in r.companies && r.companies[r.companyId.value].name == name
  {
    var existing := if readFails then None else CompanyByName(companies, name);
    if existing.Some? then CompanyStep(existing, companies)
    else if insertFails then CompanyStep(None, companies)
    else CompanyStep(Some(newId), companies[newId := CompanyRow(name, ExtractDomainFromEmail(email))])
  }

  /** The writes after the checks: the company, then the profile. A
      created profile points at a company row that exists afterwards. */
  function Provision(profiles: map<Id, ProfileRow>, companies: map<Id, CompanyRow>, b: CreateRequest,
                     finalRole: string, o: Oracle): (out: CreateOutcome)
    ensures out.response.Created? ==>
      out.response.profile.companyId.Some? && out.response.profile.companyId.value in out.companies
  {
    var step := CompanyFor(companies, Trim(b.companyName), b.email, o.newCompanyId, o.companyReadFails, o.companyInsertFails);
    if step.companyId.None? then CreateOutcome(CompanyFailed, profiles, companies)
    else
      var row := NewProfileRow(b, step.companyId.value, finalRole);
      match o.profileInsertError
      case Some(msg) => CreateOutcome(ProfileFailed(msg), profiles, step.companies)
      case None => CreateOutcome(Created(o.newProfileId, row), profiles[o.newProfileId := row], step.companies)
  }

  /** The handler as a function of the tables it reads and the answers it gets. */
  function Create(profiles: map<Id, ProfileRow>, companies: map<Id, CompanyRow>, body: Option<CreateRequest>,
                  cookieUser: Option<string>, authHeader: string, o: Oracle): CreateOutcome
  {
    if body.None? then CreateOutcome(InternalError, profiles, companies)
    else match Authorize(profiles, body.value, cookieUser, authHeader, o)
    case Reject(r) => CreateOutcome(r, profiles, companies)
    case Proceed(_, role) => Provision(profiles, companies, body.value, role, o)
  }

  /** Create on a parsed body is the checks followed, when they pass, by the writes. */
  lemma CreateSteps(profiles: map<Id, ProfileRow>, companies: map<Id, CompanyRow>, b: CreateRequest,
                    cookieUser: Option<string>, authHeader: string, o: Oracle)
    ensures var d := Authorize(profiles, b, cookieUser, authHeader, o);
      Create(profiles, companies, Some(b), cookieUser, authHeader, o) ==
        if d.Reject? then CreateOutcome(d.response, profiles, companies)
        else Provision(profiles, companies, b, d.finalRole, o)
  {
    var d := Authorize(profiles, b, cookieUser, authHeader, o);
    if d.Reject? {
      assert Create(profiles, companies, Some(b), cookieUser, authHeader, o) == CreateOutcome(d.response, profiles, companies);
    } else {
      assert Create(profiles, companies, Some(b), cookieUser, authHeader, o) == Provision(profiles, companies, b, d.finalRole, o);
    }
  }

  /** Cookie first, then the bearer header: `user` and `authMethod` are set
      by whichever succeeds first. */
  method Authenticate(cookieUser: Option<string>, authHeader: string, bearerVerify: string -> Option<string>)
    returns (user: Option<Identity>)
    ensures user == ResolveUser(cookieUser, authHeader, bearerVerify)
  {
    user := None;
    if cookieUser.Some? {
      user := Some(Identity(cookieUser.value, Cookie));
    }
    if user.None? {
      if authHeader != "" && StartsWith(authHeader, "Bearer ") {
        var token := authHeader[7..];
        var bearerUser := bearerVerify(token);
        if bearerUser.Some? {
          user := Some(Identity(bearerUser.value, Bearer));
        }
      }
    }
  }

  /** Look the company up by name and insert it when missing. */
  method FindOrCreateCompany(db: Db, name: string, email: string, newId: Id, readFails: bool, insertFails: bool)
    returns (companyId: Option<Id>)
    modifies db`companies
    ensures var step := CompanyFor(old(db.companies), name, email, newId, readFails, insertFails);
      companyId == step.companyId && db.companies == step.companies
  {
    if !readFails {
      var existingCompany := CompanyByName(db.companies, name);
      if existingCompany.Some? {
        return existingCompany;
      }
    }
    if insertFails {
      return None;
    }
    db.companies := db.companies[newId := CompanyRow(name, ExtractDomainFromEmail(email))];
    return Some(newId);
  }

  /** The checks, in the handler's order, up to the duplicate lookup. */
  method Check(db: Db, b: CreateRequest, cookieUser: Option<string>, authHeader: string, o: Oracle)
    returns (d: Decision)
    ensures d == Authorize(db.profiles, b, cookieUser, authHeader, o)
  {
    if b.authId == "" || b.email == "" || b.firstName == "" || b.companyName == "" {
      return Reject(MissingFields);
    }

    var user := Authenticate(cookieUser, authHeader, o.bearerVerify);
    if user.None? {
      return Reject(Unauthenticated);
    }
    var userId := user.value.userId;

    var requesterRole: Option<string> := None;
    if !o.requesterReadFails {
      requesterRole := RequesterRole(db.profiles, userId);
    }
    var requestedRole := OrElse(b.role, DEMO_USER);
    var isPrivilegedRoleRequest := requestedRole != DEMO_USER;
    var isRequesterAdmin := requesterRole == Some(ADMIN) || requesterRole == Some(SUPER_ADMIN);
    if isPrivilegedRoleRequest && !isRequesterAdmin {
      return Reject(RoleForbidden);
    }
    var finalRole := if isRequesterAdmin then requestedRole else DEMO_USER;
    if !isRequesterAdmin && userId != b.authId {
      return Reject(OtherUserForbidden);
    }

    var existingProfile: Option<Id> := None;
    if !o.existingReadFails {
      existingProfile := ProfileByAuth(db.profiles, b.authId);
    }
    if existingProfile.Some? {
      return Reject(AlreadyExists);
    }
    return Proceed(isRequesterAdmin, finalRole);
  }

  /** The handler: the checks, then the company and profile inserts. */
  method Post(db: Db, body: Option<CreateRequest>, cookieUser: Option<string>, authHeader: string, o: Oracle)
    returns (response: CreateResponse)
    modifies db`profiles, db`companies
    ensures var out := Create(old(db.profiles), old(db.companies), body, cookieUser, authHeader, o);
      response == out.response && db.profiles == out.profiles && db.companies == out.companies
  {
    if body.None? {
      return InternalError;
    }
    var b := body.value;
    CreateSteps(db.profiles, db.companies, b, cookieUser, authHeader, o);
    var decision := Check(db, b, cookieUser, authHeader, o);
    if decision.Reject? {
      return decision.response;
    }
    var finalRole := decision.finalRole;

    ghost var profiles0, companies0 := db.profiles, db.companies;
    var companyId := FindOrCreateCompany(db, Trim(b.companyName), b.email, o.newCompanyId, o.companyReadFails, o.companyInsertFails);
    if companyId.None? {
      assert Provision(profiles0, companies0, b, finalRole, o) == CreateOutcome(CompanyFailed, profiles0, companies0);
      return CompanyFailed;
    }

    var row := NewProfileRow(b, companyId.value, finalRole);
    if o.profileInsertError.Some? {
      assert Provision(profiles0, companies0, b, finalRole, o) ==
        CreateOutcome(ProfileFailed(o.profileInsertError.value), profiles0, db.companies);
      return ProfileFailed(o.profileInsertError.value);
    }
    db.profiles := db.profiles[o.newProfileId := row];
    assert Provision(profiles0, companies0, b, finalRole, o) ==
      CreateOutcome(Created(o.newProfileId, row), db.profiles, db.companies);
    return Created(o.newProfileId, row);
  }

  /** A falsy auth_id, email, first_name or company_name is a 400 that
      touches nothing, whatever the cookie, the header and the services say. */
  lemma MissingFieldsBeforeAuth(profiles: map<Id, ProfileRow>, companies: map<Id, CompanyRow>, b: CreateRequest,
                                cookieUser: Option<string>, authHeader: string, o: Oracle)
    requires !HasRequiredFields(b)
    ensures Create(profiles, companies, Some(b), cookieUser, authHeader, o) == CreateOutcome(MissingFields, profiles, companies)
  {
    CreateSteps(profiles, companies, b, cookieUser, authHeader, o);
  }

  /** Without a cookie user and without a verifiable bearer token the answer
      is 401 and nothing is written. */
  lemma NoIdentityUnauthenticated(profiles: map<Id, ProfileRow>, companies: map<Id, CompanyRow>, b: CreateRequest,
                                  authHeader: string, o: Oracle)
    requires HasRequiredFields(b)
    requires !StartsWith(authHeader, "Bearer ") || o.bearerVerify(authHeader[7..]).None?
    ensures Create(profiles, companies, Some(b), None, authHeader, o) == CreateOutcome(Unauthenticated, profiles, companies)
  {
    CreateSteps(profiles, companies, b, None, authHeader, o);
  }

  /** A non-admin requester (or one whose own profile could not be read)
      asking for any role other than demo_user gets 403 and nothing is written. */
  lemma NonAdminPrivilegedRequestForbidden(profiles: map<Id, ProfileRow>, companies: map<Id, CompanyRow>, b: CreateRequest,
                                           cookieUser: Option<string>, authHeader: string, o: Oracle)
    requires HasRequiredFields(b) && b.role != "" && b.role != DEMO_USER
    requires ResolveUser(cookieUser, authHeader, o.bearerVerify).Some?
    requires !RequesterIsAdmin(profiles, ResolveUser(cookieUser, authHeader, o.bearerVerify).value.userId, o)
    ensures Create(profiles, companies, Some(b), cookieUser, authHeader, o) == CreateOutcome(RoleForbidden, profiles, companies)
  {
    CreateSteps(profiles, companies, b, cookieUser, authHeader, o);
  }

  /** A non-admin may create only their own profile. */
  lemma CrossAccountForbidden(profiles: map<Id, ProfileRow>, companies: map<Id, CompanyRow>, b: CreateRequest,
                              cookieUser: Option<string>, authHeader: string, o: Oracle)
    requires HasRequiredFields(b) && (b.role == "" || b.role == DEMO_USER)
    requires ResolveUser(cookieUser, authHeader, o.bearerVerify).Some?
    requires var uid := ResolveUser(cookieUser, authHeader, o.bearerVerify).value.userId;
      !RequesterIsAdmin(profiles, uid, o) && uid != b.authId
    ensures Create(profiles, companies, Some(b), cookieUser, authHeader, o) == CreateOutcome(OtherUserForbidden, profiles, companies)
  {
    CreateSteps(profiles, companies, b, cookieUser, authHeader, o);
  }

  /** An existing profile for auth_id, seen by the duplicate read, means
      nothing is inserted: the answer is 409 unless an earlier check already
      refused the request. */
  lemma ExistingProfileConflicts(profiles: map<Id, ProfileRow>, companies: map<Id, CompanyRow>, b: CreateRequest,
                                 cookieUser: Option<string>, authHeader: string, o: Oracle)
    requires ProfileByAuth(profiles, b.authId).Some? && !o.existingReadFails
    ensures var out := Create(profiles, companies, Some(b), cookieUser, authHeader, o);
      && out.profiles == profiles && out.companies == companies
      && out.response in {MissingFields, Unauthenticated, RoleForbidden, OtherUserForbidden, AlreadyExists}
  {
    CreateSteps(profiles, companies, b, cookieUser, authHeader, o);
  }

  /** What the writes do: at most one profile row, carrying the body's
      auth id, and at most one company row, only when the name read found
      none or failed. */
  lemma ProvisionWrites(profiles: map<Id, ProfileRow>, companies: map<Id, CompanyRow>, b: CreateRequest,
                        role: string, o: Oracle)
    ensures var out := Provision(profiles, companies, b, role, o);
      && (out.response.Created? ==>
            out.response.profileId == o.newProfileId && out.profiles == profiles[o.newProfileId := out.response.profile])
      && (out.response.Created? ==> out.response.profile == NewProfileRow(b, out.response.profile.companyId.value, role))
      && (!out.response.Created? ==> out.profiles == profiles)
      && (out.companies != companies ==>
            (o.companyReadFails || CompanyByName(companies, Trim(b.companyName)).None?) &&
            out.companies == companies[o.newCompanyId := CompanyRow(Trim(b.companyName), ExtractDomainFromEmail(b.email))])
  {
    var step := CompanyFor(companies, Trim(b.companyName), b.email, o.newCompanyId, o.companyReadFails, o.companyInsertFails);
    var out := Provision(profiles, companies, b, role, o);
    if step.companyId.None? {
      assert out == CreateOutcome(CompanyFailed, profiles, companies);
    } else if o.profileInsertError.Some? {
      assert out.profiles == profiles && out.companies == step.companies;
    } else {
      var row := NewProfileRow(b, step.companyId.value, role);
      assert out == CreateOutcome(Created(o.newProfileId, row), profiles[o.newProfileId := row], step.companies);
    }
  }

  /** Every stored profile passed the checks: it is the caller's own unless
      the caller is an admin, it is a demo_user unless the caller is an
      admin, no profile had its auth id before (unless the duplicate read
      failed), and its demo counters start at 0. */
  lemma CreatedProfileRole(profiles: map<Id, ProfileRow>, companies: map<Id, CompanyRow>, b: CreateRequest,
                           cookieUser: Option<string>, authHeader: string, o: Oracle)
    requires Create(profiles, companies, Some(b), cookieUser, authHeader, o).response.Created?
    ensures ResolveUser(cookieUser, authHeader, o.bearerVerify).Some?
    ensures !o.existingReadFails ==> ProfileByAuth(profiles, b.authId).None?
    ensures var out := Create(profiles, companies, Some(b), cookieUser, authHeader, o);
      var uid := ResolveUser(cookieUser, authHeader, o.bearerVerify).value.userId;
      var admin := RequesterIsAdmin(profiles, uid, o);
      var p := out.response.profile;
      && p.role == (if admin then RequestedRole(b) else DEMO_USER)
      && (!admin ==> uid == b.authId)
      && p.authId == b.authId
      && p.demoSessionsUsed == Some(0) && p.demoMinutesUsed == Some(0.0)
      && out.profiles == profiles[out.response.profileId := p]
  {
    var d := CreatedPassedChecks(profiles, companies, b, cookieUser, authHeader, o);
    ProvisionWrites(profiles, companies, b, d.finalRole, o);
    var out := Provision(profiles, companies, b, d.finalRole, o);
    assert out.response.profile == NewProfileRow(b, out.response.profile.companyId.value, d.finalRole);
  }

  /** A created profile got through every check: the decision was to
      proceed, and the outcome is that of the writes. */
  lemma CreatedPassedChecks(profiles: map<Id, ProfileRow>, companies: map<Id, CompanyRow>, b: CreateRequest,
                            cookieUser: Option<string>, authHeader: string, o: Oracle) returns (d: Decision)
    requires Create(profiles, companies, Some(b), cookieUser, authHeader, o).response.Created?
    ensures d == Authorize(profiles, b, cookieUser, authHeader, o) && d.Proceed?
    ensures Create(profiles, companies, Some(b), cookieUser, authHeader, o) == Provision(profiles, companies, b, d.finalRole, o)
  {
    CreateSteps(profiles, companies, b, cookieUser, authHeader, o);
    d := Authorize(profiles, b, cookieUser, authHeader, o);
  }

  /** A profile created for a non-admin may start its one demo session. */
  lemma CreatedDemoProfileCanStart(profiles: map<Id, ProfileRow>, companies: map<Id, CompanyRow>, b: CreateRequest,
                                   cookieUser: Option<string>, authHeader: string, o: Oracle)
    requires Create(profiles, companies, Some(b), cookieUser, authHeader, o).response.Created?
    ensures var p := Create(profiles, companies, Some(b), cookieUser, authHeader, o).response.profile;
      CanStartDemoSession(p) && (p.role == DEMO_USER ==> !CanStartDemoSession(p.(demoSessionsUsed := Some(1))))
  {
    CreatedProfileRole(profiles, companies, b, cookieUser, authHeader, o);
    var p := Create(profiles, companies, Some(b), cookieUser, authHeader, o).response.profile;
    if p.role == DEMO_USER {
      FreshDemoProfileCanStart(p);
    }
  }

  /** A company whose name equals the trimmed company_name, found by the
      name read, is reused: no company is inserted and the new profile points
      at it. */
  lemma ExistingCompanyReused(profiles: map<Id, ProfileRow>, companies: map<Id, CompanyRow>, b: CreateRequest,
                              cookieUser: Option<string>, authHeader: string, o: Oracle, cid: Id)
    requires CompanyByName(companies, Trim(b.companyName)) == Some(cid) && !o.companyReadFails
    ensures var out := Create(profiles, companies, Some(b), cookieUser, authHeader, o);
      && out.companies == companies
      && (out.response.Created? ==> out.response.profile.companyId == Some(cid))
  {
    CreateSteps(profiles, companies, b, cookieUser, authHeader, o);
  }

  /** The company step when the name read found no company: the new row
      under the new id, or nothing when the insert fails. */
  lemma NewCompanyStep(companies: map<Id, CompanyRow>, name: string, email: string, newId: Id,
                       readFails: bool, insertFails: bool)
    requires readFails || CompanyByName(companies, name).None?
    ensures var step := CompanyFor(companies, name, email, newId, readFails, insertFails);
      if insertFails then step == CompanyStep(None, companies)
      else step == CompanyStep(Some(newId), companies[newId := CompanyRow(name, ExtractDomainFromEmail(email))])
  {
  }

  /** The writes when the name read found no company: the new company is
      kept once inserted, and a created profile points at it. */
  lemma NewCompanyProvisioned(profiles: map<Id, ProfileRow>, companies: map<Id, CompanyRow>, b: CreateRequest,
                              role: string, o: Oracle)
    requires o.companyReadFails || CompanyByName(companies, Trim(b.companyName)).None?
    ensures var out := Provision(profiles, companies, b, role, o);
      var added := companies[o.newCompanyId := CompanyRow(Trim(b.companyName), ExtractDomainFromEmail(b.email))];
      && (out.companies == companies || out.companies == added)
      && (out.response.Created? || out.response.ProfileFailed? ==> out.companies == added)
      && (out.response.Created? ==> out.response.profile.companyId == Some(o.newCompanyId))
  {
    NewCompanyStep(companies, Trim(b.companyName), b.email, o.newCompanyId, o.companyReadFails, o.companyInsertFails);
  }

  /** Otherwise (no such company, or the name read failed) the company is
      created with the trimmed name and the email's domain, and stays created
      even when the profile insert then fails. */
  lemma NewCompanyCreated(profiles: map<Id, ProfileRow>, companies: map<Id, CompanyRow>, b: CreateRequest,
                          cookieUser: Option<string>, authHeader: string, o: Oracle)
    requires o.companyReadFails || CompanyByName(companies, Trim(b.companyName)).None?
    ensures var out := Create(profiles, companies, Some(b), cookieUser, authHeader, o);
      var added := companies[o.newCompanyId := CompanyRow(Trim(b.companyName), ExtractDomainFromEmail(b.email))];
      && (out.companies == companies || out.companies == added)
      && (out.response.Created? || out.response.ProfileFailed? ==> out.companies == added)
      && (out.response.Created? ==> out.response.profile.companyId == Some(o.newCompanyId))
  {
    CreateSteps(profiles, companies, b, cookieUser, authHeader, o);
    var d := Authorize(profiles, b, cookieUser, authHeader, o);
    if d.Proceed? {
      NewCompanyProvisioned(profiles, companies, b, d.finalRole, o);
    }
  }

  lemma InsertAuthSets(profiles: map<Id, ProfileRow>, id: Id, row: ProfileRow, a: string)
    requires id !in profiles
    ensures ProfilesWithAuth(profiles[id := row], a) ==
      ProfilesWithAuth(profiles, a) + (if row.authId == a then {id} else {})
  {
  }

  lemma InsertCompanySets(companies: map<Id, CompanyRow>, id: Id, row: CompanyRow, n: string)
    requires id !in companies
    ensures CompaniesNamed(companies[id := row], n) ==
      CompaniesNamed(companies, n) + (if row.name == n then {id} else {})
  {
  }

  /** Provisioning keeps at most one profile per auth id when the duplicate
      read does not fail, and at most one company per name when the name
      read does not fail, given fresh ids for the new rows. */
  lemma {:induction false} CreatePreservesUniqueness(
    profiles: map<Id, ProfileRow>, companies: map<Id, CompanyRow>, body: Option<CreateRequest>,
    cookieUser: Option<string>, authHeader: string, o: Oracle)
    requires UniqueAuthIds(profiles) && UniqueCompanyNames(companies)
    requires o.newProfileId !in profiles && o.newCompanyId !in companies
    ensures var out := Create(profiles, companies, body, cookieUser, authHeader, o);
      && (!o.existingReadFails ==> UniqueAuthIds(out.profiles))
      && (!o.companyReadFails ==> UniqueCompanyNames(out.companies))
  {
    var out := Create(profiles, companies, body, cookieUser, authHeader, o);
    if body.Some? && Authorize(profiles, body.value, cookieUser, authHeader, o).Proceed? {
      var b := body.value;
      var d := Authorize(profiles, b, cookieUser, authHeader, o);
      CreateSteps(profiles, companies, b, cookieUser, authHeader, o);
      ProvisionWrites(profiles, companies, b, d.finalRole, o);
      if out.response.Created? && !o.existingReadFails {
        var row := out.response.profile;
        SingleOfAtMostOne(ProfilesWithAuth(profiles, b.authId));
        forall a ensures |ProfilesWithAuth(out.profiles, a)| <= 1 {
          InsertAuthSets(profiles, o.newProfileId, row, a);
        }
      }
      if out.companies != companies && !o.companyReadFails {
        var name := Trim(b.companyName);
        var row := CompanyRow(name, ExtractDomainFromEmail(b.email));
        SingleOfAtMostOne(CompaniesNamed(companies, name));
        forall n ensures |CompaniesNamed(out.companies, n)| <= 1 {
          InsertCompanySets(companies, o.newCompanyId, row, n);
        }
      }
    } else if body.Some? {
      CreateSteps(profiles, companies, body.value, cookieUser, authHeader, o);
    }
  }

  /** Once the checks have passed and the profile row for auth_id is in the
      table, the same request is refused with 409, provided the duplicate
      read succeeds both times and the requester read behaves as the first
      time. */
  lemma {:induction false} AuthorizeAfterOwnInsert(
    profiles: map<Id, ProfileRow>, b: CreateRequest, cookieUser: Option<string>, authHeader: string,
    o: Oracle, o2: Oracle, id: Id, row: ProfileRow)
    requires UniqueAuthIds(profiles) && id !in profiles && row.authId == b.authId
    requires Authorize(profiles, b, cookieUser, authHeader, o).Proceed? && !o.existingReadFails
    requires o2.bearerVerify == o.bearerVerify && o2.requesterReadFails == o.requesterReadFails && !o2.existingReadFails
    ensures Authorize(profiles[id := row], b, cookieUser, authHeader, o2) == Reject(AlreadyExists)
  {
    var uid := ResolveUser(cookieUser, authHeader, o.bearerVerify).value.userId;
    var after := profiles[id := row];
    SingleOfAtMostOne(ProfilesWithAuth(profiles, b.authId));
    InsertAuthSets(profiles, id, row, b.authId);
    assert ProfilesWithAuth(after, b.authId) == {id};
    assert ProfileByAuth(after, b.authId).Some?;
    if RequesterIsAdmin(profiles, uid, o) {
      assert uid != b.authId;
      InsertAuthSets(profiles, id, row, uid);
      assert ProfilesWithAuth(after, uid) == ProfilesWithAuth(profiles, uid);
      assert RequesterRole(after, uid) == RequesterRole(profiles, uid);
    } else {
      assert uid == b.authId && RequestedRole(b) == DEMO_USER;
    }
  }

  /** Once a profile has been created, asking again for the same auth id
      with the same credentials gives 409 and writes nothing. */
  lemma {:induction false} SecondCreateConflicts(
    profiles: map<Id, ProfileRow>, companies: map<Id, CompanyRow>, b: CreateRequest,
    cookieUser: Option<string>, authHeader: string, o: Oracle, o2: Oracle)
    requires UniqueAuthIds(profiles) && o.newProfileId !in profiles
    requires Create(profiles, companies, Some(b), cookieUser, authHeader, o).response.Created?
    requires !o.existingReadFails
    requires o2.bearerVerify == o.bearerVerify && o2.requesterReadFails == o.requesterReadFails && !o2.existingReadFails
    ensures var first := Create(profiles, companies, Some(b), cookieUser, authHeader, o);
      Create(first.profiles, first.companies, Some(b), cookieUser, authHeader, o2)
        == CreateOutcome(AlreadyExists, first.profiles, first.companies)
  {
    var first := Create(profiles, companies, Some(b), cookieUser, authHeader, o);
    CreateSteps(profiles, companies, b, cookieUser, authHeader, o);
    CreatedProfileRole(profiles, companies, b, cookieUser, authHeader, o);
    CreateSteps(first.profiles, first.companies, b, cookieUser, authHeader, o2);
    AuthorizeAfterOwnInsert(profiles, b, cookieUser, authHeader, o, o2, o.newProfileId, first.response.profile);
  }

  /** The duplicate read's error is ignored: a profile is only ever created
      for an auth id that already has one when that read failed, and the
      auth id then has two profiles. */
  lemma {:induction false} FailedProfileReadDuplicates(
    profiles: map<Id, ProfileRow>, companies: map<Id, CompanyRow>, b: CreateRequest,
    cookieUser: Option<string>, authHeader: string, o: Oracle)
    requires o.newProfileId !in profiles && ProfileByAuth(profiles, b.authId).Some?
    requires Create(profiles, companies, Some(b), cookieUser, authHeader, o).response.Created?
    ensures o.existingReadFails
    ensures var out := Create(profiles, companies, Some(b), cookieUser, authHeader, o);
      |ProfilesWithAuth(out.profiles, b.authId)| >= 2 && !UniqueAuthIds(out.profiles)
  {
    var out := Create(profiles, companies, Some(b), cookieUser, authHeader, o);
    var d := CreatedPassedChecks(profiles, companies, b, cookieUser, authHeader, o);
    ProvisionWrites(profiles, companies, b, d.finalRole, o);
    var prev := ProfileByAuth(profiles, b.authId).value;
    InsertAuthSets(profiles, o.newProfileId, out.response.profile, b.authId);
    assert {prev, o.newProfileId} <= ProfilesWithAuth(out.profiles, b.authId);
    SubsetCard({prev, o.newProfileId}, ProfilesWithAuth(out.profiles, b.authId));
  }

  /** The name read's error is ignored: when it fails for a name some
      company already has and the request gets as far as inserting a
      company, the name then belongs to two companies. */
  lemma {:induction false} FailedCompanyReadDuplicates(
    profiles: map<Id, ProfileRow>, companies: map<Id, CompanyRow>, b: CreateRequest,
    cookieUser: Option<string>, authHeader: string, o: Oracle, cid: Id)
    requires o.newCompanyId !in companies && o.companyReadFails
    requires cid in companies && companies[cid].name == Trim(b.companyName)
    requires Create(profiles, companies, Some(b), cookieUser, authHeader, o).companies != companies
    ensures var out := Create(profiles, companies, Some(b), cookieUser, authHeader, o);
      |CompaniesNamed(out.companies, Trim(b.companyName))| >= 2 && !UniqueCompanyNames(out.companies)
  {
    var out := Create(profiles, companies, Some(b), cookieUser, authHeader, o);
    var name := Trim(b.companyName);
    CreateSteps(profiles, companies, b, cookieUser, authHeader, o);
    var d := Authorize(profiles, b, cookieUser, authHeader, o);
    ProvisionWrites(profiles, companies, b, d.finalRole, o);
    InsertCompanySets(companies, o.newCompanyId, CompanyRow(name, ExtractDomainFromEmail(b.email)), name);
    assert {cid, o.newCompanyId} <= CompaniesNamed(out.companies, name);
    SubsetCard({cid, o.newCompanyId}, CompaniesNamed(out.companies, name));
  }
}
