/** GET /auth/callback: the OAuth/e-mail sign-in callback. It exchanges the
    `code` for a session, makes sure the user has a profile by posting to
    the profile-creation endpoint with a payload built from the user's
    metadata, and redirects. */
module AuthCallback {
  import opened Common
  import opened Database
  import opened SupabaseBackend
  import opened ProfileCreate

  /** The `user_metadata` fields the callback reads; "" stands for a missing
      or falsy value. */
  datatype Metadata = Metadata(
    firstName: string,
    lastName: string,
    fullName: string,
    company: string,
    companyName: string,
    position: string,
    phone: string,
    teamSize: Option<int>,
    role: string)

  /** The signed-in user as the auth provider returns it. */
  datatype AuthUser = AuthUser(id: string, email: string, metadata: Metadata)

  // ---------------------------------------------------------------------
  // The profile payload
  // ---------------------------------------------------------------------

  /** `s.split(sep)[0]`: the text before the first separator, or all of
      `s` when it has none. The callback takes the first word of a full
      name with `' '` and the local part of an e-mail address with `'@'`. */
  function FirstPiece(s: string, sep: char): (w: string)
    ensures sep !in w && |w| <= |s| && w == s[..|w|]
    ensures |w| < |s| ==> s[|w|] == sep
  {
    SplitFirstPiece(s, sep);
    Split(s, sep)[0]
  }

  /** `full_name.split(' ').slice(1).join(' ')`: the text after the first space. */
  function OtherWords(fullName: string): string
  {
    Join(Split(fullName, ' ')[1..], ' ')
  }

  /** first_name: the metadata's first name, else the first word of the full
      name, else the e-mail's local part, else "User". */
  function FirstName(u: AuthUser): (f: string)
    ensures f != ""
    ensures u.metadata.firstName != "" ==> f == u.metadata.firstName
    ensures u.metadata.firstName == "" && FirstPiece(u.metadata.fullName, ' ') != "" ==> f == FirstPiece(u.metadata.fullName, ' ')
    ensures u.metadata.firstName == "" && FirstPiece(u.metadata.fullName, ' ') == "" && FirstPiece(u.email, '@') != "" ==>
              f == FirstPiece(u.email, '@')
    ensures u.metadata.firstName == "" && FirstPiece(u.metadata.fullName, ' ') == "" && FirstPiece(u.email, '@') == "" ==>
              f == "User"
  {
    OrElse(u.metadata.firstName, OrElse(FirstPiece(u.metadata.fullName, ' '), OrElse(FirstPiece(u.email, '@'), "User")))
  }

  /** last_name: the metadata's last name, else the full name's words after
      the first, else "". */
  function LastName(u: AuthUser): (l: string)
    ensures u.metadata.lastName != "" ==> l == u.metadata.lastName
    ensures u.metadata.lastName == "" ==> l == OtherWords(u.metadata.fullName)
  {
    OrElse(u.metadata.lastName, OtherWords(u.metadata.fullName))
  }

  /** The request body `ensureUserProfile` posts, with the role it falls back
      to when the metadata has none. */
  function PayloadWithDefaultRole(u: AuthUser, defaultRole: string): (b: CreateRequest)
    ensures b.authId == u.id && b.email == u.email
    ensures b.firstName == FirstName(u) && b.lastName == LastName(u)
    ensures b.companyName == OrElse(u.metadata.company, OrElse(u.metadata.companyName, "Unknown Company"))
    ensures b.companyName != ""
    ensures b.role == OrElse(u.metadata.role, defaultRole)
    ensures b.position == u.metadata.position && b.phone == u.metadata.phone
    ensures b.teamSize.Some? <==> u.metadata.teamSize.Some? && u.metadata.teamSize.value != 0
    ensures b.teamSize.Some? ==> b.teamSize == u.metadata.teamSize
  {
    CreateRequest(
      u.id,
      u.email,
      FirstName(u),
      LastName(u),
      OrElse(u.metadata.company, OrElse(u.metadata.companyName, "Unknown Company")),
      OrElse(u.metadata.role, defaultRole),
      u.metadata.position,
      u.metadata.phone,
      if u.metadata.teamSize == Some(0) then None else u.metadata.teamSize)
  }

  /** The payload as the callback builds it: the role falls back to "user". */
  function ProfilePayload(u: AuthUser): (b: CreateRequest)
    ensures u.metadata.role == "" ==> b.role == USER
  {
    PayloadWithDefaultRole(u, USER)
  }

  /** The payload with the only role profile creation grants a non-admin,
      "demo_user", as the fallback. */
  function IntendedProfilePayload(u: AuthUser): (b: CreateRequest)
    ensures u.metadata.role == "" ==> b.role == DEMO_USER
  {
    PayloadWithDefaultRole(u, DEMO_USER)
  }

  /** A user with an id and an e-mail always yields a payload that passes
      profile creation's required-field check. */
  lemma PayloadHasRequiredFields(u: AuthUser, defaultRole: string)
    requires u.id != "" && u.email != ""
    ensures HasRequiredFields(PayloadWithDefaultRole(u, defaultRole))
  {
  }

  /** For a full name made of a first word without spaces, one space and a
      non-empty rest, and no separate first or last name, the payload's
      first and last names put back together give the full name. */
  lemma FullNameRoundTrip(u: AuthUser, w: string, rest: string)
    requires u.metadata.firstName == "" && u.metadata.lastName == ""
    requires w != "" && ' ' !in w && rest != ""
    requires u.metadata.fullName == w + " " + rest
    ensures FirstName(u) == w && LastName(u) == rest
    ensures FirstName(u) + " " + LastName(u) == u.metadata.fullName
  {
    SplitAfterWord(w, ' ', rest);
    JoinSplit(rest, ' ');
    assert Split(u.metadata.fullName, ' ')[1..] == Split(rest, ' ');
  }

  // ---------------------------------------------------------------------
  // ensureUserProfile and the redirects
  // ---------------------------------------------------------------------

  /** What the POST to the profile-creation endpoint gave: a status, or a
      rejected fetch. */
  datatype ProfileReply = Replied(status: int) | FetchThrew

  /** Whether `ensureUserProfile` returns normally: on an ok status, and on
      409 (the profile already exists); it throws otherwise. */
  predicate EnsureUserProfile(reply: ProfileReply)
  {
    match reply
    case FetchThrew => false
    case Replied(status) =>
      if status == 409 then true
      else 200 <= status <= 299
  }

  /** What `exchangeCodeForSession` gave: a user, an error or no user, or a
      rejected promise. */
  datatype Exchange = Exchanged(user: AuthUser) | ExchangeFailed | ExchangeThrew

  /** The URL the callback redirects to. `code` is "" when the parameter is
      missing; `next` is `None` when it is missing. */
  function Callback(origin: string, code: string, next: Option<string>, exchange: Exchange, reply: ProfileReply): (url: string)
    ensures code == "" ==> url == origin + "/login?error=no_code"
  {
    var target := match next case None => "/dashboard" case Some(n) => n;
    if code == "" then origin + "/login?error=no_code"
    else match exchange
      case ExchangeThrew => origin + "/login?error=callback_error"
      case ExchangeFailed => origin + "/login?error=auth_failed"
      case Exchanged(_) =>
        if EnsureUserProfile(reply) then origin + target
        else origin + "/setup?source=profile_creation_failed"
  }

  /** With a code, the redirect is decided by the exchange and then by the
      profile step: a failed exchange to the login page with `auth_failed`,
      a thrown one with `callback_error`, a failed profile step to the setup
      page, and otherwise to `next`, which defaults to the dashboard. A 409
      from profile creation counts as success. */
  lemma CallbackRedirects(origin: string, code: string, next: Option<string>, exchange: Exchange, reply: ProfileReply)
    requires code != ""
    ensures exchange.ExchangeFailed? ==> Callback(origin, code, next, exchange, reply) == origin + "/login?error=auth_failed"
    ensures exchange.ExchangeThrew? ==> Callback(origin, code, next, exchange, reply) == origin + "/login?error=callback_error"
    ensures exchange.Exchanged? && reply.Replied? && (reply.status == 409 || 200 <= reply.status <= 299) ==>
              Callback(origin, code, next, exchange, reply) == origin + (if next.Some? then next.value else "/dashboard")
    ensures exchange.Exchanged? && (reply.FetchThrew? || (reply.status != 409 && !(200 <= reply.status <= 299))) ==>
              Callback(origin, code, next, exchange, reply) == origin + "/setup?source=profile_creation_failed"
  {
  }

  /** The profile step returns normally exactly on a 2xx or a 409. */
  lemma EnsureUserProfileIff(reply: ProfileReply)
    ensures EnsureUserProfile(reply) <==> reply.Replied? && (reply.status == 409 || 200 <= reply.status <= 299)
  {
  }

  /** The reply the profile-creation endpoint gives for a given outcome. */
  function ReplyOf(out: CreateOutcome): (reply: ProfileReply)
    ensures reply.Replied? && reply.status == StatusCode(out.response)
  {
    Replied(StatusCode(out.response))
  }

  /** `ensureUserProfile` as written: its POST carries only a Content-Type
      header, so profile creation sees neither a cookie session nor an
      Authorization header. `fetchThrows` is a rejected fetch. */
  function EnsureProfileReply(u: AuthUser, profiles: map<Id, ProfileRow>, companies: map<Id, CompanyRow>,
                              o: Oracle, fetchThrows: bool): (reply: ProfileReply)
    ensures reply.FetchThrew? <==> fetchThrows
  {
    if fetchThrows then FetchThrew
    else ReplyOf(Create(profiles, companies, Some(ProfilePayload(u)), None, "", o))
  }

  /** As written, no sign-in with a code gets past the profile step: whatever
      the user, the tables and the services, profile creation answers the
      credential-less request with 401 (400 for a user without an id or an
      e-mail) before it looks at the role or at existing profiles, writes
      nothing, and the callback redirects to the setup page, for new and
      returning users alike. */
  lemma CodeSignInEndsOnSetup(u: AuthUser, profiles: map<Id, ProfileRow>, companies: map<Id, CompanyRow>,
                              o: Oracle, fetchThrows: bool, origin: string, code: string, next: Option<string>)
    requires code != ""
    ensures var out := Create(profiles, companies, Some(ProfilePayload(u)), None, "", o);
      && out.profiles == profiles && out.companies == companies
      && (out.response == Unauthenticated || out.response == MissingFields)
      && (u.id != "" && u.email != "" ==> out.response == Unauthenticated)
    ensures Callback(origin, code, next, Exchanged(u), EnsureProfileReply(u, profiles, companies, o, fetchThrows))
              == origin + "/setup?source=profile_creation_failed"
  {
    var b := ProfilePayload(u);
    if HasRequiredFields(b) {
      NoIdentityUnauthenticated(profiles, companies, b, "", o);
    } else {
      MissingFieldsBeforeAuth(profiles, companies, b, None, "", o);
      if u.id != "" && u.email != "" {
        PayloadHasRequiredFields(u, USER);
      }
    }
  }

  // ---------------------------------------------------------------------
  // The default role
  // ---------------------------------------------------------------------

  /** The payload's own role fallback is refused too: for a user whose
      metadata names no role, profile creation answers 403 whenever the
      caller it sees is not an admin (and 401 when it sees no caller), and
      the sign-in ends on the setup page, whether or not the profile already
      exists. */
  lemma DefaultRoleIsRefused(u: AuthUser, profiles: map<Id, ProfileRow>, companies: map<Id, CompanyRow>,
                             cookieUser: Option<string>, authHeader: string, o: Oracle,
                             origin: string, code: string, next: Option<string>)
    requires u.id != "" && u.email != "" && u.metadata.role == "" && code != ""
    requires var user := ResolveUser(cookieUser, authHeader, o.bearerVerify);
      user.None? || !RequesterIsAdmin(profiles, user.value.userId, o)
    ensures var out := Create(profiles, companies, Some(ProfilePayload(u)), cookieUser, authHeader, o);
      && (out.response == RoleForbidden || out.response == Unauthenticated)
      && out.profiles == profiles && out.companies == companies
      && Callback(origin, code, next, Exchanged(u), ReplyOf(out)) == origin + "/setup?source=profile_creation_failed"
  {
    var b := ProfilePayload(u);
    PayloadHasRequiredFields(u, USER);
    if ResolveUser(cookieUser, authHeader, o.bearerVerify).None? {
      CreateSteps(profiles, companies, b, cookieUser, authHeader, o);
    } else {
      NonAdminPrivilegedRequestForbidden(profiles, companies, b, cookieUser, authHeader, o);
    }
  }

  /** A complete request for a demo profile, made by the user it is for
      before they have a profile, passes every check as a non-admin's. */
  lemma OwnDemoRequestAuthorized(b: CreateRequest, profiles: map<Id, ProfileRow>, cookieUser: Option<string>,
                                 authHeader: string, o: Oracle)
    requires HasRequiredFields(b) && RequestedRole(b) == DEMO_USER
    requires ProfileByAuth(profiles, b.authId).None?
    requires var user := ResolveUser(cookieUser, authHeader, o.bearerVerify); user.Some? && user.value.userId == b.authId
    ensures Authorize(profiles, b, cookieUser, authHeader, o) == Proceed(false, DEMO_USER)
  {
    assert RequesterRole(profiles, b.authId).None?;
  }

  /** When both inserts succeed, the writes store the profile. */
  lemma ProvisionSucceeds(profiles: map<Id, ProfileRow>, companies: map<Id, CompanyRow>, b: CreateRequest,
                          role: string, o: Oracle)
    requires !o.companyInsertFails && o.profileInsertError.None?
    ensures var r := Provision(profiles, companies, b, role, o).response;
      && r.Created? && StatusCode(r) == 200 && r.profile.role == role && r.profile.authId == b.authId
  {
    var step := CompanyFor(companies, Trim(b.companyName), b.email, o.newCompanyId, o.companyReadFails, o.companyInsertFails);
    assert step.companyId.Some?;
    var row := NewProfileRow(b, step.companyId.value, role);
    assert Provision(profiles, companies, b, role, o).response == Created(o.newProfileId, row);
  }

  /** A complete request for a demo profile, made by the user it is for
      before they have a profile, is granted when the writes succeed. */
  lemma OwnDemoRequestCreated(b: CreateRequest, profiles: map<Id, ProfileRow>, companies: map<Id, CompanyRow>,
                              cookieUser: Option<string>, authHeader: string, o: Oracle)
    requires HasRequiredFields(b) && RequestedRole(b) == DEMO_USER
    requires ProfileByAuth(profiles, b.authId).None?
    requires var user := ResolveUser(cookieUser, authHeader, o.bearerVerify); user.Some? && user.value.userId == b.authId
    requires !o.companyInsertFails && o.profileInsertError.None?
    ensures var out := Create(profiles, companies, Some(b), cookieUser, authHeader, o);
      && out.response.Created? && StatusCode(out.response) == 200
      && out.response.profile.role == DEMO_USER
      && out.response.profile.authId == b.authId
  {
    CreateSteps(profiles, companies, b, cookieUser, authHeader, o);
    OwnDemoRequestAuthorized(b, profiles, cookieUser, authHeader, o);
    ProvisionSucceeds(profiles, companies, b, DEMO_USER, o);
  }

  // ---------------------------------------------------------------------
  // The profile step as intended
  // ---------------------------------------------------------------------

  /** The Authorization header carrying a session's access token. */
  function BearerHeader(accessToken: string): (h: string)
    ensures StartsWith(h, "Bearer ") && h[7..] == accessToken
  {
    var h := "Bearer " + accessToken;
    assert h[..7] == "Bearer ";
    h
  }

  /** `ensureUserProfile` as intended: the POST forwards the new session's
      access token as a bearer credential, and the payload's role falls back
      to "demo_user", the only role profile creation grants a non-admin. */
  function IntendedEnsureProfileReply(u: AuthUser, accessToken: string, profiles: map<Id, ProfileRow>,
                                      companies: map<Id, CompanyRow>, o: Oracle, fetchThrows: bool): (reply: ProfileReply)
    ensures reply.FetchThrew? <==> fetchThrows
  {
    if fetchThrows then FetchThrew
    else ReplyOf(Create(profiles, companies, Some(IntendedProfilePayload(u)), None, BearerHeader(accessToken), o))
  }

  /** With the intended profile step, a sign-in whose access token the auth
      provider accepts continues to `next`: a returning user gets 409 and
      nothing is written, a new user gets a demo profile when the writes
      succeed. */
  lemma IntendedSignInCompletes(u: AuthUser, accessToken: string, profiles: map<Id, ProfileRow>,
                                companies: map<Id, CompanyRow>, o: Oracle,
                                origin: string, code: string, next: Option<string>)
    requires u.id != "" && u.email != "" && u.metadata.role == "" && code != ""
    requires o.bearerVerify(accessToken) == Some(u.id) && !o.existingReadFails
    requires ProfileByAuth(profiles, u.id).None? ==> !o.companyInsertFails && o.profileInsertError.None?
    ensures var out := Create(profiles, companies, Some(IntendedProfilePayload(u)), None, BearerHeader(accessToken), o);
      && (ProfileByAuth(profiles, u.id).Some? ==> out == CreateOutcome(AlreadyExists, profiles, companies))
      && (ProfileByAuth(profiles, u.id).None? ==>
            out.response.Created? && out.response.profile.role == DEMO_USER && out.response.profile.authId == u.id)
    ensures Callback(origin, code, next, Exchanged(u), IntendedEnsureProfileReply(u, accessToken, profiles, companies, o, false))
              == origin + (match next case None => "/dashboard" case Some(n) => n)
  {
    var b := IntendedProfilePayload(u);
    var h := BearerHeader(accessToken);
    PayloadHasRequiredFields(u, DEMO_USER);
    assert ResolveUser(None, h, o.bearerVerify) == Some(Identity(u.id, Bearer));
    CreateSteps(profiles, companies, b, None, h, o);
    if ProfileByAuth(profiles, u.id).None? {
      OwnDemoRequestCreated(b, profiles, companies, None, h, o);
    }
  }
}
