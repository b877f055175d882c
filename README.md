# Sales-training backend: a Dafny model

This project models the server routes and page logic of a sales-training
web application. Users sign up, get a profile tied to a company, and hold
voice-training sessions with an ElevenLabs conversational agent. Demo users
have a quota of sessions and minutes. The model covers:

- the shared backend helpers: the demo-quota rule and the usage counters
  (`SupabaseBackend`);
- the database the routes read and write, one map per table, with the
  `.single()` lookup rule (`Database`);
- the routes `POST /api/profile/create` (`ProfileCreate`),
  `POST /api/session/create` (`SessionCreate`), `POST /api/analysis/save`
  (`AnalysisSave`), `GET`/`POST /api/api-keys` (`ApiKeys`),
  `GET /api/dashboard/stats` (`DashboardStats`),
  `GET /api/dashboard/recent-sessions` (`RecentSessions`) and
  `GET /api/elevenlabs/conversations` (`Conversations`, with the upstream
  record in `ElevenLabs`);
- the sign-in callback `GET /auth/callback` (`AuthCallback`);
- the client logic of the registration page (`RegisterPage`) and the
  settings page (`SettingsPage`);
- the JavaScript string operations these rely on (`Common`).

The database is the class `Database.Db`, one map-valued field per table.
Each route that changes it is a method of the route's module that takes
the database and modifies only the tables it writes; each such method is
proved equal to a pure function of the old tables that states the outcome.
The lemmas about those functions carry the properties: the order of the
checks, which requests write nothing, the uniqueness invariants each
insert keeps, what a key's mask reveals and that masking is idempotent,
and the round trip of name splitting.
Everything outside the process is a parameter of the model:

- the identity provider's answer to a token;
- the failure of every database write and RPC, and of every read, including
  the reads whose error the handler ignores (a failed `.single()` read then
  reads as "no row", and the handler carries on as if none existed);
- the ElevenLabs answer;
- the clock and the locale's date formatting;
- encryption and hashing.

## Model

| member | source | states |
|---|---|---|
| SupabaseBackend.GetDemoLimits | frontend/lib/server/supabase-backend.ts:106-111 | the demo quota is exactly one session and 2.0 minutes |
| SupabaseBackend.NonDemoCanAlwaysStart | frontend/lib/server/supabase-backend.ts:113-116 | every role other than `demo_user` may start a session |
| SupabaseBackend.DemoCanStartIff | frontend/lib/server/supabase-backend.ts:118-122 | a demo user may start a session iff fewer than 1 session and fewer than 2 minutes are used, a missing counter reading as 0 (both directions) |
| SupabaseBackend.CanStartMonotone | frontend/lib/server/supabase-backend.ts:119-122 | raising either usage counter never turns a refusal into a permission |
| SupabaseBackend.FreshDemoProfileCanStart | frontend/lib/server/supabase-backend.ts:119-122 | a demo profile with both counters at 0 may start, and after one counted session it may not |
| SupabaseBackend.CallCounter | frontend/lib/server/supabase-backend.ts:125-155 | `updateDemoUsage`, `incrementDemoSessions` and `incrementDemoMinutes` raise exactly when their RPC reports an error, with the helper's own prefix before the RPC's message |
| SupabaseBackend.RaisedMessageIdentifiesHelper | frontend/lib/server/supabase-backend.ts:125-155 | a raised message determines both the helper that raised it and the database's error message |
| Database.Db.constructor | frontend/lib/server/supabase-backend.ts:25-37 | a new database has every modelled table empty |
| Database.SingletonOfCardOne | frontend/app/api/analysis/save/route.ts:47-51 | a set of one matching row is exactly that row |
| Database.Single | frontend/app/api/analysis/save/route.ts:47-51 | `.single()` yields a row iff exactly one row matches, and then that row |
| Database.SingleOfAtMostOne | frontend/app/api/analysis/save/route.ts:47-56 | where at most one row can match, `.single()` finds a row iff one exists |
| Database.ProfileByAuth | frontend/app/api/analysis/save/route.ts:37-42 | a profile found by auth id is in the table and carries that auth id |
| Database.SessionByConversation | frontend/app/api/analysis/save/route.ts:47-51 | a session found by conversation id is in the table and carries that conversation id |
| Database.CompanyByName | frontend/app/api/profile/create/route.ts:170-176 | a company found by name is in the table and carries that name |
| Database.KeyFor | frontend/app/api/api-keys/route.ts:156-162 | a key row found for (profile, service) is in the table and carries both |
| Database.ActiveSubscription | frontend/app/api/session/create/route.ts:78-83 | a subscription found is in the table, belongs to the profile and is `active` |
| Database.CallerProfile | frontend/app/api/api-keys/route.ts:118-140 | a profile id is resolved iff the Authorization header is non-empty, the profile read does not fail, its token (first "Bearer " removed) verifies, and exactly one profile carries the verified auth id; the id resolved is that profile's |
| Database.CallerProfileOfOnlyProfile | frontend/app/api/api-keys/route.ts:124-140 | a profile that is the only one carrying the auth id the header's token verifies to is the one resolved when the read succeeds |
| AnalysisSave.ConfidenceScore | frontend/app/api/analysis/save/route.ts:95 | confidence times 10 is the overall score, 0 when missing |
| AnalysisSave.ConfidenceInUnitRange | frontend/app/api/analysis/save/route.ts:95 | a score in 0..10 gives a confidence in 0..1 |
| AnalysisSave.ExistingSession | frontend/app/api/analysis/save/route.ts:47-51 | the existing-session lookup is the `.single()` match for the conversation when its read succeeds, and no session when the read fails, its error being ignored |
| AnalysisSave.NewSessionRow | frontend/app/api/analysis/save/route.ts:60-73 | the inserted session: the caller's profile, the conversation id, status `analyzed`, processing `completed`, duration defaulting to 0, the summary of score and message count, and the title or "Voice Training - " + the time |
| AnalysisSave.AnalysisRowFor | frontend/app/api/analysis/save/route.ts:89-95 | the upserted row: type `sales_conversation`, provider `openai`, version the model or `gpt-4o`, the data as results and the confidence score |
| AnalysisSave.Post | frontend/app/api/analysis/save/route.ts:6-125 | the handler's response, sessions table and analysis table after the call are those of `Save` on the tables before it |
| AnalysisSave.MissingFieldsTouchNothing | frontend/app/api/analysis/save/route.ts:11-16 | a missing conversation_id or analysis_data is a 400 that leaves every table unchanged |
| AnalysisSave.ExistingSessionReused | frontend/app/api/analysis/save/route.ts:47-109 | when the existing-session read succeeds, an existing session is reused with or without a profile: no session insert, and the analysis goes to that session (or 500 with nothing written when the upsert fails) |
| AnalysisSave.NewSessionOnlyWithProfile | frontend/app/api/analysis/save/route.ts:55-83 | the sessions table changes only when the body is well formed, no session exists for the conversation and a profile resolved, and then by exactly the one new `analyzed` row |
| AnalysisSave.NoSessionWritesNothing | frontend/app/api/analysis/save/route.ts:77-116 | with no session and no profile, or a failed insert, nothing is written and the answer is success=false |
| AnalysisSave.InsertConversationSets | frontend/app/api/analysis/save/route.ts:60-75 | inserting a row under a fresh id adds that id to its own conversation's sessions only |
| AnalysisSave.SavePreservesUniqueConversations | frontend/app/api/analysis/save/route.ts:47-83 | if no two sessions share a conversation id before a save whose existing-session read succeeds, none do after it |
| AnalysisSave.FailedSessionReadDuplicates | frontend/app/api/analysis/save/route.ts:47-83 | when the existing-session read fails for a conversation that already has a session and a profile resolves, the insert adds a second session for it, conversation ids stop being unique, and the next `.single()` lookup finds none |
| AnalysisSave.SavedSessionIsFound | frontend/app/api/analysis/save/route.ts:47-109 | after a successful save whose existing-session read succeeded, the `.single()` lookup for the conversation finds the reported session |
| AnalysisSave.SecondSaveReusesSession | frontend/app/api/analysis/save/route.ts:47-98 | when both existing-session reads succeed, a second save of the same conversation reports the same session, inserts no session, and leaves one analysis row for it holding the later results |
| AnalysisSave.ExampleFirstSave | frontend/app/api/analysis/save/route.ts:28-109 | the worked example: a first save of "conv_123" with score 8 writes one `analyzed` session for the caller and one analysis row with confidence 0.8 |
| ApiKeys.Stars | frontend/app/api/api-keys/route.ts:229 | `'*'.repeat(n)` has length n and only '*' characters |
| ApiKeys.MaskApiKey | frontend/app/api/api-keys/route.ts:224-232 | the mask keeps the length; a key of at most 8 characters is unchanged; a longer key keeps its first and last 4 characters and every character between them is '*' |
| ApiKeys.MaskRevealsOnlyEnds | frontend/app/api/api-keys/route.ts:224-232 | two long keys of the same length that agree on their first and last 4 characters have the same mask |
| ApiKeys.MaskIdempotent | frontend/app/api/api-keys/route.ts:224-232 | masking a masked key changes nothing |
| ApiKeys.MaskedList | frontend/app/api/api-keys/route.ts:76-96 | GET's list has one entry for each of the profile's active rows and no other, with the row's service and, as its key, `MaskApiKey` of the row's decrypted key |
| ApiKeys.ListKeys | frontend/app/api/api-keys/route.ts:48-107 | GET answers 401 `Authorization header required` iff the header is missing; 401 `Invalid token` iff a header is present and its token does not verify; 404 iff the token verifies but no single profile is read for it (none, several, or a failed read); 500 iff the profile resolved and the key fetch failed; and the list iff the profile resolved and the fetch succeeded, that list being the profile's masked list |
| ApiKeys.RunUnfold | frontend/app/api/api-keys/route.ts:147-207 | the loop over entries from `i` is one iteration followed by the loop from `i + 1` |
| ApiKeys.SaveEntry | frontend/app/api/api-keys/route.ts:148-206 | one imperative iteration of the entry loop leaves the key table and records the services that `Step` computes from the table before it |
| ApiKeys.SaveEntries | frontend/app/api/api-keys/route.ts:145-207 | the imperative entry loop leaves the key table and `savedKeys` that the loop function `Run` computes from the table before it |
| ApiKeys.Post | frontend/app/api/api-keys/route.ts:110-221 | POST's response and key table are those of `SaveKeys` on the tables before the call |
| ApiKeys.BadRequestBeforeAuth | frontend/app/api/api-keys/route.ts:114-122 | an `api_keys` that is missing or not an array is a 400 whatever the Authorization header, with no write |
| ApiKeys.NoHeaderUnauthorized | frontend/app/api/api-keys/route.ts:51-122 | without an Authorization header GET and POST both answer 401, and POST writes nothing |
| ApiKeys.SavedOf | frontend/app/api/api-keys/route.ts:147-207 | the saved services are at most one per entry and never empty |
| ApiKeys.RunSaved | frontend/app/api/api-keys/route.ts:147-207 | the services the loop reports do not depend on the table: they are `SavedOf` of the entries |
| ApiKeys.SavedOfMeaning | frontend/app/api/api-keys/route.ts:148-206 | a service is reported iff some entry for it had a non-empty service and key and its write succeeded (both directions) |
| ApiKeys.PostSavedKeys | frontend/app/api/api-keys/route.ts:203-211 | POST's `saved_keys` are the services of the usable, successfully written entries, in input order |
| ApiKeys.UpdateKeepsKeySets | frontend/app/api/api-keys/route.ts:163-173 | updating a row in place keeps every (profile, service) row set |
| ApiKeys.InsertKeySets | frontend/app/api/api-keys/route.ts:181-193 | inserting a row under a new id adds it to its own (profile, service) row set only |
| ApiKeys.StepInvariant | frontend/app/api/api-keys/route.ts:147-207 | one iteration deletes no row, adds at most its new id, leaves other profiles' rows alone and never deactivates a row; when its existing-key read succeeds it also keeps at most one row per (profile, service) |
| ApiKeys.StepStoresEntry | frontend/app/api/api-keys/route.ts:163-201 | a successful iteration leaves an active row holding the entry's encrypted key and hash for the profile and service |
| ApiKeys.ExistingKey | frontend/app/api/api-keys/route.ts:156-162 | the existing-key lookup is the `.single()` match for (profile, service) when its read succeeds, and no row when the read fails, its error being ignored |
| ApiKeys.FailedKeyReadDuplicates | frontend/app/api/api-keys/route.ts:155-198 | when the existing-key read fails for a (profile, service) that already has a row and the write succeeds, a second row is inserted, so two rows share the pair |
| ApiKeys.RunInvariant | frontend/app/api/api-keys/route.ts:147-207 | the whole loop deletes no row, leaves other profiles' rows alone and never deactivates a row; when every existing-key read succeeds it also keeps at most one row per (profile, service) |
| ApiKeys.SavedServicesAreListed | frontend/app/api/api-keys/route.ts:76-207 | every service POST reports as saved is listed by a following GET for the profile, whether or not the existing-key reads failed |
| ApiKeys.PostPreservesKeyRows | frontend/app/api/api-keys/route.ts:110-221 | POST deletes no row and changes only rows of the profile the header resolves to; when every existing-key read succeeds it keeps one key row per (profile, service) |
| AuthCallback.FirstPiece | frontend/app/auth/callback/route.ts:74-75 | `split(sep)[0]` is the longest prefix without the separator: the whole string when it has none, otherwise the text up to the first separator |
| AuthCallback.FirstName | frontend/app/auth/callback/route.ts:73-76 | first_name is the metadata's first name, else the full name's first word, else the e-mail's local part, else "User", so it is never empty |
| AuthCallback.LastName | frontend/app/auth/callback/route.ts:77-79 | last_name is the metadata's last name, else the full name's words after the first joined by single spaces |
| AuthCallback.PayloadWithDefaultRole | frontend/app/auth/callback/route.ts:70-87 | the posted body: auth id and e-mail of the user, the first and last names above, company from `company`, else `company_name`, else "Unknown Company" (never empty), the metadata role or the fallback, position and phone as given, team size with 0 read as null |
| AuthCallback.ProfilePayload | frontend/app/auth/callback/route.ts:86 | as written, a user without a metadata role is sent with role `user` |
| AuthCallback.IntendedProfilePayload | frontend/app/auth/callback/route.ts:86 | the corrected payload: a user without a metadata role is sent with role `demo_user` |
| AuthCallback.PayloadHasRequiredFields | frontend/app/auth/callback/route.ts:70-82 | a user with an id and an e-mail always yields a body that passes profile creation's required-field check |
| AuthCallback.FullNameRoundTrip | frontend/app/auth/callback/route.ts:73-79 | for a full name `w + " " + rest` with a space-free non-empty `w` and a non-empty `rest`, first_name is `w`, last_name is `rest`, and joined with a space they give the full name back |
| AuthCallback.Callback | frontend/app/auth/callback/route.ts:4-60 | without a code the redirect is `/login?error=no_code` |
| AuthCallback.CallbackRedirects | frontend/app/auth/callback/route.ts:7-55 | with a code: a failed exchange redirects to `auth_failed`, a thrown one to `callback_error`, a failed profile step to the setup page; a successful exchange with a 2xx or 409 reply redirects to `next`, defaulting to `/dashboard` |
| AuthCallback.EnsureUserProfileIff | frontend/app/auth/callback/route.ts:90-100 | the profile step returns normally iff the reply is 409 or 2xx |
| AuthCallback.ReplyOf | frontend/app/api/profile/create/route.ts:15-283 | the reply the callback receives carries the status profile creation answers with |
| AuthCallback.EnsureProfileReply | frontend/app/auth/callback/route.ts:62-100 | the profile step rejects exactly when its fetch throws; otherwise its reply is profile creation's answer to the payload sent with no cookie and no Authorization header |
| AuthCallback.CodeSignInEndsOnSetup | frontend/app/auth/callback/route.ts:62-100 | as written: the profile request carries no credential, so for every user and every table profile creation answers 401 (400 when the user lacks an id or an e-mail), writes nothing, and every code sign-in with a successful exchange redirects to the setup page, returning users included |
| AuthCallback.DefaultRoleIsRefused | frontend/app/auth/callback/route.ts:86 | as written: a user without a metadata role is refused by profile creation with 403 whenever the caller it sees is not an admin (401 when it sees no caller), nothing is written, and the sign-in lands on the setup page |
| AuthCallback.OwnDemoRequestAuthorized | frontend/app/api/profile/create/route.ts:115-147 | a complete `demo_user` request made by the user it is for, before they have a profile, passes every check as a non-admin's with final role `demo_user` |
| AuthCallback.ProvisionSucceeds | frontend/app/api/profile/create/route.ts:170-283 | when both inserts succeed the answer is 200 with the profile, holding the granted role and the auth id |
| AuthCallback.OwnDemoRequestCreated | frontend/app/api/profile/create/route.ts:15-283 | a complete `demo_user` request by its own user, with successful writes, creates a `demo_user` profile for that auth id |
| AuthCallback.IntendedSignInCompletes | frontend/app/auth/callback/route.ts:62-100 | corrected: when the POST forwards the new session's access token as `Bearer …` and the role falls back to `demo_user`, a returning user gets 409 with nothing written, a new user gets a `demo_user` profile for their auth id when the writes succeed, and the sign-in redirects to `next`, defaulting to `/dashboard` |
| ProfileCreate.StatusCode | frontend/app/api/profile/create/route.ts:24-277 | the answer is 200 iff a profile was created and 409 iff one already existed; no other answer is 2xx |
| ProfileCreate.ResolveUser | frontend/app/api/profile/create/route.ts:39-94 | the cookie user is taken when there is one; otherwise only a header starting with "Bearer " is consulted, its token being everything after 7 characters, and the user is the one that token verifies to |
| ProfileCreate.RequesterRole | frontend/app/api/profile/create/route.ts:107-112 | the requester's role is found iff `.single()` finds their profile, and is that profile's role |
| ProfileCreate.RequestedRole | frontend/app/api/profile/create/route.ts:115 | the requested role is never empty: the body's role, else `demo_user` |
| ProfileCreate.FinalRole | frontend/app/api/profile/create/route.ts:137 | the stored role is the requested one for an admin requester and `demo_user` for everyone else |
| ProfileCreate.LineRun | frontend/app/api/profile/create/route.ts:282 | `.+` takes the longest prefix holding no line terminator, stopping at one |
| ProfileCreate.FirstDomainMatch | frontend/app/api/profile/create/route.ts:282 | the regex match position is the leftmost '@' followed by a non-line-terminator, or none when there is no such '@' |
| ProfileCreate.ExtractDomainFromEmail | frontend/app/api/profile/create/route.ts:281-284 | the domain is null iff `/@(.+)/` matches nowhere; otherwise it is non-empty and holds no line terminator |
| ProfileCreate.DomainOfOneLineEmail | frontend/app/api/profile/create/route.ts:281-284 | for a one-line e-mail, the domain is everything after the first '@', lowercased, when something follows it |
| ProfileCreate.NoDomainWithoutAt | frontend/app/api/profile/create/route.ts:281-284 | an e-mail without '@', or with nothing after its only '@', has no domain |
| ProfileCreate.TrimmedOrNull | frontend/app/api/profile/create/route.ts:217-218 | `s?.trim() \|\| null` is null iff the trimmed text is empty, else the trimmed text |
| ProfileCreate.NonZeroOrNull | frontend/app/api/profile/create/route.ts:219 | `n \|\| null` is null iff the number is missing or 0 |
| ProfileCreate.NewProfileRow | frontend/app/api/profile/create/route.ts:211-227 | the inserted profile: the body's auth id, the company, the granted role, the e-mail lowercased and trimmed, trimmed names, position and phone trimmed or null, team size non-zero or null, both demo counters at 0 and the fixed settings |
| ProfileCreate.Authorize | frontend/app/api/profile/create/route.ts:24-164 | a missing field is 400 and no identity 401, in that order; when the checks pass the fields are present, a user was identified, the existing-profile read saw no profile for the auth id, and a caller whose requester read did not show an admin is acting for itself asking for `demo_user`, with the final role computed as above |
| ProfileCreate.CompanyFor | frontend/app/api/profile/create/route.ts:166-201 | when the company read succeeds and finds the trimmed name, that company is reused; otherwise (no such company, or a failed read) one is inserted with that name and the e-mail's domain, or none when the insert fails; a company id given always names a row with that name |
| ProfileCreate.Provision | frontend/app/api/profile/create/route.ts:166-269 | a created profile points at a company row that exists afterwards |
| ProfileCreate.CreateSteps | frontend/app/api/profile/create/route.ts:19-278 | the handler on a parsed body is the checks, and the writes when they pass |
| ProfileCreate.Authenticate | frontend/app/api/profile/create/route.ts:34-94 | the imperative cookie-then-bearer sequence gives the identity `ResolveUser` describes |
| ProfileCreate.FindOrCreateCompany | frontend/app/api/profile/create/route.ts:167-201 | the imperative company lookup and insert give the id and companies table `CompanyFor` describes |
| ProfileCreate.Check | frontend/app/api/profile/create/route.ts:24-164 | the imperative checks reach the decision `Authorize` describes |
| ProfileCreate.Post | frontend/app/api/profile/create/route.ts:19-278 | the handler's response and tables after the call are those of `Create` on the tables before it |
| ProfileCreate.MissingFieldsBeforeAuth | frontend/app/api/profile/create/route.ts:24-29 | a falsy auth_id, email, first_name or company_name is a 400 writing nothing, whatever the identity |
| ProfileCreate.NoIdentityUnauthenticated | frontend/app/api/profile/create/route.ts:66-103 | with no cookie user and no verifiable "Bearer " token the answer is 401 and nothing is written |
| ProfileCreate.NonAdminPrivilegedRequestForbidden | frontend/app/api/profile/create/route.ts:107-134 | a caller not read as an admin (a failed requester read included) asking for any role but `demo_user` gets 403 and nothing is written |
| ProfileCreate.CrossAccountForbidden | frontend/app/api/profile/create/route.ts:107-147 | a caller not read as an admin asking for another user's profile gets 403 and nothing is written |
| ProfileCreate.ExistingProfileConflicts | frontend/app/api/profile/create/route.ts:151-164 | when a profile has the auth id and the existing-profile read succeeds, nothing is written, and the answer is 409 unless an earlier check already refused |
| ProfileCreate.ProvisionWrites | frontend/app/api/profile/create/route.ts:166-247 | the writes add exactly the new profile row under its new id, or no profile when they fail, and a company row only when the company read failed or found no company with the trimmed name |
| ProfileCreate.CreatedProfileRole | frontend/app/api/profile/create/route.ts:107-222 | every created profile had an identified caller, no previous profile for its auth id unless the existing-profile read failed, the requested role only for a caller read as an admin (`demo_user` otherwise), the caller's own auth id for a non-admin, and demo counters at 0 |
| ProfileCreate.CreatedPassedChecks | frontend/app/api/profile/create/route.ts:24-164 | a created profile got through every check: the decision was to proceed and the outcome is that of the writes |
| ProfileCreate.CreatedDemoProfileCanStart | frontend/app/api/profile/create/route.ts:221-222 | every created profile may start a session, and a created demo profile may not once one session is counted |
| ProfileCreate.ExistingCompanyReused | frontend/app/api/profile/create/route.ts:170-178 | when the company read succeeds and finds the trimmed name, that company is reused: no company is inserted and the new profile points at it |
| ProfileCreate.NewCompanyCreated | frontend/app/api/profile/create/route.ts:170-201 | when no company has the trimmed name, or the read fails, the company is inserted with the trimmed name and the e-mail's domain, and stays inserted even when the profile insert then fails |
| ProfileCreate.InsertAuthSets | frontend/app/api/profile/create/route.ts:209-230 | inserting a profile under a fresh id adds it to its own auth id's profiles only |
| ProfileCreate.InsertCompanySets | frontend/app/api/profile/create/route.ts:181-189 | inserting a company under a fresh id adds it to its own name's companies only |
| ProfileCreate.CreatePreservesUniqueness | frontend/app/api/profile/create/route.ts:151-230 | given fresh ids, the handler keeps at most one profile per auth id when its existing-profile read succeeds, and at most one company per name when its company read succeeds |
| ProfileCreate.AuthorizeAfterOwnInsert | frontend/app/api/profile/create/route.ts:151-164 | once the profile row for the auth id is in the table, the same request, whose identity and requester reads are unchanged and whose existing-profile read succeeds, is refused with 409 |
| ProfileCreate.SecondCreateConflicts | frontend/app/api/profile/create/route.ts:151-164 | after a successful creation the same request again, with a succeeding existing-profile read, gives 409 and writes nothing |
| ProfileCreate.FailedProfileReadDuplicates | frontend/app/api/profile/create/route.ts:151-222 | a creation for an auth id that already has a profile happens only when the existing-profile read failed, and leaves two profiles with that auth id |
| ProfileCreate.FailedCompanyReadDuplicates | frontend/app/api/profile/create/route.ts:168-201 | when the company read fails while a company with the trimmed name exists and a company is inserted, two companies share the name |
| SessionCreate.SchemaCheckMeaning | frontend/app/api/session/create/route.ts:9-16 | `validateSchema` passes, returning the body unchanged, iff no entry whose key is present rejects its value; otherwise it throws `Invalid <key>` for the first entry that does |
| SessionCreate.ValidateSchema | frontend/app/api/session/create/route.ts:9-16 | the imperative loop over the schema entries gives the result `SchemaCheck` describes |
| SessionCreate.CreateSessionSchemaMeaning | frontend/app/api/session/create/route.ts:4-7 | with the handler's schema a body passes iff its title is absent or a string of 1..255 characters and its company_id is absent, falsy or an 8-4-4-4-12 hex string; a null title is `Invalid title` |
| SessionCreate.UuidAcceptsUpperCase | frontend/app/api/session/create/route.ts:6 | the uuid check ignores case |
| SessionCreate.UuidNeedsDashes | frontend/app/api/session/create/route.ts:6 | the uuid check needs the four dashes |
| SessionCreate.DemoTitle | frontend/app/api/session/create/route.ts:38 | the demo title is the body's title when truthy, else the (truthy) `Demo Voice Training Session` |
| SessionCreate.CompanyColumn | frontend/app/api/session/create/route.ts:97 | the session's company is the body's company_id when truthy, else the profile's |
| SessionCreate.NewSession | frontend/app/api/session/create/route.ts:93-103 | the inserted session belongs to the profile, is `active` and `ready`, takes the company and title above, and has no conversation, duration or summary |
| SessionCreate.Post | frontend/app/api/session/create/route.ts:18-140 | the handler's response, sessions table and audit log after the call are those of `Create` on the tables before it |
| SessionCreate.DemoRequestTouchesNothing | frontend/app/api/session/create/route.ts:28-45 | with no Authorization header or userId `demo-user` the answer is a `demo-session-` session with the demo title, nothing is written and the auth provider's answer does not matter |
| SessionCreate.CheckOrder | frontend/app/api/session/create/route.ts:47-139 | an invalid token is 401 and a missing profile (or a failed profile read) 404, both before validation; a body the schema rejects then gives 500; only a created session writes anything |
| SessionCreate.ExhaustedSubscriptionRefused | frontend/app/api/session/create/route.ts:77-89 | when the profile and subscription reads succeed, an active subscription with minutes used at or above its limit gives 400 and nothing is inserted |
| SessionCreate.FailedSubscriptionReadSkipsLimit | frontend/app/api/session/create/route.ts:77-110 | when the subscription read fails its error is ignored: an exhausted subscription does not stop a valid request, which creates the session |
| SessionCreate.CreatedSessionDefaults | frontend/app/api/session/create/route.ts:91-124 | a created session is the one new row: the caller's profile, `active`, `ready`, the validated company_id or the profile's company, the validated title; an audit entry is appended unless its insert fails |
| SessionCreate.DemoQuotaNotEnforced | frontend/app/api/session/create/route.ts:59-110 | the handler never consults the demo quota: any verified caller with a profile, a valid body and no exhausted subscription gets a stored session |
| SessionCreate.ExhaustedDemoProfileExample | frontend/lib/server/supabase-backend.ts:113-122 | a demo profile with one used session fails the demo quota, so the previous row applies to users the quota would refuse |
| SessionCreate.CreatePreservesUniqueConversations | frontend/app/api/session/create/route.ts:93-103 | new sessions carry no conversation id, so creating one keeps conversation ids unique |
| DashboardStats.DemoFallback | frontend/app/api/dashboard/stats/route.ts:30-224 | the fallback figures: 2 minutes left, demo, every other number 0, the given error, no demo counters and no tier |
| DashboardStats.DemoStatsAgreeWithQuota | frontend/app/api/dashboard/stats/route.ts:87-111 | a demo user's minutesLeft is max(0, 2 − used) and sessionsLeft max(0, 1 − used), both never negative; the limits are the backend's; and `canStartSession` holds iff the backend's `canStartDemoSession` does for the same profile |
| DashboardStats.Mean | frontend/app/api/dashboard/stats/route.ts:167-170 | the mean is 0 for no scores, and otherwise times the count it gives the sum of the scores |
| DashboardStats.SumBounds | frontend/app/api/dashboard/stats/route.ts:169 | scores between lo and hi sum to between n·lo and n·hi |
| DashboardStats.MeanBounds | frontend/app/api/dashboard/stats/route.ts:167-170 | the mean of scores all between lo and hi lies between lo and hi |
| DashboardStats.NonNegativeFactor | frontend/app/api/dashboard/stats/route.ts:169 | a non-negative product with a positive factor has a non-negative other factor |
| DashboardStats.Round1 | frontend/app/api/dashboard/stats/route.ts:198-202 | rounding to one decimal moves the value by more than −0.05 and at most 0.05 |
| DashboardStats.InsertDay | frontend/app/api/dashboard/stats/route.ts:176 | putting a day into a descending list of distinct days keeps it strictly descending, with exactly the old days and the new one |
| DashboardStats.UniqueDates | frontend/app/api/dashboard/stats/route.ts:175-176 | the distinct days are strictly descending and hold exactly the days that had a session |
| DashboardStats.Streak | frontend/app/api/dashboard/stats/route.ts:172-193 | the imperative streak loop with its `break` computes `StreakOf` of the distinct days |
| DashboardStats.DayGapsMeaning | frontend/app/api/dashboard/stats/route.ts:181-191 | the one-day gaps counted from a position run through consecutive days, and the day before the last of them is not in the list |
| DashboardStats.LatestFirst | frontend/app/api/dashboard/stats/route.ts:176-179 | the first distinct day had a session and no session day is later |
| DashboardStats.StreakRun | frontend/app/api/dashboard/stats/route.ts:179-191 | a streak of k covers the k days ending at the latest one, every one of them with a session, and the day before them had none |
| DashboardStats.StreakMeaning | frontend/app/api/dashboard/stats/route.ts:172-193 | the streak is 0 iff there are no sessions or the latest day is neither today nor yesterday; otherwise it counts the consecutive session days ending at the latest, bounded by the day without a session; it never exceeds the number of distinct days |
| DashboardStats.LookUpProfile | frontend/app/api/dashboard/stats/route.ts:47-52 | `.maybeSingle()` gives a profile iff the query succeeded and exactly one profile has the auth id, and then that row; no profile iff the query succeeded and none matches; an error iff the query failed or several match |
| DashboardStats.Get | frontend/app/api/dashboard/stats/route.ts:26-226 | the handler with its streak loop returns the statistics `GetStats` describes |
| DashboardStats.FallbacksAreDemoFigures | frontend/app/api/dashboard/stats/route.ts:30-224 | no session, a failed or ambiguous profile query, a missing profile or a thrown error all give the fixed demo figures |
| DashboardStats.DemoUserSeesQuota | frontend/app/api/dashboard/stats/route.ts:86-111 | a caller whose profile is a demo user's sees the demo counters, and `canStartSession` equals the backend's demo rule |
| DashboardStats.RegularUserFigures | frontend/app/api/dashboard/stats/route.ts:114-205 | other users see max(0, limit − used) minutes with a subscription and 100 without, the tier defaulting to `starter`, the number of completed sessions read, a streak no longer than the distinct days, and an average within 0.05 of the mean score |
| DashboardStats.ExampleStreak | frontend/app/api/dashboard/stats/route.ts:172-193 | sessions on days 12, 12, 11, 10 and 8 give a streak of 3 on day 13 and 0 on day 14 |
| DashboardStats.StreakIs | frontend/app/api/dashboard/stats/route.ts:179-191 | when the latest day is today or yesterday, the k days ending at it all had sessions and the day before did not, the streak is k |
| DashboardStats.LatestDay | frontend/app/api/dashboard/stats/route.ts:176 | the latest of the example's distinct days is 12 |
| RegisterPage.WithField | frontend/app/register/page.tsx:216 | `{ ...prev, [field]: value }` sets the field and keeps every other field |
| RegisterPage.WithError | frontend/app/register/page.tsx:220 | setting one field's error keeps every other field's error |
| RegisterPage.NumberOf | frontend/app/register/page.tsx:95 | `Number` of a text is a number iff the text is blank or all decimal digits once trimmed; the number is never negative, and 0 for blank text |
| RegisterPage.EmailError | frontend/app/register/page.tsx:57-62 | the e-mail has an error iff it is empty or does not match `\S+@\S+\.\S+` |
| RegisterPage.PasswordError | frontend/app/register/page.tsx:64-69 | the password has an error iff it is shorter than 8 characters (the empty password included) |
| RegisterPage.ConfirmError | frontend/app/register/page.tsx:71-74 | the confirmation has an error iff it differs from the password, whatever the other fields hold |
| RegisterPage.BlankError | frontend/app/register/page.tsx:76-87 | a name or company field has its message iff it is all white space |
| RegisterPage.PhoneError | frontend/app/register/page.tsx:89-92 | the phone has an error iff it holds a character other than a digit, white space or `- + ( ) .` (so an empty phone has none) |
| RegisterPage.TeamSizeError | frontend/app/register/page.tsx:94-97 | the team size has an error iff it is non-empty and not a number of at least 1 |
| RegisterPage.DigitsValuePositive | frontend/app/register/page.tsx:95 | a string of digits is worth at least 1 iff one of its digits is not '0' |
| RegisterPage.TeamSizeErrorMeaning | frontend/app/register/page.tsx:94-97 | the team size has an error iff it is non-empty and, once trimmed, is not a string of digits with at least one digit other than '0' |
| RegisterPage.ValidIffNoErrors | frontend/app/register/page.tsx:99-100 | the form is valid iff no check reports a message (both directions) |
| RegisterPage.CheckCredentials | frontend/app/register/page.tsx:57-74 | the e-mail, password and confirmation checks set exactly those three messages |
| RegisterPage.CheckBlank | frontend/app/register/page.tsx:77-87 | one blank check gives the message `BlankError` describes |
| RegisterPage.CheckOptional | frontend/app/register/page.tsx:89-97 | the phone and team-size checks set exactly those two messages |
| RegisterPage.ValidateForm | frontend/app/register/page.tsx:54-101 | the imperative validator collects the messages `ErrorsFor` describes and returns true iff the form is valid |
| RegisterPage.ExampleEmailAccepted | frontend/app/register/page.tsx:60 | "john@company.com" passes the e-mail check |
| RegisterPage.ExampleEmailRejected | frontend/app/register/page.tsx:60 | "john@company" fails the e-mail check |
| RegisterPage.HandleInputChange | frontend/app/register/page.tsx:215-222 | the field takes the new value and stops showing an error; every other field and error is unchanged |
| RegisterPage.SignUpMetadata | frontend/app/register/page.tsx:118-127 | the sign-up metadata: trimmed names, "first last" as full name, the trimmed company under both keys, the trimmed phone, the parsed team size; no position and no role |
| RegisterPage.RegisteredUserPayload | frontend/app/register/page.tsx:118-127 | for a valid form the callback's payload carries the trimmed names and company and, since no role is set, the role `user` |
| RegisterPage.ClassifySignUpError | frontend/app/register/page.tsx:132-153 | the message checks in order: "User already registered", then "Password should be", then "Invalid email", then "profile creation failed", each exactly when the earlier ones fail; anything else shows the message or the fixed fallback |
| RegisterPage.ThrownNotice | frontend/app/register/page.tsx:195-209 | a thrown error always ends in an error toast |
| RegisterPage.SignUpErrorResult | frontend/app/register/page.tsx:132-155 | after a sign-up error the form is kept, an error toast is shown, and the only navigation is to `/login` |
| RegisterPage.Submit | frontend/app/register/page.tsx:103-213 | the form is submitted iff it is valid, an invalid form showing "Please fix the form errors"; a returned user with a confirmed e-mail goes to `/dashboard`, one without to `/login?message=check_email`, both with the form cleared; no user returned keeps the form, with no navigation and no notice; a throw keeps the form and shows an error toast |
| RegisterPage.SignUpErrorKeepsForm | frontend/app/register/page.tsx:132-155 | a sign-up error keeps the form, and a field error is set iff the error is the password or the e-mail rejection |
| SettingsPage.ServiceOf | frontend/app/settings/page.tsx:164-183 | every field is stored under a non-empty service name |
| SettingsPage.FieldOf | frontend/app/settings/page.tsx:102-104 | a service name belongs to the field stored under it, and to no field when no field is stored under it |
| SettingsPage.ToggleKeyVisibility | frontend/app/settings/page.tsx:215-217 | the given field's visibility flips and every other field's stays |
| SettingsPage.ToggleTwice | frontend/app/settings/page.tsx:215-217 | toggling the same field twice restores the view |
| SettingsPage.ValidateApiKey | frontend/app/settings/page.tsx:119-150 | a key is accepted iff it is not blank and starts with `sk_` for `elevenlabs` and `sk-` for `openai`; acceptance sets the service's status to true, a rejection leaves the statuses alone |
| SettingsPage.KeysToSave | frontend/app/settings/page.tsx:162-183 | the imperative list building gives the list `SaveList` describes |
| SettingsPage.PushIfFilled | frontend/app/settings/page.tsx:164-169 | one push appends the field's trimmed entry exactly when that value is non-empty |
| SettingsPage.FilledEntriesAt | frontend/app/settings/page.tsx:162-183 | each entry of the list built from trimmed fields is a field's non-empty value under that field's service, at the field's place in the order |
| SettingsPage.FilledEntriesHas | frontend/app/settings/page.tsx:162-183 | a field with a non-empty trimmed value has an entry in that list |
| SettingsPage.SaveListEntry | frontend/app/settings/page.tsx:162-183 | each saved entry carries the trimmed value of the field its service names, so the API route does not skip it |
| SettingsPage.SaveListField | frontend/app/settings/page.tsx:162-183 | a field is in the save list iff it is not blank (both directions) |
| SettingsPage.SaveListOrder | frontend/app/settings/page.tsx:162-183 | the save list follows the order elevenlabs, elevenlabs_agent, openai, so no service appears twice |
| SettingsPage.HandleSave | frontend/app/settings/page.tsx:152-213 | without a session: "Please login to save settings" and no request; an empty list: "Please provide at least one API key" and no request; otherwise the save list is sent, success is shown iff the reply is 2xx, a rejection shows its error or "Failed to save API keys", a throw "Failed to save settings" |
| SettingsPage.FindService | frontend/app/settings/page.tsx:102-104 | `find` gives the position of the first entry with the service, or none when no entry has it |
| SettingsPage.LoadedKey | frontend/app/settings/page.tsx:107-109 | a field's loaded value is the key of the first entry for its service, or "" |
| SettingsPage.LoadForm | frontend/app/settings/page.tsx:101-110 | every field takes the loaded value for its service |
| SettingsPage.LoadApiKeys | frontend/app/settings/page.tsx:86-117 | only a 2xx answer replaces the form, a missing `api_keys` counting as empty |
| SettingsPage.LoadedFieldsAreMasked | frontend/app/settings/page.tsx:97-110 | every field filled from a GET answer holds the masked, decrypted key of one of the profile's active rows for its service |
| SettingsPage.MaskEnds | frontend/app/api/api-keys/route.ts:224-232 | a mask of a key longer than 8 characters starts and ends like the key and has '*' at position 4 |
| SettingsPage.FilledEntriesFirst | frontend/app/settings/page.tsx:164-169 | a non-empty ElevenLabs key comes first in the list |
| SettingsPage.SaveAfterLoadResendsMask | frontend/app/settings/page.tsx:102-183 | as written: saving straight after loading sends the mask of a stored ElevenLabs key back as the new key, and the mask differs from the key |
| SettingsPage.IntendedSaveAfterLoad | frontend/app/settings/page.tsx:162-183 | corrected: saving the form as loaded sends nothing |
| SettingsPage.IntendedSaveEntry | frontend/app/settings/page.tsx:162-183 | corrected: every entry sent is the trimmed value of a field the user changed since loading, never a loaded mask, and the API route does not skip it |
| SettingsPage.IntendedSaveField | frontend/app/settings/page.tsx:162-183 | corrected: a changed field is sent iff it is not blank |
| ElevenLabs.ConversationsOf | frontend/app/api/elevenlabs/conversations/route.ts:53 | a missing `conversations` field reads as the empty list, a present one as itself |
| ElevenLabs.Title | frontend/app/api/elevenlabs/conversations/route.ts:55 | the summary title when there is one, otherwise "Voice Training - " and the local date of the start time |
| ElevenLabs.Feedback | frontend/app/api/dashboard/recent-sessions/route.ts:40 | never empty, and the transcript summary whenever there is one |
| RecentSessions.CeilMinutes | frontend/app/api/dashboard/recent-sessions/route.ts:34-35 | the least whole number of minutes covering the call: 60·(m−1) < secs ≤ 60·m |
| RecentSessions.MinutesRoundUp | frontend/app/api/dashboard/recent-sessions/route.ts:34-35 | 0 seconds is 0 minutes, a whole k minutes is k, and one second more is k+1 |
| RecentSessions.ToRecentSession | frontend/app/api/dashboard/recent-sessions/route.ts:31-42 | a card keeps the conversation's id, title and date, shows its length rounded up to minutes under `duration` and `minutes`, `done` as `completed` and any other status as is, a non-empty feedback and the fixed topics |
| RecentSessions.Min | frontend/app/api/dashboard/recent-sessions/route.ts:31 | the smaller of the two bounds of `slice(0, 10)` |
| RecentSessions.Get | frontend/app/api/dashboard/recent-sessions/route.ts:3-56 | without a key, on a non-2xx answer or a throw: the empty list; otherwise at most ten cards, the i-th made from the i-th upstream conversation |
| RecentSessions.GetKeepsUpstreamOrder | frontend/app/api/dashboard/recent-sessions/route.ts:31 | a list of at most ten conversations is shown whole, a longer one as its first ten, with the ids in upstream order |
| Conversations.ToEntry | frontend/app/api/elevenlabs/conversations/route.ts:53-66 | an entry keeps the id, title, date, duration and the passed-through fields, defaults a missing status to `completed` and carries a non-empty feedback |
| Conversations.Get | frontend/app/api/elevenlabs/conversations/route.ts:3-80 | 500 exactly when the key is missing; the upstream status and body text on a non-2xx answer; 500 on a throw; otherwise one entry per upstream conversation, in order, with `total` the number of entries |
| Conversations.OkIsListed | frontend/app/api/elevenlabs/conversations/route.ts:53-71 | with a key a 2xx answer is always listed, and a missing `conversations` field lists nothing with total 0 |
| Conversations.RecentSessionsAreListPrefix | frontend/app/api/dashboard/recent-sessions/route.ts:31-42 | the dashboard cards are the first min(10, total) entries of the conversation list with the same ids, titles and dates, a duration rounded up to minutes and the same status except `done` shown as `completed` |
| Common.OrElse | frontend/app/api/elevenlabs/conversations/route.ts:58 | `a || b` on strings: `a` unless it is empty, then `b` |
| Common.TrimStart | frontend/app/settings/page.tsx:120 | removes only leading white space and leaves a suffix that is empty or starts with a non-space |
| Common.TrimEnd | frontend/app/settings/page.tsx:120 | removes only trailing white space and leaves a prefix that is empty or ends with a non-space |
| Common.Trim | frontend/app/register/page.tsx:77 | a slice of the string that neither starts nor ends with white space, everything cut before and after it being white space |
| Common.TrimEmptyIffAllSpace | frontend/app/register/page.tsx:77 | `!s.trim()` holds exactly when every character is white space |
| Common.TrimUnpadded | frontend/app/settings/page.tsx:164-167 | trimming a string without surrounding white space changes nothing |
| Common.IndexOf | frontend/app/api/api-keys/route.ts:57 | the first position where the pattern occurs, or none when it occurs nowhere |
| Common.ReplaceFirst | frontend/app/api/api-keys/route.ts:57 | `replace` with a string pattern replaces only its first occurrence and leaves a string without it unchanged |
| Common.LowerChar | frontend/app/api/profile/create/route.ts:214 | an upper-case ASCII letter becomes its lower-case letter; every other character stays |
| Common.ToLower | frontend/app/api/profile/create/route.ts:214 | same length, each character lowered |
| Common.Split | frontend/app/auth/callback/route.ts:74-78 | at least one piece, and no piece contains the separator |
| Common.JoinSplit | frontend/app/auth/callback/route.ts:78 | joining the pieces of a split with the same separator gives back the string |
| Common.SplitFirstPiece | frontend/app/auth/callback/route.ts:74-75 | the first piece of a split is a prefix of the string, followed by the separator unless it is the whole string |
| Common.SplitAfterWord | frontend/app/auth/callback/route.ts:74 | a word followed by the separator is the first piece of the split |

## Left out

- Toasts, router navigation, `setTimeout`, loading flags and the rendering of both pages are not modelled; the pages are modelled through what their handlers compute and send.
- The random `score` and `improvement` figures of the recent-sessions cards are not modelled.
- Clocks (`Date.now`, `new Date()`) are parameters, and calendar days are integer day numbers; `toLocaleDateString` and `toISOString` are functions supplied with the upstream answer.
- Floating-point arithmetic is modelled over exact reals: the mean score and its rounding to one decimal ignore binary rounding.
- `Number()` is modelled on decimal digit strings only, after trimming surrounding white space (no signs, exponents, hex, fractions or `Infinity`); `toLowerCase` is modelled on ASCII letters only; the e-mail, phone and UUID regular expressions are stated as character predicates.
- Encryption, decryption and hashing of API keys are opaque functions; their cryptographic properties are not modelled.
- Concurrency is not modelled: each request runs alone against the database, so the check-then-insert races of profile, company and session creation are out of scope.
- Query result order is not modelled: tables are maps, and a lookup that the source ends with `.single()` returns a row only when exactly one row matches.
- The request the sign-in callback makes to the profile-creation endpoint is modelled as profile creation applied to its payload with no cookie session and no Authorization header (the headers the code sends), not as an HTTP call; the fetch's own rejection is a flag.
- SettingsPage.ValidateApiKey: the `catch` branch is not modelled, because nothing in the `try` block can throw.
- RecentSessions.ToRecentSession: call durations are whole seconds, so `Math.ceil` of a fractional duration is not modelled.
- Upstream ElevenLabs records are taken as well typed. A missing, null or empty value of a field passed through unchanged (`call_successful`, `agent_id`, `agent_name`, `direction`, and a `status` other than `done`) is one value here, though the routes' JSON keeps the three apart. A missing `start_time_unix_secs`, which makes `toISOString` throw (a 500 from the conversations route, an empty list from the recent-sessions route), is not modelled.
- Creation of the Supabase clients and reading of environment variables are not modelled; a missing ElevenLabs key is an empty string parameter.
- The bodies of the `increment_demo_sessions` and `increment_demo_minutes` database functions live in the database, not in this code; only their success or failure is modelled.
- The session page (`frontend/app/session/page.tsx`) and the `test-db-save` diagnostic route are not part of this model.
- DashboardStats.GetStats: the usage, analytics and session-date queries that follow the profile lookup are inputs, not reads of `Database.Db`.
- SessionCreate.CreateSessionSchemaMeaning: the title's 1..255 bound counts Unicode scalar values (Dafny `char`); JavaScript's `length` counts UTF-16 code units, so a title with characters outside the Basic Multilingual Plane can pass here and fail in the handler.
- RegisterPage.PasswordError: the 8-character minimum counts Unicode scalar values, not the UTF-16 code units JavaScript's `length` counts.
- ApiKeys.MaskApiKey: lengths, `substring` and `slice` are taken over Unicode scalar values, not UTF-16 code units; the two agree for the ASCII keys the services issue.
- AnalysisSave.SavePreservesUniqueConversations: holds only when the existing-session read succeeds, because the handler ignores that read's error; `AnalysisSave.FailedSessionReadDuplicates` shows the duplicate a failed read lets through. The same condition is on `ExistingSessionReused`, `SavedSessionIsFound` and `SecondSaveReusesSession`.
- ApiKeys.RunInvariant: keeps one row per (profile, service) only when every existing-key read succeeds; `ApiKeys.FailedKeyReadDuplicates` shows the second row a failed read inserts. `StepInvariant` carries the same condition.
- ApiKeys.PostPreservesKeyRows: its uniqueness half holds only when every existing-key read succeeds, for the same reason.
- ProfileCreate.CreatePreservesUniqueness: one profile per auth id holds only when the existing-profile read succeeds and one company per name only when the company read succeeds; `ProfileCreate.FailedProfileReadDuplicates` and `ProfileCreate.FailedCompanyReadDuplicates` show the duplicates otherwise. `ExistingProfileConflicts`, `ExistingCompanyReused`, `AuthorizeAfterOwnInsert` and `SecondCreateConflicts` carry the same conditions.
- SessionCreate.ExhaustedSubscriptionRefused: holds only when the profile and subscription reads succeed; `SessionCreate.FailedSubscriptionReadSkipsLimit` shows a failed subscription read letting the request through.

## Findings

| source | as written | input that shows it | evidently intended | confidence | as-written member | corrected member |
|---|---|---|---|---|---|---|
| frontend/app/auth/callback/route.ts:62-100 | `ensureUserProfile` posts to profile creation with only a `Content-Type` header: no cookie and no `Authorization`, so profile creation finds no user and answers 401 (`frontend/app/api/profile/create/route.ts:97-103`) before it looks at roles or existing profiles; `ensureUserProfile` throws and the callback redirects to the setup page. Were a credential sent, the fallback role `user` (line 86) would still be refused with 403 for a non-admin (`frontend/app/api/profile/create/route.ts:128-134`) | any sign-in with a valid code, new or returning user, e.g. a returning user who already has a profile | forward the new session's access token as `Authorization: Bearer …` and fall back to `demo_user`, so a new user gets a demo profile and a returning user's 409 lets the sign-in continue | high; not executed | AuthCallback.CodeSignInEndsOnSetup | AuthCallback.IntendedSignInCompletes |
| frontend/app/settings/page.tsx:102-183 | the form is filled with the masked keys that `GET /api/api-keys` returns (`frontend/app/api/api-keys/route.ts:88-96`), and a save sends every non-blank field, so the mask is stored over the real key | a stored ElevenLabs key longer than 8 characters, the page loaded and then saved without editing | only fields the user edited are sent, so a loaded mask is never saved | high; not executed | SettingsPage.SaveAfterLoadResendsMask | SettingsPage.IntendedSaveEntry |
