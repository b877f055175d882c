/** POST /api/analysis/save: persist a client-computed analysis. The session
    for the conversation is reused when one exists and created only when the
    caller's profile resolved; the analysis row is then upserted on its
    `session_id`, so a session never holds more than one analysis row. */
module AnalysisSave {
  import opened Common
  import opened Database

  /** The request body after JSON parsing; "" stands for a falsy conversation_id. */
  datatype SaveRequest = SaveRequest(conversationId: string, analysisData: Option<AnalysisData>)

  datatype SaveResponse =
    | MissingFields          // 400 'Missing required fields'
    | Saved(sessionId: Id)   // 200 { success: true, session_id }
    | NotSaved               // 200 { success: false, message }
    | SaveFailed             // 500 'Failed to save analysis'
    | InternalError          // 500, the body was not JSON

  function StatusCode(r: SaveResponse): int
  {
    match r
    case MissingFields => 400
    case Saved(_) => 200
    case NotSaved => 200
    case SaveFailed => 500
    case InternalError => 500
  }

  /** The answers of the services the handler calls: the auth provider's user
      for a token, the rendered current time, the id the database gives a new
      session, whether the caller's profile read or the existing-session read
      fails (both errors are ignored, so a failed read reads as "no row"), and
      whether the session insert or the analysis upsert fails. */
  datatype Oracle = Oracle(
    verify: string -> Option<string>,
    now: string,
    newSessionId: Id,
    profileReadFails: bool,
    sessionReadFails: bool,
    insertFails: bool,
    upsertFails: bool)

  /** The caller's profile id (shared with the API-key handler). */
  function ResolveProfileId(profiles: map<Id, ProfileRow>, authHeader: string, o: Oracle): Option<Id>
  {
    CallerProfile(profiles, authHeader, o.verify, o.profileReadFails)
  }

  /** The session the handler sees for a conversation: the `.single()`
      lookup, or none when that read fails. */
  function ExistingSession(sessions: map<Id, SessionRow>, conversationId: string, o: Oracle): (r: Option<Id>)
    ensures r.Some? ==> !o.sessionReadFails && r == SessionByConversation(sessions, conversationId)
    ensures !o.sessionReadFails ==> r == SessionByConversation(sessions, conversationId)
  {
    if o.sessionReadFails then None else SessionByConversation(sessions, conversationId)
  }

  function NumberOrZero(x: Option<real>): real
  {
    match x
    case None => 0.0
    case Some(v) => v
  }

  /** `(analysis_data.overall_score || 0) / 10` */
  function ConfidenceScore(data: AnalysisData): (c: real)
    ensures c * 10.0 == NumberOrZero(data.overallScore)
  {
    NumberOrZero(data.overallScore) / 10.0
  }

  /** A score on the 0..10 scale gives a confidence in 0..1. */
  lemma ConfidenceInUnitRange(data: AnalysisData)
    requires 0.0 <= NumberOrZero(data.overallScore) <= 10.0
    ensures 0.0 <= ConfidenceScore(data) <= 1.0
  {
  }

  /** The session the handler inserts when none exists for the conversation. */
  function NewSessionRow(profileId: Id, conversationId: string, data: AnalysisData, now: string): (row: SessionRow)
    ensures row.profileId == profileId && row.conversationId == Some(conversationId)
    ensures row.status == "analyzed" && row.processingStatus == "completed"
    ensures row.durationSeconds == Some(NumberOrZero(data.durationSeconds))
    ensures row.summary == Some(AnalyticsSummary(data.overallScore, data.messageCount))
    ensures row.title == Some(if data.title != "" then data.title else "Voice Training - " + now)
  {
    SessionRow(
      profileId, None, Some(conversationId),
      Some(OrElse(data.title, "Voice Training - " + now)),
      "analyzed", Some(NumberOrZero(data.durationSeconds)), "completed",
      Some(AnalyticsSummary(data.overallScore, data.messageCount)))
  }

  /** The analysis row the handler upserts. */
  function AnalysisRowFor(data: AnalysisData): (row: AnalysisRow)
    ensures row.analysisType == "sales_conversation" && row.provider == "openai"
    ensures row.version == (if data.model != "" then data.model else "gpt-4o")
    ensures row.results == data && row.confidenceScore == ConfidenceScore(data)
  {
    AnalysisRow("sales_conversation", "openai", OrElse(data.model, "gpt-4o"), data, ConfidenceScore(data))
  }

  datatype SaveOutcome = SaveOutcome(response: SaveResponse, sessions: map<Id, SessionRow>, analyses: map<Id, AnalysisRow>)

  /** The handler as a function of the tables it reads and the answers it gets. */
  function Save(profiles: map<Id, ProfileRow>, sessions: map<Id, SessionRow>, analyses: map<Id, AnalysisRow>,
                body: Option<SaveRequest>, authHeader: string, o: Oracle): SaveOutcome
  {
    if body.None? then SaveOutcome(InternalError, sessions, analyses)
    else if body.value.conversationId == "" || body.value.analysisData.None? then
      SaveOutcome(MissingFields, sessions, analyses)
    else
      var c := body.value.conversationId;
      var data := body.value.analysisData.value;
      var profileId := ResolveProfileId(profiles, authHeader, o);
      var existing := ExistingSession(sessions, c, o);
      var sessionId: Option<Id> :=
        if existing.Some? then existing
        else if profileId.Some? && !o.insertFails then Some(o.newSessionId)
        else None;
      var sessions' :=
        if existing.None? && profileId.Some? && !o.insertFails
        then sessions[o.newSessionId := NewSessionRow(profileId.value, c, data, o.now)]
        else sessions;
      if sessionId.None? then SaveOutcome(NotSaved, sessions', analyses)
      else if o.upsertFails then SaveOutcome(SaveFailed, sessions', analyses)
      else SaveOutcome(Saved(sessionId.value), sessions', analyses[sessionId.value := AnalysisRowFor(data)])
  }

  /** The handler: the locals `profileId` and `sessionId` are set step by
      step, then at most one session insert and one analysis upsert are issued. */
  method Post(db: Db, body: Option<SaveRequest>, authHeader: string, o: Oracle) returns (response: SaveResponse)
    modifies db`sessions, db`analyses
    ensures var out := Save(old(db.profiles), old(db.sessions), old(db.analyses), body, authHeader, o);
      response == out.response && db.sessions == out.sessions && db.analyses == out.analyses
  {
    if body.None? {
      return InternalError;
    }
    var req := body.value;
    if req.conversationId == "" || req.analysisData.None? {
      return MissingFields;
    }
    var data := req.analysisData.value;

    var profileId: Option<Id> := None;
    if authHeader != "" {
      var token := BearerToken(authHeader);
      var user := o.verify(token);
      if user.Some? {
        var profile := if o.profileReadFails then None else ProfileByAuth(db.profiles, user.value);
        if profile.Some? {
          profileId := profile;
        }
      }
    }

    var existing: Option<Id> := None;
    if !o.sessionReadFails {
      existing := SessionByConversation(db.sessions, req.conversationId);
    }
    var sessionId: Option<Id> := None;
    if existing.Some? {
      sessionId := existing;
    } else if profileId.Some? {
      if !o.insertFails {
        db.sessions := db.sessions[o.newSessionId := NewSessionRow(profileId.value, req.conversationId, data, o.now)];
        sessionId := Some(o.newSessionId);
      }
    }

    if sessionId.Some? {
      if o.upsertFails {
        return SaveFailed;
      }
      db.analyses := db.analyses[sessionId.value := AnalysisRowFor(data)];
      return Saved(sessionId.value);
    }
    return NotSaved;
  }

  predicate WellFormed(body: Option<SaveRequest>)
  {
    body.Some? && body.value.conversationId != "" && body.value.analysisData.Some?
  }

  /** A missing conversation_id or analysis_data is a 400 that touches no
      table, whatever the tables, the header and the services answer. */
  lemma MissingFieldsTouchNothing(profiles: map<Id, ProfileRow>, sessions: map<Id, SessionRow>, analyses: map<Id, AnalysisRow>,
                                  req: SaveRequest, authHeader: string, o: Oracle)
    requires req.conversationId == "" || req.analysisData.None?
    ensures Save(profiles, sessions, analyses, Some(req), authHeader, o) == SaveOutcome(MissingFields, sessions, analyses)
    ensures StatusCode(MissingFields) == 400
  {
  }

  /** An existing session for the conversation is reused, with or without a
      resolved profile: no session is inserted and the analysis goes to it. */
  lemma ExistingSessionReused(profiles: map<Id, ProfileRow>, sessions: map<Id, SessionRow>, analyses: map<Id, AnalysisRow>,
                              body: Option<SaveRequest>, authHeader: string, o: Oracle, sid: Id)
    requires WellFormed(body) && !o.sessionReadFails
    requires SessionByConversation(sessions, body.value.conversationId) == Some(sid)
    ensures var out := Save(profiles, sessions, analyses, body, authHeader, o);
      && out.sessions == sessions
      && (if o.upsertFails then out.response == SaveFailed && out.analyses == analyses
          else out.response == Saved(sid) && out.analyses == analyses[sid := AnalysisRowFor(body.value.analysisData.value)])
  {
  }

  /** A session is inserted only when none exists for the conversation and
      a profile resolved, and it is the "analyzed" row for that profile. */
  lemma NewSessionOnlyWithProfile(profiles: map<Id, ProfileRow>, sessions: map<Id, SessionRow>, analyses: map<Id, AnalysisRow>,
                                  body: Option<SaveRequest>, authHeader: string, o: Oracle)
    requires o.newSessionId !in sessions
    ensures var out := Save(profiles, sessions, analyses, body, authHeader, o);
      out.sessions != sessions ==>
        && WellFormed(body)
        && ExistingSession(sessions, body.value.conversationId, o).None?
        && ResolveProfileId(profiles, authHeader, o).Some?
        && out.sessions == sessions[o.newSessionId := NewSessionRow(
             ResolveProfileId(profiles, authHeader, o).value, body.value.conversationId,
             body.value.analysisData.value, o.now)]
  {
  }

  /** With no session for the conversation and no profile, or a failed
      session insert, nothing is written and the answer is success=false. */
  lemma NoSessionWritesNothing(profiles: map<Id, ProfileRow>, sessions: map<Id, SessionRow>, analyses: map<Id, AnalysisRow>,
                               body: Option<SaveRequest>, authHeader: string, o: Oracle)
    requires WellFormed(body)
    requires ExistingSession(sessions, body.value.conversationId, o).None?
    requires ResolveProfileId(profiles, authHeader, o).None? || o.insertFails
    ensures Save(profiles, sessions, analyses, body, authHeader, o) == SaveOutcome(NotSaved, sessions, analyses)
  {
  }

  /** Inserting a row for conversation `c` under a fresh id adds exactly that
      id to `c`'s sessions and leaves every other conversation's sessions alone. */
  lemma InsertConversationSets(sessions: map<Id, SessionRow>, id: Id, row: SessionRow, c: string)
    requires id !in sessions
    ensures SessionsWithConversation(sessions[id := row], c) ==
      SessionsWithConversation(sessions, c) + (if row.conversationId == Some(c) then {id} else {})
  {
  }

  /** Saving keeps conversation ids unique across sessions, as long as the
      existing-session read does not fail. */
  lemma {:induction false} SavePreservesUniqueConversations(
    profiles: map<Id, ProfileRow>, sessions: map<Id, SessionRow>, analyses: map<Id, AnalysisRow>,
    body: Option<SaveRequest>, authHeader: string, o: Oracle)
    requires UniqueConversations(sessions) && o.newSessionId !in sessions
    requires !o.sessionReadFails
    ensures UniqueConversations(Save(profiles, sessions, analyses, body, authHeader, o).sessions)
  {
    var out := Save(profiles, sessions, analyses, body, authHeader, o);
    if out.sessions != sessions {
      NewSessionOnlyWithProfile(profiles, sessions, analyses, body, authHeader, o);
      var c := body.value.conversationId;
      var row := out.sessions[o.newSessionId];
      SingleOfAtMostOne(SessionsWithConversation(sessions, c));
      forall c' ensures |SessionsWithConversation(out.sessions, c')| <= 1 {
        InsertConversationSets(sessions, o.newSessionId, row, c');
        if c' == c {
          assert SessionsWithConversation(sessions, c') == {};
        }
      }
    }
  }

  /** The existing-session read's error is ignored: when it fails for a
      conversation that already has a session, a caller with a profile gets a
      second session for it, and the conversation's `.single()` lookup then
      finds none. */
  lemma {:induction false} FailedSessionReadDuplicates(
    profiles: map<Id, ProfileRow>, sessions: map<Id, SessionRow>, analyses: map<Id, AnalysisRow>,
    body: Option<SaveRequest>, authHeader: string, o: Oracle, sid: Id)
    requires WellFormed(body) && o.sessionReadFails && !o.insertFails
    requires sid in sessions && sessions[sid].conversationId == Some(body.value.conversationId)
    requires o.newSessionId !in sessions
    requires ResolveProfileId(profiles, authHeader, o).Some?
    ensures var out := Save(profiles, sessions, analyses, body, authHeader, o);
      && {sid, o.newSessionId} <= SessionsWithConversation(out.sessions, body.value.conversationId)
      && !UniqueConversations(out.sessions)
      && SessionByConversation(out.sessions, body.value.conversationId).None?
  {
    var out := Save(profiles, sessions, analyses, body, authHeader, o);
    var c := body.value.conversationId;
    var row := NewSessionRow(ResolveProfileId(profiles, authHeader, o).value, c, body.value.analysisData.value, o.now);
    assert out.sessions == sessions[o.newSessionId := row];
    InsertConversationSets(sessions, o.newSessionId, row, c);
    var both := SessionsWithConversation(out.sessions, c);
    assert {sid, o.newSessionId} <= both;
    assert |{sid, o.newSessionId}| == 2;
    SubsetCard({sid, o.newSessionId}, both);
  }

  /** After a successful save of conversation `c`, the `.single()` lookup
      for `c` finds the session the save reported. */
  lemma {:induction false} SavedSessionIsFound(
    profiles: map<Id, ProfileRow>, sessions: map<Id, SessionRow>, analyses: map<Id, AnalysisRow>,
    body: Option<SaveRequest>, authHeader: string, o: Oracle)
    requires UniqueConversations(sessions) && o.newSessionId !in sessions && !o.sessionReadFails
    requires Save(profiles, sessions, analyses, body, authHeader, o).response.Saved?
    ensures var out := Save(profiles, sessions, analyses, body, authHeader, o);
      SessionByConversation(out.sessions, body.value.conversationId) == Some(out.response.sessionId)
  {
    var out := Save(profiles, sessions, analyses, body, authHeader, o);
    var c := body.value.conversationId;
    SingleOfAtMostOne(SessionsWithConversation(sessions, c));
    if SessionByConversation(sessions, c).None? {
      var row := NewSessionRow(ResolveProfileId(profiles, authHeader, o).value, c, body.value.analysisData.value, o.now);
      InsertConversationSets(sessions, o.newSessionId, row, c);
      assert SessionsWithConversation(out.sessions, c) == {o.newSessionId};
    }
  }

  /** Saving the same conversation twice creates no second session and leaves
      exactly one analysis row for the session, holding the later results. */
  lemma {:induction false} SecondSaveReusesSession(
    profiles: map<Id, ProfileRow>, sessions: map<Id, SessionRow>, analyses: map<Id, AnalysisRow>,
    body1: Option<SaveRequest>, h1: string, o1: Oracle,
    body2: Option<SaveRequest>, h2: string, o2: Oracle)
    requires UniqueConversations(sessions) && o1.newSessionId !in sessions && !o1.sessionReadFails
    requires Save(profiles, sessions, analyses, body1, h1, o1).response.Saved?
    requires WellFormed(body2) && body2.value.conversationId == body1.value.conversationId
    requires !o2.sessionReadFails && !o2.upsertFails
    ensures var first := Save(profiles, sessions, analyses, body1, h1, o1);
      var second := Save(profiles, first.sessions, first.analyses, body2, h2, o2);
      && second.response == first.response
      && second.sessions == first.sessions
      && |SessionsWithConversation(second.sessions, body1.value.conversationId)| == 1
      && second.analyses == first.analyses[first.response.sessionId := AnalysisRowFor(body2.value.analysisData.value)]
  {
    var first := Save(profiles, sessions, analyses, body1, h1, o1);
    SavedSessionIsFound(profiles, sessions, analyses, body1, h1, o1);
    ExistingSessionReused(profiles, first.sessions, first.analyses, body2, h2, o2, first.response.sessionId);
  }

  /** The worked example: a caller with a profile saves conversation
      "conv_123" with score 8; one "analyzed" session and one analysis row
      with confidence 0.8 are written. */
  lemma ExampleFirstSave(profiles: map<Id, ProfileRow>, pid: Id, uid: string, o: Oracle, data: AnalysisData)
    requires pid in profiles && profiles[pid].authId == uid && ProfilesWithAuth(profiles, uid) == {pid}
    requires o.verify("tok") == Some(uid) && !o.profileReadFails && !o.insertFails && !o.upsertFails
    requires data.overallScore == Some(8.0) && data.durationSeconds == Some(120.0) && data.messageCount == Some(6)
    ensures var out := Save(profiles, map[], map[], Some(SaveRequest("conv_123", Some(data))), "Bearer tok", o);
      && out.response == Saved(o.newSessionId)
      && out.sessions.Keys == {o.newSessionId}
      && out.sessions[o.newSessionId].status == "analyzed"
      && out.sessions[o.newSessionId].profileId == pid
      && out.analyses.Keys == {o.newSessionId}
      && out.analyses[o.newSessionId].confidenceScore == 0.8
  {
    assert IndexOf("Bearer tok", "Bearer ") == Some(0) by {
      assert OccursAt("Bearer tok", "Bearer ", 0);
    }
    assert BearerToken("Bearer tok") == "tok";
    assert ResolveProfileId(profiles, "Bearer tok", o) == Some(pid);
    assert SessionsWithConversation(map[], "conv_123") == {};
  }
}
