/** GET /api/elevenlabs/conversations: the ElevenLabs conversation list
    passed through with defaulted fields. A missing API key is a server
    error, an upstream failure is passed on with the upstream status, and
    otherwise every conversation becomes one entry, in order. */
module Conversations {
  import opened Common
  import opened ElevenLabs
  import RecentSessions

  /** One entry of the list. `overall_score` is always null, so it is not
      a field; the passed-through upstream fields keep their names. */
  datatype ConversationEntry = ConversationEntry(
    id: string,
    title: string,
    date: string,
    duration: int,
    status: string,
    callSuccessful: string,
    feedbackSummary: string,
    messageCount: Option<int>,
    agentId: string,
    agentName: string,
    direction: string)

  datatype Response =
    | NotConfigured                                      // 500 'ElevenLabs API key not configured'
    | UpstreamFailed(status: int, details: string)       // upstream status, { error, details }
    | Listed(conversations: seq<ConversationEntry>, total: int)
    | InternalError                                      // 500 'Internal server error'

  /** One entry: the id is the conversation id, the duration in seconds
      defaults to 0, the status to `completed`, the feedback to its fixed
      text; the other upstream fields pass through unchanged. */
  function ToEntry(c: Conversation, f: Formats): (e: ConversationEntry)
    ensures e.id == c.conversationId && e.title == Title(c, f) && e.date == f.isoDate(c.startTimeUnixSecs)
    ensures e.duration == c.callDurationSecs
    ensures c.status != "" ==> e.status == c.status
    ensures c.status == "" ==> e.status == "completed"
    ensures e.feedbackSummary == Feedback(c)
    ensures e.callSuccessful == c.callSuccessful && e.messageCount == c.messageCount
    ensures e.agentId == c.agentId && e.agentName == c.agentName && e.direction == c.direction
  {
    ConversationEntry(
      c.conversationId,
      Title(c, f),
      f.isoDate(c.startTimeUnixSecs),
      c.callDurationSecs,
      OrElse(c.status, "completed"),
      c.callSuccessful,
      Feedback(c),
      c.messageCount,
      c.agentId,
      c.agentName,
      c.direction)
  }

  /** The handler: 500 without an API key (no upstream call is made), the
      upstream status with its body text as `details` on a non-2xx answer,
      500 when anything throws, and otherwise one entry per conversation in
      upstream order, with `total` the number of entries. */
  function Get(apiKey: string, upstream: Upstream, f: Formats): (r: Response)
    ensures apiKey == "" <==> r == NotConfigured
    ensures apiKey != "" && upstream.NotOk? ==> r == UpstreamFailed(upstream.status, upstream.text)
    ensures apiKey != "" && upstream.Threw? ==> r == InternalError
    ensures r.Listed? ==> upstream.Ok? && r.total == |r.conversations| == |ConversationsOf(upstream.conversations)|
    ensures r.Listed? ==> forall i :: 0 <= i < r.total ==> r.conversations[i] == ToEntry(ConversationsOf(upstream.conversations)[i], f)
  {
    if apiKey == "" then NotConfigured
    else match upstream
      case Threw => InternalError
      case NotOk(status, text) => UpstreamFailed(status, text)
      case Ok(conversations) =>
        var cs := ElevenLabs.ConversationsOf(conversations);
        var entries := seq(|cs|, i requires 0 <= i < |cs| => ToEntry(cs[i], f));
        Listed(entries, |entries|)
  }

  /** With a key and a 2xx answer the list is always returned, and a missing
      `conversations` field gives an empty list. */
  lemma OkIsListed(apiKey: string, conversations: Option<seq<Conversation>>, f: Formats)
    requires apiKey != ""
    ensures Get(apiKey, Ok(conversations), f).Listed?
    ensures conversations.None? ==> Get(apiKey, Ok(conversations), f) == Listed([], 0)
  {
  }

  /** The dashboard's recent sessions are the first ten entries of this
      list: the same ids in the same order, the same titles and dates, the
      duration in seconds rounded up to whole minutes, and the same status
      except that `done` shows as `completed` there and a missing status
      stays missing there. */
  lemma {:induction false} RecentSessionsAreListPrefix(apiKey: string, cs: seq<Conversation>, f: Formats)
    requires apiKey != ""
    ensures var list := Get(apiKey, Ok(Some(cs)), f);
      var recent := RecentSessions.Get(apiKey, Ok(Some(cs)), f);
      && list.Listed? && |recent| == RecentSessions.Min(RecentSessions.MaxRecent, list.total)
      && forall i :: 0 <= i < |recent| ==>
           && recent[i].id == list.conversations[i].id
           && recent[i].title == list.conversations[i].title
           && recent[i].date == list.conversations[i].date
           && 60 * (recent[i].minutes - 1) < list.conversations[i].duration <= 60 * recent[i].minutes
           && (cs[i].status == "done" ==> recent[i].status == "completed" && list.conversations[i].status == "done")
           && (cs[i].status != "done" && cs[i].status != "" ==> recent[i].status == list.conversations[i].status)
  {
    var list := Get(apiKey, Ok(Some(cs)), f);
    var recent := RecentSessions.Get(apiKey, Ok(Some(cs)), f);
    assert ElevenLabs.ConversationsOf(Some(cs)) == cs;
    forall i | 0 <= i < |recent|
      ensures recent[i].id == list.conversations[i].id
      ensures recent[i].title == list.conversations[i].title
      ensures recent[i].date == list.conversations[i].date
      ensures 60 * (recent[i].minutes - 1) < list.conversations[i].duration <= 60 * recent[i].minutes
      ensures cs[i].status == "done" ==> recent[i].status == "completed" && list.conversations[i].status == "done"
      ensures cs[i].status != "done" && cs[i].status != "" ==> recent[i].status == list.conversations[i].status
    {
      assert recent[i] == RecentSessions.ToRecentSession(cs[i], f);
      assert list.conversations[i] == ToEntry(cs[i], f);
    }
  }
}
