/** The ElevenLabs conversation list both dashboard routes read
    (GET https://api.elevenlabs.io/v1/convai/conversations): one record per
    upstream conversation and what the call returned. */
module ElevenLabs {
  import opened Common

  /** The fields of an upstream conversation the routes read, taken as well
      typed. The fields the routes test with `||` treat a missing, null or
      empty value alike, and such a value is "" here (0 for
      `call_duration_secs`); the fields passed through unchanged
      (`call_successful`, `agent_id`, `agent_name`, `direction`, and a
      `status` other than `done`) keep those three apart in the routes'
      JSON, which this record does not. */
  datatype Conversation = Conversation(
    conversationId: string,
    callSummaryTitle: string,
    startTimeUnixSecs: int,
    callDurationSecs: int,
    status: string,
    transcriptSummary: string,
    callSuccessful: string,
    messageCount: Option<int>,
    agentId: string,
    agentName: string,
    direction: string)

  /** The answer of the list call: it threw (including a body that is not
      JSON), answered with a non-2xx status and a body text, or answered 2xx
      with a `conversations` field that may be missing. */
  datatype Upstream =
    | Threw
    | NotOk(status: int, text: string)
    | Ok(conversations: Option<seq<Conversation>>)

  /** The date formatting the routes use, which depends on the clock's
      locale: `toLocaleDateString` and `toISOString` of a time in unix
      seconds. */
  datatype Formats = Formats(localeDate: int -> string, isoDate: int -> string)

  /** `conversationsData.conversations || []` */
  function ConversationsOf(conversations: Option<seq<Conversation>>): (r: seq<Conversation>)
    ensures conversations.Some? ==> r == conversations.value
    ensures conversations.None? ==> r == []
  {
    match conversations
    case None => []
    case Some(cs) => cs
  }

  /** `call_summary_title || \`Voice Training - ${date}\``: the summary title,
      or a title made from the local date of the start time. */
  function Title(c: Conversation, f: Formats): (t: string)
    ensures c.callSummaryTitle != "" ==> t == c.callSummaryTitle
    ensures c.callSummaryTitle == "" ==> t == "Voice Training - " + f.localeDate(c.startTimeUnixSecs)
  {
    OrElse(c.callSummaryTitle, "Voice Training - " + f.localeDate(c.startTimeUnixSecs))
  }

  /** `transcript_summary || 'AI-powered analysis available'` */
  function Feedback(c: Conversation): (s: string)
    ensures s != ""
    ensures c.transcriptSummary != "" ==> s == c.transcriptSummary
  {
    OrElse(c.transcriptSummary, "AI-powered analysis available")
  }
}
