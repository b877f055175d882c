/** GET /api/dashboard/recent-sessions: the dashboard's list of recent voice
    sessions, read straight from the ElevenLabs conversation list. Every
    failure gives an empty list; otherwise the first ten conversations are
    turned into session cards in upstream order. */
module RecentSessions {
  import opened Common
  import opened ElevenLabs

  /** One card of the list. The random `score` and `improvement` figures
      are not part of the model. */
  datatype RecentSession = RecentSession(
    id: string,
    title: string,
    duration: int,
    minutes: int,
    date: string,
    status: string,
    feedback: string,
    topics: seq<string>)

  /** How many conversations the list shows at most (`slice(0, 10)`). */
  const MaxRecent := 10

  /** The topics every card lists. */
  const Topics: seq<string> := ["Voice Training", "Sales Conversation", "Product Demo"]

  /** `Math.ceil(secs / 60)` for a whole number of seconds: the least whole
      number of minutes covering the call. */
  function CeilMinutes(secs: int): (m: int)
    ensures 60 * (m - 1) < secs <= 60 * m
  {
    var q, r := (-secs) / 60, (-secs) % 60;
    assert -secs == 60 * q + r && 0 <= r < 60;
    assert 60 * -q == secs + r;
    -q
  }

  /** One card: the conversation's id, title and date, its length in whole
      minutes (rounded up, missing seconds read as 0) under both `duration`
      and `minutes`, the status with `done` shown as `completed`, the
      feedback with its default and the fixed topics. */
  function ToRecentSession(c: Conversation, f: Formats): (s: RecentSession)
    ensures s.id == c.conversationId && s.title == Title(c, f) && s.date == f.isoDate(c.startTimeUnixSecs)
    ensures s.duration == s.minutes && 60 * (s.minutes - 1) < c.callDurationSecs <= 60 * s.minutes
    ensures c.status == "done" ==> s.status == "completed"
    ensures c.status != "done" ==> s.status == c.status
    ensures s.feedback == Feedback(c) && s.topics == Topics
  {
    var minutes := CeilMinutes(c.callDurationSecs);
    RecentSession(
      c.conversationId,
      Title(c, f),
      minutes,
      minutes,
      f.isoDate(c.startTimeUnixSecs),
      if c.status == "done" then "completed" else c.status,
      Feedback(c),
      Topics)
  }

  function Min(a: int, b: int): (m: int)
    ensures m <= a && m <= b && (m == a || m == b)
  {
    if a <= b then a else b
  }

  /** The handler: an empty list without an API key (no upstream call is
      made), on a non-2xx answer and when the call throws; otherwise the
      first ten conversations of the list, in order, as cards. */
  function Get(apiKey: string, upstream: Upstream, f: Formats): (r: seq<RecentSession>)
    ensures apiKey == "" || !upstream.Ok? ==> r == []
    ensures |r| <= MaxRecent
    ensures apiKey != "" && upstream.Ok? ==>
      var cs := ConversationsOf(upstream.conversations);
      |r| == Min(MaxRecent, |cs|) && forall i :: 0 <= i < |r| ==> r[i] == ToRecentSession(cs[i], f)
  {
    if apiKey == "" then []
    else match upstream
      case Threw => []
      case NotOk(_, _) => []
      case Ok(conversations) =>
        var cs := ConversationsOf(conversations);
        var shown := cs[..Min(MaxRecent, |cs|)];
        seq(|shown|, i requires 0 <= i < |shown| => ToRecentSession(shown[i], f))
  }

  /** The cards are the upstream conversations' first ten ids, in order,
      and a list of at most ten conversations is shown whole. */
  lemma {:induction false} GetKeepsUpstreamOrder(apiKey: string, cs: seq<Conversation>, f: Formats)
    requires apiKey != ""
    ensures var r := Get(apiKey, Ok(Some(cs)), f);
      && (|cs| <= MaxRecent ==> |r| == |cs|)
      && (|cs| > MaxRecent ==> |r| == MaxRecent)
      && (forall i :: 0 <= i < |r| ==> r[i].id == cs[i].conversationId)
  {
    var r := Get(apiKey, Ok(Some(cs)), f);
    assert ConversationsOf(Some(cs)) == cs;
    forall i | 0 <= i < |r| ensures r[i].id == cs[i].conversationId {
      assert r[i] == ToRecentSession(cs[i], f);
    }
  }

  /** A call of no length is shown as 0 minutes, a call of up to a minute
      as 1, and one more second past a whole minute adds a minute. */
  lemma {:induction false} MinutesRoundUp(k: nat)
    ensures CeilMinutes(0) == 0
    ensures k > 0 ==> CeilMinutes(60 * k) == k
    ensures CeilMinutes(60 * k + 1) == k + 1
  {
    var a, b := CeilMinutes(60 * k), CeilMinutes(60 * k + 1);
    assert 60 * (a - 1) < 60 * k <= 60 * a;
    assert a - 1 < k <= a;
    assert 60 * (b - 1) < 60 * k + 1 <= 60 * b;
    assert b - 1 <= k < b;
  }
}
