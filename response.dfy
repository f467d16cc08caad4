/**
 * handleDialogFlowResponse and handleDialogFlowAction (app.js): the sentiment
 * sample of a query result, the write into the per-user history, and the
 * first-match chain that picks the reply.
 */
module Response {
  import opened Wrappers
  import opened Payloads
  import opened Routing

  /** The reply chosen by the if/else chain of handleDialogFlowResponse. */
  datatype Reply =
    | SoftCheck                // "Did I say something wrong?"
    | Escalate                 // warning text, then pass thread control to the operator
    | RunAction(action: string)
    | Structured
    | Fallback
    | PlainText(text: string)
    | NoReply

  function Abs(x: real): real
  {
    if x < 0.0 then -x else x
  }

  /** The sample stored for a query result: score and magnitude 0 when no sentiment was computed. */
  function SampleOf(r: QueryResult): (x: SentimentSample)
    ensures x.text == r.queryText
    ensures r.sentimentAnalysisResult.None? ==> x.score == 0.0 && x.magnitude == 0.0
    ensures r.sentimentAnalysisResult.Some? ==>
      x.score == r.sentimentAnalysisResult.value.score && x.magnitude == r.sentimentAnalysisResult.value.magnitude
  {
    var blank := SentimentSample(0.0, 0.0, r.queryText);
    if r.sentimentAnalysisResult.Some? then
      blank.(score := r.sentimentAnalysisResult.value.score, magnitude := r.sentimentAnalysisResult.value.magnitude)
    else
      blank
  }

  /** `differenceInScore`: 0 when there is no earlier sample to compare with. */
  function DifferenceInScore(before: Option<SentimentSample>, current: SentimentSample): (d: real)
    ensures d >= 0.0
    ensures before.None? ==> d == 0.0
    ensures before.Some? ==> d == Abs(before.value.score - current.score)
  {
    if before.None? then 0.0 else Abs(before.value.score - current.score)
  }

  /** The six-branch chain; `hasSentiment` is the truthiness of `sentimentAnalysisResult`. */
  function Decide(
    hasSentiment: bool, score: real, difference: real,
    action: Option<string>, messages: Option<FulfillmentMessages>, responseText: Option<string>): Reply
  {
    if hasSentiment && difference > 0.5 && score < 0.0 && score > -0.6 then SoftCheck
    else if hasSentiment && score < -0.5 then Escalate
    else if Truthy(action) then RunAction(action.value)
    else if messages.Some? then Structured
    else if responseText == Some("") && !Truthy(action) then Fallback
    else if Truthy(responseText) then PlainText(responseText.value)
    else NoReply
  }

  /** handleDialogFlowAction: only the default case, which renders the messages unchanged. */
  function HandleDialogFlowAction(
    sender: Psid, action: string, messages: Option<FulfillmentMessages>,
    contexts: seq<string>, parameters: map<string, string>): seq<Action>
  {
    match action
    case _ => [HandleMessages(messages, sender)]
  }

  function ReplyActions(sender: Psid, r: QueryResult, reply: Reply): seq<Action>
  {
    match reply
    case SoftCheck => [SendText(sender, SOFT_CHECK_TEXT)]
    case Escalate => [SendText(sender, ESCALATION_TEXT), SendPassThread(sender)]
    case RunAction(a) => HandleDialogFlowAction(sender, a, r.fulfillmentMessages, r.outputContexts, r.parameters)
    case Structured => [HandleMessages(r.fulfillmentMessages, sender)]
    case Fallback => [SendText(sender, NOT_SURE_TEXT)]
    case PlainText(t) => [SendText(sender, t)]
    case NoReply => []
  }

  /**
   * The reply of the handler as written: `beforeSentiment` is declared and
   * never assigned, so the difference is computed against no sample at all.
   */
  function DecideAsWritten(r: QueryResult): Reply
    requires r.fulfillmentMessages.Some?
  {
    var beforeSentiment: Option<SentimentSample> := None;
    var sample := SampleOf(r);
    Decide(r.sentimentAnalysisResult.Some?, sample.score, DifferenceInScore(beforeSentiment, sample),
           r.action, r.fulfillmentMessages, r.fulfillmentMessages.value.fulfillmentText)
  }

  /**
   * Everything handleDialogFlowResponse emits for a result whose
   * `fulfillmentMessages` is present (without it, reading `fulfillmentText`
   * off it throws before anything is emitted).
   */
  function ResponseActions(sender: Psid, r: QueryResult): (acts: seq<Action>)
    requires r.fulfillmentMessages.Some?
    ensures |acts| >= 2 && acts[0] == SendTypingOff(sender)
    ensures SendText(sender, SOFT_CHECK_TEXT) !in acts
    ensures SendPassThread(sender) in acts <==>
      r.sentimentAnalysisResult.Some? && r.sentimentAnalysisResult.value.score < -0.5
    ensures r.sentimentAnalysisResult.Some? && r.sentimentAnalysisResult.value.score < -0.5 ==>
      acts == [SendTypingOff(sender), SendText(sender, ESCALATION_TEXT), SendPassThread(sender)]
    ensures !(r.sentimentAnalysisResult.Some? && r.sentimentAnalysisResult.value.score < -0.5) ==>
      acts == [SendTypingOff(sender), HandleMessages(r.fulfillmentMessages, sender)]
    ensures forall a :: a in acts ==> !a.QueryDialogFlow? && !a.FetchProfile? && !a.Acknowledge?
  {
    [SendTypingOff(sender)] + ReplyActions(sender, r, DecideAsWritten(r))
  }

  // ---------------------------------------------------------------------------
  // The decision table
  // ---------------------------------------------------------------------------

  /** The soft check needs a difference above 0.5 and a score in (-0.6, 0). */
  lemma SoftCheckNeedsDifference(
    hasSentiment: bool, score: real, difference: real,
    action: Option<string>, messages: Option<FulfillmentMessages>, responseText: Option<string>)
    ensures Decide(hasSentiment, score, difference, action, messages, responseText) == SoftCheck <==>
      hasSentiment && difference > 0.5 && -0.6 < score < 0.0
  {
  }

  /** With the difference the handler computes, the soft check is never chosen, for any result. */
  lemma SoftCheckUnreachable(r: QueryResult)
    requires r.fulfillmentMessages.Some?
    ensures DecideAsWritten(r) != SoftCheck
  {
  }

  /** Escalation iff a sentiment result is present and its score is below -0.5; a missing result never escalates. */
  lemma EscalatesIff(r: QueryResult)
    requires r.fulfillmentMessages.Some?
    ensures DecideAsWritten(r) == Escalate <==>
      r.sentimentAnalysisResult.Some? && r.sentimentAnalysisResult.value.score < -0.5
  {
  }

  /**
   * Below escalation the first defined value wins: an action, then the
   * messages, then the fallback for an empty text, then the text itself;
   * with none of them nothing is sent.
   */
  lemma DecidePriority(
    hasSentiment: bool, score: real, difference: real,
    action: Option<string>, messages: Option<FulfillmentMessages>, responseText: Option<string>)
    requires !(hasSentiment && score < -0.5)
    requires !(hasSentiment && difference > 0.5 && -0.6 < score < 0.0)
    ensures Truthy(action) ==>
      Decide(hasSentiment, score, difference, action, messages, responseText) == RunAction(action.value)
    ensures !Truthy(action) && messages.Some? ==>
      Decide(hasSentiment, score, difference, action, messages, responseText) == Structured
    ensures !Truthy(action) && messages.None? && responseText == Some("") ==>
      Decide(hasSentiment, score, difference, action, messages, responseText) == Fallback
    ensures !Truthy(action) && messages.None? && Truthy(responseText) ==>
      Decide(hasSentiment, score, difference, action, messages, responseText) == PlainText(responseText.value)
    ensures !Truthy(action) && messages.None? && responseText.None? ==>
      Decide(hasSentiment, score, difference, action, messages, responseText) == NoReply
  {
  }

  /**
   * In the handler as written the messages are always present once the
   * handler gets past its first line, so the fallback and plain-text
   * branches are never taken.
   */
  lemma TextBranchesUnreachable(r: QueryResult)
    requires r.fulfillmentMessages.Some?
    ensures !DecideAsWritten(r).Fallback? && !DecideAsWritten(r).PlainText? && !DecideAsWritten(r).NoReply?
  {
  }

  /** An action, recognised or not, is rendered by the default case: the messages go out unchanged. */
  lemma ActionRendersMessages(sender: Psid, r: QueryResult, a: string)
    ensures ReplyActions(sender, r, RunAction(a)) == ReplyActions(sender, r, Structured)
      == [HandleMessages(r.fulfillmentMessages, sender)]
  {
  }

  // ---------------------------------------------------------------------------
  // Sentiment history
  // ---------------------------------------------------------------------------

  /**
   * Writes `sample` into `sender`'s history at `key`, creating the history if
   * absent; a sample of the same second is overwritten, every other key and
   * every other sender is kept.
   */
  function RecordSample(
    history: map<Psid, map<nat, SentimentSample>>, sender: Psid, key: nat, sample: SentimentSample)
    : (h: map<Psid, map<nat, SentimentSample>>)
    ensures h.Keys == history.Keys + {sender}
    ensures key in h[sender] && h[sender][key] == sample
    ensures forall k :: k in h[sender] && k != key ==> sender in history && k in history[sender]
    ensures sender in history ==>
      forall k :: k in history[sender] && k != key ==> k in h[sender] && h[sender][k] == history[sender][k]
    ensures forall p :: p in history && p != sender ==> h[p] == history[p]
  {
    var snt := if sender in history then history[sender] else map[];
    history[sender := snt[key := sample]]
  }
}
