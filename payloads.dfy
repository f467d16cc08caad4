/**
 * The values that flow through the bot: the Messenger webhook body, the
 * Dialogflow query result, the per-user sentiment samples, and the outbound
 * actions (calls into fbService, the Dialogflow service and the user service)
 * that the bot emits instead of performing them.
 */
module Payloads {
  import opened Wrappers

  /** A page-scoped participant id: the key of all per-user state. */
  type Psid = string

  // ---------------------------------------------------------------------------
  // Webhook body
  // ---------------------------------------------------------------------------

  datatype QuickReply = QuickReply(payload: string)

  datatype Attachment = Attachment(kind: string, url: string)

  /** The `message` object of a messaging event; `isEcho` is false when `is_echo` is absent. */
  datatype Message = Message(
    isEcho: bool,
    mid: Option<string>,
    appId: Option<string>,
    metadata: Option<string>,
    text: Option<string>,
    attachments: Option<seq<Attachment>>,
    quickReply: Option<QuickReply>)

  datatype Postback = Postback(payload: string)

  datatype ThreadControl = ThreadControl(metadata: Option<string>)

  datatype MessagingEvent = MessagingEvent(
    sender: Psid,
    recipient: Psid,
    timestamp: int,
    message: Option<Message>,
    postback: Option<Postback>,
    passThreadControl: Option<ThreadControl>)

  /** An event of the standby channel, received while another app controls the thread. */
  datatype StandbyEvent = StandbyEvent(sender: Psid, message: Option<Message>)

  datatype PageEntry = PageEntry(
    id: string,
    time: int,
    messaging: Option<seq<MessagingEvent>>,
    standby: Option<seq<StandbyEvent>>)

  datatype WebhookBody = WebhookBody(objectType: string, entry: seq<PageEntry>)

  // ---------------------------------------------------------------------------
  // Dialogflow query result
  // ---------------------------------------------------------------------------

  /** `sentimentAnalysisResult.queryTextSentiment`. */
  datatype Sentiment = Sentiment(score: real, magnitude: real)

  datatype RichMessage = RichMessage(platform: string, content: string)

  /**
   * `fulfillmentMessages`: the rich messages, together with the
   * `fulfillmentText` property that the handler reads off this value
   * (a plain Dialogflow array has none).
   */
  datatype FulfillmentMessages = FulfillmentMessages(items: seq<RichMessage>, fulfillmentText: Option<string>)

  datatype QueryResult = QueryResult(
    queryText: string,
    fulfillmentMessages: Option<FulfillmentMessages>,
    action: Option<string>,
    outputContexts: seq<string>,
    parameters: map<string, string>,
    sentimentAnalysisResult: Option<Sentiment>)

  /** One entry of a user's sentiment history. */
  datatype SentimentSample = SentimentSample(score: real, magnitude: real, text: string)

  /** A cached Graph API profile (the cache is never filled, see Transitions.Consistent). */
  datatype UserProfile = UserProfile(firstName: Option<string>, lastName: Option<string>)

  // ---------------------------------------------------------------------------
  // Outbound actions
  // ---------------------------------------------------------------------------

  datatype Action =
    | Acknowledge                                                    // res.sendStatus(200)
    | FetchProfile(user: Psid)                                       // userService.addUser
    | QueryDialogFlow(sender: Psid, session: string, text: string)   // dialogflowService.sendTextQueryToDialogFlow
    | HandleEcho(mid: Option<string>, appId: Option<string>, metadata: Option<string>)
    | HandleAttachments(attachments: seq<Attachment>, recipient: Psid)
    | SendTypingOff(recipient: Psid)
    | SendText(recipient: Psid, text: string)
    | HandleMessages(messages: Option<FulfillmentMessages>, recipient: Psid)
    | SendPassThread(recipient: Psid)

  const NOT_SURE_TEXT := "I'm not sure what you want. Can you be more specific?"
  const SOFT_CHECK_TEXT := "Did I say something wrong? Type help to find out how I can serve you better."
  const ESCALATION_TEXT := "I sense you are not satisfied with my answers. Let me call Jana for you. She should be here ASAP."
}
