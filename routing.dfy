/**
 * Classification of inbound events: which handler a messaging event goes to,
 * which branch of the message handler a message takes, and the actions the
 * message, quick-reply and postback branches emit (app.js, receivedMessage,
 * handleQuickReply, receivedPostback).
 */
module Routing {
  import opened Wrappers
  import opened Payloads

  /** JavaScript truthiness of an optional string: present and not empty. */
  predicate Truthy(s: Option<string>)
  {
    s.Some? && s.value != ""
  }

  /** The handler a messaging event is given to by the webhook loop. */
  datatype Route = ToReceivedMessage | ToReceivedPostback | PassThreadIgnored | UnknownLogged

  function RouteOf(ev: MessagingEvent): Route
  {
    if ev.message.Some? then ToReceivedMessage
    else if ev.postback.Some? then ToReceivedPostback
    else if ev.passThreadControl.Some? then PassThreadIgnored
    else UnknownLogged
  }

  /** The events that reach a handler and so touch the session registry. */
  predicate Dispatched(ev: MessagingEvent)
  {
    RouteOf(ev) == ToReceivedMessage || RouteOf(ev) == ToReceivedPostback
  }

  /** The branch receivedMessage takes, first match wins. */
  datatype MessageKind =
    | Echo
    | QuickReplied(quickReply: QuickReply)
    | Text(text: string)
    | Attachments(attachments: seq<Attachment>)
    | Nothing

  function KindOf(m: Message): MessageKind
  {
    if m.isEcho then Echo
    else if m.quickReply.Some? then QuickReplied(m.quickReply.value)
    else if Truthy(m.text) then Text(m.text.value)
    else if m.attachments.Some? then Attachments(m.attachments.value)
    else Nothing
  }

  /** handleQuickReply: its switch has only the default case, which queries Dialogflow with the payload. */
  function HandleQuickReply(sender: Psid, session: string, quickReply: QuickReply): seq<Action>
  {
    match quickReply.payload
    case _ => [QueryDialogFlow(sender, session, quickReply.payload)]
  }

  /** The actions of receivedMessage after the session has been ensured. */
  function MessageActions(sender: Psid, session: string, m: Message): seq<Action>
  {
    match KindOf(m)
    case Echo => [HandleEcho(m.mid, m.appId, m.metadata)]
    case QuickReplied(q) => HandleQuickReply(sender, session, q)
    case Text(t) => [QueryDialogFlow(sender, session, t)]
    case Attachments(a) => [HandleAttachments(a, sender)]
    case Nothing => []
  }

  /** The actions of receivedPostback after the session has been ensured: its switch has only the default case. */
  function PostbackActions(sender: Psid, postback: Postback): seq<Action>
  {
    match postback.payload
    case _ => [SendText(sender, NOT_SURE_TEXT)]
  }

  /**
   * The message branches in priority order: an echo is acknowledged, a quick
   * reply queries with its payload (never the text), a non-empty text is
   * queried, attachments are handed on, and anything else emits nothing.
   * None but the text and quick-reply branches query Dialogflow.
   */
  lemma MessagePriority(sender: Psid, session: string, m: Message)
    ensures m.isEcho ==> MessageActions(sender, session, m) == [HandleEcho(m.mid, m.appId, m.metadata)]
    ensures !m.isEcho && m.quickReply.Some? ==>
      MessageActions(sender, session, m) == [QueryDialogFlow(sender, session, m.quickReply.value.payload)]
    ensures !m.isEcho && m.quickReply.None? && m.text.Some? && m.text.value != "" ==>
      MessageActions(sender, session, m) == [QueryDialogFlow(sender, session, m.text.value)]
    ensures !m.isEcho && m.quickReply.None? && (m.text.None? || m.text.value == "") && m.attachments.Some? ==>
      MessageActions(sender, session, m) == [HandleAttachments(m.attachments.value, sender)]
    ensures !m.isEcho && m.quickReply.None? && (m.text.None? || m.text.value == "") && m.attachments.None? ==>
      MessageActions(sender, session, m) == []
    ensures forall a :: a in MessageActions(sender, session, m) && a.QueryDialogFlow? ==>
      a.sender == sender && a.session == session
  {
  }

  /** Every postback, whatever its payload, is answered with the fixed "not sure" text. */
  lemma PostbackAlwaysNotSure(sender: Psid, p: Postback, q: Postback)
    ensures PostbackActions(sender, p) == PostbackActions(sender, q) == [SendText(sender, NOT_SURE_TEXT)]
  {
  }
}
