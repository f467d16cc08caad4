/**
 * The handlers of app.js as methods of one object that owns the three
 * module-level maps and the log of outbound actions. Every method is proved
 * to leave the object in the state the matching function of Transitions
 * computes, and to keep Valid().
 */
module App {
  import opened Wrappers
  import opened Payloads
  import opened Routing
  import opened Response
  import T = Transitions

  class Bot {
    var sessionIds: map<Psid, string>
    var usersMap: map<Psid, UserProfile>
    var usersSentiment: map<Psid, map<nat, SentimentSample>>
    var outbox: seq<Action>

    function Snapshot(): T.BotState
      reads this
    {
      T.BotState(sessionIds, usersMap, usersSentiment, outbox)
    }

    predicate Valid()
      reads this
    {
      T.Consistent(Snapshot())
    }

    constructor ()
      ensures Valid() && Snapshot() == T.Initial
    {
      sessionIds := map[];
      usersMap := map[];
      usersSentiment := map[];
      outbox := [];
    }

    method SetSessionAndUser(sender: Psid, freshId: string)
      requires Valid()
      modifies this
      ensures Valid() && Snapshot() == T.SetSessionAndUser(old(Snapshot()), sender, freshId)
    {
      if sender !in sessionIds {
        sessionIds := sessionIds[sender := freshId];
      }
      if sender !in usersMap {
        // the profile fetch's callback is never invoked, so usersMap is not written
        outbox := outbox + [FetchProfile(sender)];
      }
    }

    method HandleQuickReply(sender: Psid, quickReply: QuickReply)
      requires Valid() && sender in sessionIds
      modifies this
      ensures Valid() && Snapshot() == old(Snapshot()).(outbox :=
        old(outbox) + Routing.HandleQuickReply(sender, old(sessionIds[sender]), quickReply))
    {
      outbox := outbox + [QueryDialogFlow(sender, sessionIds[sender], quickReply.payload)];
    }

    method ReceivedMessage(event: MessagingEvent, freshId: string)
      requires Valid() && event.message.Some?
      modifies this
      ensures Valid() && Snapshot() == T.ReceivedMessage(old(Snapshot()), event, freshId)
    {
      var senderID := event.sender;
      var message := event.message.value;
      SetSessionAndUser(senderID, freshId);
      match KindOf(message)
      case Echo =>
        outbox := outbox + [HandleEcho(message.mid, message.appId, message.metadata)];
      case QuickReplied(quickReply) =>
        HandleQuickReply(senderID, quickReply);
      case Text(messageText) =>
        outbox := outbox + [QueryDialogFlow(senderID, sessionIds[senderID], messageText)];
      case Attachments(messageAttachments) =>
        outbox := outbox + [HandleAttachments(messageAttachments, senderID)];
      case Nothing =>
    }

    method ReceivedPostback(event: MessagingEvent, freshId: string)
      requires Valid() && event.postback.Some?
      modifies this
      ensures Valid() && Snapshot() == T.ReceivedPostback(old(Snapshot()), event, freshId)
    {
      var senderID := event.sender;
      SetSessionAndUser(senderID, freshId);
      outbox := outbox + [SendText(senderID, NOT_SURE_TEXT)];
    }

    /** One messaging event of the webhook loop: exactly one of four branches. */
    method HandleEvent(messagingEvent: MessagingEvent, freshId: string)
      requires Valid()
      modifies this
      ensures Valid() && Snapshot() == T.Dispatch(old(Snapshot()), messagingEvent, freshId)
    {
      if messagingEvent.message.Some? {
        ReceivedMessage(messagingEvent, freshId);
      } else if messagingEvent.postback.Some? {
        ReceivedPostback(messagingEvent, freshId);
      } else if messagingEvent.passThreadControl.Some? {
        // the thread-control metadata is not used
      } else {
        // an unknown event is only logged
      }
    }

    /**
     * The body of the per-entry loop of POST /webhook/; the j-th messaging
     * event of the entry draws its fresh session id from `uuids(k + j)`.
     */
    method HandleEntry(pageEntry: PageEntry, uuids: nat -> string, k: nat)
      requires Valid()
      modifies this
      ensures Valid() && Snapshot() == T.Events(old(Snapshot()), T.MessagingOf(pageEntry), uuids, k)
    {
      if pageEntry.standby.Some? {
        // standby events are read and never dispatched
        var standby := pageEntry.standby.value;
        var j := 0;
        while j < |standby|
          invariant 0 <= j <= |standby|
        {
          var psid := standby[j].sender;
          var message := standby[j].message;
          j := j + 1;
        }
      }
      if pageEntry.messaging.Some? {
        var messaging := pageEntry.messaging.value;
        var j := 0;
        while j < |messaging|
          invariant 0 <= j <= |messaging|
          invariant Valid()
          invariant Snapshot() == T.Events(old(Snapshot()), messaging[..j], uuids, k)
        {
          assert messaging[..j + 1][..j] == messaging[..j];
          HandleEvent(messaging[j], uuids(k + j));
          j := j + 1;
        }
        assert messaging[..j] == messaging;
      }
    }

    /**
     * POST /webhook/. The k-th messaging event of the delivery, counted across
     * entries, draws its fresh session id from `uuids(k)`.
     */
    method Webhook(data: WebhookBody, uuids: nat -> string)
      requires Valid()
      modifies this
      ensures Valid() && Snapshot() == T.Webhook(old(Snapshot()), data, uuids)
    {
      if data.objectType == "page" {
        var i, k := 0, 0;
        while i < |data.entry|
          invariant 0 <= i <= |data.entry|
          invariant k == T.Count(data.entry[..i])
          invariant Valid()
          invariant Snapshot() == T.Entries(old(Snapshot()), data.entry[..i], uuids)
        {
          HandleEntry(data.entry[i], uuids, k);
          assert data.entry[..i + 1][..i] == data.entry[..i];
          k := k + |T.MessagingOf(data.entry[i])|;
          i := i + 1;
        }
        assert data.entry[..i] == data.entry;
        outbox := outbox + [Acknowledge];
      }
    }

    /**
     * handleDialogFlowResponse. `thrown` is true when `fulfillmentMessages` is
     * missing: reading `fulfillmentText` off it throws before anything happens.
     */
    method HandleDialogFlowResponse(sender: Psid, response: QueryResult, nowMillis: nat) returns (thrown: bool)
      requires Valid()
      modifies this
      ensures thrown == response.fulfillmentMessages.None?
      ensures Valid() && Snapshot() == T.HandleDialogFlowResponse(old(Snapshot()), sender, response, nowMillis)
    {
      if response.fulfillmentMessages.None? {
        return true;
      }
      thrown := false;
      var responseText := response.fulfillmentMessages.value.fulfillmentText;
      var messages := response.fulfillmentMessages;
      var action := response.action;

      outbox := outbox + [SendTypingOff(sender)];

      var sentimentResult := SampleOf(response);
      var beforeSentiment: Option<SentimentSample> := None;   // declared and never assigned
      usersSentiment := RecordSample(usersSentiment, sender, nowMillis / 1000, sentimentResult);

      var differenceInScore := DifferenceInScore(beforeSentiment, sentimentResult);
      var reply := Decide(response.sentimentAnalysisResult.Some?, sentimentResult.score, differenceInScore,
                          action, messages, responseText);
      outbox := outbox + ReplyActions(sender, response, reply);
    }
  }
}
