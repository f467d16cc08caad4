/**
 * The state of the bot as a value — the three module-level maps of app.js
 * (`sessionIds`, `usersMap`, `usersSentiment`) and the log of outbound
 * actions — and one transition function per handler. The class App.Bot is
 * proved to follow these functions; the lemmas here state what the handlers
 * and whole webhook deliveries do to the registry.
 */
module Transitions {
  import opened Wrappers
  import opened Payloads
  import opened Routing
  import opened Response

  datatype BotState = BotState(
    sessionIds: map<Psid, string>,
    usersMap: map<Psid, UserProfile>,
    usersSentiment: map<Psid, map<nat, SentimentSample>>,
    outbox: seq<Action>)

  const Initial := BotState(map[], map[], map[], [])

  /**
   * The invariant of every reachable state: the profile cache stays empty
   * (userService.addUser never invokes its callback), and every Dialogflow
   * query that was sent carries its sender's current session id.
   */
  predicate Consistent(s: BotState)
  {
    && s.usersMap == map[]
    && forall a :: a in s.outbox && a.QueryDialogFlow? ==>
         a.sender in s.sessionIds && s.sessionIds[a.sender] == a.session
  }

  /** `t` is a later state than `s`: no session id replaced or removed, the action log only appended to. */
  predicate Extends(s: BotState, t: BotState)
  {
    && (forall p :: p in s.sessionIds ==> p in t.sessionIds && t.sessionIds[p] == s.sessionIds[p])
    && s.outbox <= t.outbox
    && t.usersMap == s.usersMap
  }

  lemma ExtendsTransitive(s: BotState, u: BotState, t: BotState)
    requires Extends(s, u) && Extends(u, t)
    ensures Extends(s, t)
  {
  }

  // ---------------------------------------------------------------------------
  // One handler each
  // ---------------------------------------------------------------------------

  /**
   * setSessionAndUser: get-or-create of the session id, and a profile fetch
   * whenever the profile cache lacks the sender.
   */
  function SetSessionAndUser(s: BotState, sender: Psid, freshId: string): (t: BotState)
    ensures t.sessionIds.Keys == s.sessionIds.Keys + {sender}
    ensures forall p :: p in s.sessionIds ==> t.sessionIds[p] == s.sessionIds[p]
    ensures sender !in s.sessionIds ==> t.sessionIds[sender] == freshId
    ensures t.outbox == s.outbox + (if sender in s.usersMap then [] else [FetchProfile(sender)])
    ensures t.usersMap == s.usersMap && t.usersSentiment == s.usersSentiment
  {
    var ids := if sender in s.sessionIds then s.sessionIds else s.sessionIds[sender := freshId];
    var fetch := if sender in s.usersMap then [] else [FetchProfile(sender)];
    s.(sessionIds := ids, outbox := s.outbox + fetch)
  }

  /** receivedMessage: the session is ensured first, whatever branch the message then takes. */
  function ReceivedMessage(s: BotState, ev: MessagingEvent, freshId: string): BotState
    requires ev.message.Some?
  {
    var t := SetSessionAndUser(s, ev.sender, freshId);
    t.(outbox := t.outbox + MessageActions(ev.sender, t.sessionIds[ev.sender], ev.message.value))
  }

  /** receivedPostback: the session is ensured, then the fixed "not sure" text is sent. */
  function ReceivedPostback(s: BotState, ev: MessagingEvent, freshId: string): BotState
    requires ev.postback.Some?
  {
    var t := SetSessionAndUser(s, ev.sender, freshId);
    t.(outbox := t.outbox + PostbackActions(ev.sender, ev.postback.value))
  }

  /** One messaging event of the webhook loop. */
  function Dispatch(s: BotState, ev: MessagingEvent, freshId: string): BotState
  {
    match RouteOf(ev)
    case ToReceivedMessage => ReceivedMessage(s, ev, freshId)
    case ToReceivedPostback => ReceivedPostback(s, ev, freshId)
    case PassThreadIgnored => s
    case UnknownLogged => s
  }

  /** The messaging events of one entry in array order; the event at index j draws the id `uuids(k + j)`. */
  function Events(s: BotState, evs: seq<MessagingEvent>, uuids: nat -> string, k: nat): BotState
    decreases |evs|
  {
    if evs == [] then s
    else
      var n := |evs| - 1;
      Dispatch(Events(s, evs[..n], uuids, k), evs[n], uuids(k + n))
  }

  function MessagingOf(e: PageEntry): seq<MessagingEvent>
  {
    if e.messaging.Some? then e.messaging.value else []
  }

  /** The number of messaging events in a list of entries. */
  function Count(es: seq<PageEntry>): nat
  {
    if es == [] then 0 else Count(es[..|es| - 1]) + |MessagingOf(es[|es| - 1])|
  }

  /** The entries of one delivery in array order; standby events are read and never dispatched. */
  function Entries(s: BotState, es: seq<PageEntry>, uuids: nat -> string): BotState
    decreases |es|
  {
    if es == [] then s
    else
      var n := |es| - 1;
      Events(Entries(s, es[..n], uuids), MessagingOf(es[n]), uuids, Count(es[..n]))
  }

  /** The POST /webhook/ handler: a non-page body is ignored and gets no 200. */
  function Webhook(s: BotState, body: WebhookBody, uuids: nat -> string): BotState
  {
    if body.objectType == "page" then
      var t := Entries(s, body.entry, uuids);
      t.(outbox := t.outbox + [Acknowledge])
    else
      s
  }

  /**
   * handleDialogFlowResponse: without `fulfillmentMessages` the first line
   * throws and nothing happens; otherwise the sample is stored under the
   * current second and the reply actions are emitted.
   */
  function HandleDialogFlowResponse(s: BotState, sender: Psid, r: QueryResult, nowMillis: nat): BotState
  {
    if r.fulfillmentMessages.None? then s
    else
      s.(usersSentiment := RecordSample(s.usersSentiment, sender, nowMillis / 1000, SampleOf(r)),
         outbox := s.outbox + ResponseActions(sender, r))
  }

  // ---------------------------------------------------------------------------
  // Session registry
  // ---------------------------------------------------------------------------

  /** A second call for the same sender changes no session id, whatever fresh id it is given. */
  lemma SessionIdempotent(s: BotState, sender: Psid, id1: string, id2: string)
    ensures SetSessionAndUser(SetSessionAndUser(s, sender, id1), sender, id2).sessionIds
         == SetSessionAndUser(s, sender, id1).sessionIds
  {
  }

  /**
   * Every event that reaches a handler leaves its sender with a session, emits
   * a profile fetch (the cache never fills), and appends its own actions after
   * that fetch.
   */
  lemma DispatchEnsuresSession(s: BotState, ev: MessagingEvent, freshId: string)
    requires Consistent(s) && Dispatched(ev)
    ensures ev.sender in Dispatch(s, ev, freshId).sessionIds
    ensures |Dispatch(s, ev, freshId).outbox| > |s.outbox|
    ensures Dispatch(s, ev, freshId).outbox[|s.outbox|] == FetchProfile(ev.sender)
  {
  }

  /** A handled event keeps the invariant and only extends the state. */
  lemma DispatchKeeps(s: BotState, ev: MessagingEvent, freshId: string)
    requires Consistent(s)
    ensures Consistent(Dispatch(s, ev, freshId)) && Extends(s, Dispatch(s, ev, freshId))
  {
  }

  /** Pass-thread-control and unknown events change nothing. */
  lemma IgnoredEventsChangeNothing(s: BotState, ev: MessagingEvent, freshId: string)
    requires !Dispatched(ev)
    ensures Dispatch(s, ev, freshId) == s
  {
  }

  /** A message shadows a postback and a pass-thread-control in the same event. */
  lemma MessageTakesPrecedence(s: BotState, ev: MessagingEvent, freshId: string)
    requires ev.message.Some?
    ensures Dispatch(s, ev, freshId) == Dispatch(s, ev.(postback := None, passThreadControl := None), freshId)
  {
  }

  /** A postback shadows a pass-thread-control in the same event. */
  lemma PostbackTakesPrecedence(s: BotState, ev: MessagingEvent, freshId: string)
    requires ev.message.None? && ev.postback.Some?
    ensures Dispatch(s, ev, freshId) == Dispatch(s, ev.(passThreadControl := None), freshId)
  {
  }

  // ---------------------------------------------------------------------------
  // Whole deliveries
  // ---------------------------------------------------------------------------

  /** A batch of events keeps the invariant and only extends the state. */
  lemma {:induction false} EventsKeep(s: BotState, evs: seq<MessagingEvent>, uuids: nat -> string, k: nat)
    requires Consistent(s)
    ensures Consistent(Events(s, evs, uuids, k)) && Extends(s, Events(s, evs, uuids, k))
    decreases |evs|
  {
    if evs != [] {
      var n := |evs| - 1;
      var u := Events(s, evs[..n], uuids, k);
      var t := Dispatch(u, evs[n], uuids(k + n));
      assert Events(s, evs, uuids, k) == t;
      EventsKeep(s, evs[..n], uuids, k);
      DispatchKeeps(u, evs[n], uuids(k + n));
      ExtendsTransitive(s, u, t);
    }
  }

  lemma {:induction false} EntriesKeep(s: BotState, es: seq<PageEntry>, uuids: nat -> string)
    requires Consistent(s)
    ensures Consistent(Entries(s, es, uuids)) && Extends(s, Entries(s, es, uuids))
    decreases |es|
  {
    if es != [] {
      var n := |es| - 1;
      var u := Entries(s, es[..n], uuids);
      EntriesKeep(s, es[..n], uuids);
      EventsKeep(u, MessagingOf(es[n]), uuids, Count(es[..n]));
      ExtendsTransitive(s, u, Entries(s, es, uuids));
    }
  }

  /**
   * A delivery keeps the invariant, never replaces or removes a session id,
   * leaves the profile cache empty and only appends to the action log.
   */
  lemma WebhookKeeps(s: BotState, body: WebhookBody, uuids: nat -> string)
    requires Consistent(s)
    ensures Consistent(Webhook(s, body, uuids)) && Extends(s, Webhook(s, body, uuids))
  {
    if body.objectType == "page" {
      EntriesKeep(s, body.entry, uuids);
    }
  }

  /** A body that is not a page subscription is ignored: nothing dispatched, no 200. */
  lemma NonPageIgnored(s: BotState, body: WebhookBody, uuids: nat -> string)
    requires body.objectType != "page"
    ensures Webhook(s, body, uuids) == s
  {
  }

  /** A page body is acknowledged with a 200 after all its events, however many there are. */
  lemma PageAcknowledged(s: BotState, body: WebhookBody, uuids: nat -> string)
    requires body.objectType == "page"
    ensures |Webhook(s, body, uuids).outbox| > 0
    ensures Webhook(s, body, uuids).outbox[|Webhook(s, body, uuids).outbox| - 1] == Acknowledge
  {
  }

  /** Events are handled in array order: a batch is its first part followed by the rest. */
  lemma {:induction false} EventsInOrder(
    s: BotState, a: seq<MessagingEvent>, b: seq<MessagingEvent>, uuids: nat -> string, k: nat)
    ensures Events(s, a + b, uuids, k) == Events(Events(s, a, uuids, k), b, uuids, k + |a|)
    decreases |b|
  {
    if b == [] {
      assert a + b == a;
    } else {
      var n := |b| - 1;
      assert (a + b)[..|a + b| - 1] == a + b[..n];
      assert (a + b)[|a + b| - 1] == b[n];
      EventsInOrder(s, a, b[..n], uuids, k);
    }
  }

  /** After a batch, the sender of every event that reached a handler has a session. */
  lemma {:induction false} EventsAssignSessions(s: BotState, evs: seq<MessagingEvent>, uuids: nat -> string, k: nat)
    requires Consistent(s)
    ensures forall j :: 0 <= j < |evs| && Dispatched(evs[j]) ==> evs[j].sender in Events(s, evs, uuids, k).sessionIds
    decreases |evs|
  {
    if evs != [] {
      var n := |evs| - 1;
      var u := Events(s, evs[..n], uuids, k);
      EventsAssignSessions(s, evs[..n], uuids, k);
      EventsKeep(s, evs[..n], uuids, k);
      DispatchKeeps(u, evs[n], uuids(k + n));
      if Dispatched(evs[n]) {
        DispatchEnsuresSession(u, evs[n], uuids(k + n));
      }
      forall j | 0 <= j < n && Dispatched(evs[j])
        ensures evs[j].sender in Events(s, evs, uuids, k).sessionIds
      {
        assert evs[..n][j] == evs[j];
      }
    }
  }

  lemma {:induction false} EntriesAssignSessions(s: BotState, es: seq<PageEntry>, uuids: nat -> string)
    requires Consistent(s)
    ensures forall i, j :: 0 <= i < |es| && 0 <= j < |MessagingOf(es[i])| && Dispatched(MessagingOf(es[i])[j]) ==>
      MessagingOf(es[i])[j].sender in Entries(s, es, uuids).sessionIds
    decreases |es|
  {
    if es != [] {
      var n := |es| - 1;
      var u := Entries(s, es[..n], uuids);
      EntriesAssignSessions(s, es[..n], uuids);
      EntriesKeep(s, es[..n], uuids);
      EventsKeep(u, MessagingOf(es[n]), uuids, Count(es[..n]));
      EventsAssignSessions(u, MessagingOf(es[n]), uuids, Count(es[..n]));
      forall i, j | 0 <= i < n && 0 <= j < |MessagingOf(es[i])| && Dispatched(MessagingOf(es[i])[j])
        ensures MessagingOf(es[i])[j].sender in Entries(s, es, uuids).sessionIds
      {
        assert es[..n][i] == es[i];
      }
    }
  }

  /** Two lists of entries with the same messaging events but any standby events. */
  predicate SameMessaging(es: seq<PageEntry>, fs: seq<PageEntry>)
  {
    |es| == |fs| && forall i :: 0 <= i < |es| ==> es[i].messaging == fs[i].messaging
  }

  /** Standby events never reach a handler: a delivery's effect does not depend on them. */
  lemma {:induction false} StandbyIgnored(s: BotState, es: seq<PageEntry>, fs: seq<PageEntry>, uuids: nat -> string)
    requires SameMessaging(es, fs)
    ensures Entries(s, es, uuids) == Entries(s, fs, uuids)
    ensures Count(es) == Count(fs)
    decreases |es|
  {
    if es != [] {
      var n := |es| - 1;
      assert SameMessaging(es[..n], fs[..n]) by {
        forall i | 0 <= i < n ensures es[..n][i].messaging == fs[..n][i].messaging {
          assert es[..n][i] == es[i] && fs[..n][i] == fs[i];
        }
      }
      StandbyIgnored(s, es[..n], fs[..n], uuids);
      assert MessagingOf(es[n]) == MessagingOf(fs[n]);
    }
  }

  // ---------------------------------------------------------------------------
  // Responses
  // ---------------------------------------------------------------------------

  /** A response keeps the invariant and only extends the state. */
  lemma ResponseKeeps(s: BotState, sender: Psid, r: QueryResult, nowMillis: nat)
    requires Consistent(s)
    ensures Consistent(HandleDialogFlowResponse(s, sender, r, nowMillis))
    ensures Extends(s, HandleDialogFlowResponse(s, sender, r, nowMillis))
  {
  }

  /**
   * A response that does not throw writes exactly one sample, under the
   * current second, into the sender's history, keeps the session registry,
   * and never sends the soft-check text.
   */
  lemma ResponseRecordsSample(s: BotState, sender: Psid, r: QueryResult, nowMillis: nat)
    requires r.fulfillmentMessages.Some?
    ensures var t := HandleDialogFlowResponse(s, sender, r, nowMillis);
      && t.sessionIds == s.sessionIds
      && sender in t.usersSentiment
      && t.usersSentiment[sender][nowMillis / 1000] == SampleOf(r)
      && (forall p :: p in s.usersSentiment && p != sender ==> t.usersSentiment[p] == s.usersSentiment[p])
      && t.outbox[|s.outbox|] == SendTypingOff(sender)
      && SendText(sender, SOFT_CHECK_TEXT) !in t.outbox[|s.outbox|..]
  {
  }
}
