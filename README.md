# Messenger bot webhook core, modelled in Dafny

This project models the decision core of a Facebook Messenger bot backed by
Dialogflow (`app.js`). A webhook delivery arrives as a batch of page entries.
Each messaging event goes to at most one handler. The handler keeps a session id per
participant and classifies the message or postback. A text or quick-reply
message is sent to Dialogflow as a query; a postback is answered with a fixed
text and never queries Dialogflow. When the query result comes back, the bot
records a sentiment sample and picks a reply. A very negative sentiment passes
thread control to a human operator.

The model has six modules:

- `Wrappers` (`wrappers.dfy`): `Option`, which stands for a JavaScript value that may be `undefined`.
- `Payloads` (`payloads.dfy`): the webhook body, the Dialogflow query result, sentiment samples, and the outbound `Action`s. Every send or handle call into `fbService`, the Dialogflow query and the user-service fetch are recorded as actions and not performed. The module also holds the three fixed reply texts.
- `Routing` (`routing.dfy`): pure classification. It decides which handler a messaging event goes to (message, then postback, then pass-thread-control, then unknown). It decides which branch `receivedMessage` takes (echo, then quick reply, then non-empty text, then attachments). It also gives the actions of the quick-reply and postback switches.
- `Response` (`response.dfy`): the pure part of `handleDialogFlowResponse`. It builds the sentiment sample and runs the six-branch reply chain (`Decide`). `ReplyActions` turns the chosen reply into actions, and `RecordSample` writes the sample into the history.
- `Transitions` (`transitions.dfy`): the three module-level maps and the action log as one value, `BotState`. It has one transition function per handler and folds over the events and entries of a delivery. Its lemmas cover the session registry, the invariant, standby events, order, and responses.
- `App` (`app.dfy`): the class `Bot`. Its fields are `sessionIds`, `usersMap`, `usersSentiment` and the action log. Its methods are the handlers, written imperatively with the loops of the webhook handler. Each method keeps `Valid()` and is proved to reach exactly the state that a function computes from the old state: the matching `Transitions` function for every handler, and `Routing.HandleQuickReply` for the quick-reply switch. The methods call the pure decision functions (`KindOf`, `SampleOf`, `RecordSample`, `Decide`, `ReplyActions`) rather than repeating them.

External inputs become parameters:

- `uuid.v1()` becomes a fresh id passed to `SetSessionAndUser`. A delivery takes a generator `uuids: nat -> string`, and the k-th messaging event of the delivery, counted across entries, uses `uuids(k)`.
- `Date.now()` becomes `nowMillis: nat`. The history key is `nowMillis / 1000`, which is the floor for a non-negative time.
- The Dialogflow reply is delivered by calling `HandleDialogFlowResponse` with the query result.

Consequences of the code as written:

- `beforeSentiment` is declared at app.js:220 and never assigned. The history is read back at app.js:222-223 only to be extended; nothing compares the new sample against it, so `differenceInScore` at app.js:231-232 is always 0. The "Did I say something wrong?" branch at app.js:234-238 is therefore never taken (`Response.SoftCheckUnreachable`). The model keeps this and does not compare against the previous sample.
- app.js:195 reads `responseText` as `response.fulfillmentMessages.fulfillmentText`. The model keeps this property where the code reads it: `FulfillmentMessages.fulfillmentText`. Two things follow:
  - If `fulfillmentMessages` is missing, app.js:195 throws before anything is emitted. `App.Bot.HandleDialogFlowResponse` then returns `thrown` and changes nothing.
  - If it is present, `isDefined(messages)` at app.js:248 holds. So every result that neither escalates nor carries an action takes that branch, and app.js:250-254 are dead once app.js:195 has succeeded (`Response.TextBranchesUnreachable`). `Response.DecidePriority` states the order of the four non-sentiment branches of `Decide` for every input that neither escalates nor takes the soft check. `Response.SoftCheckNeedsDifference` and `Response.EscalatesIff` state the two sentiment branches.
- `fbService.isDefined` is not part of this model. It is taken as JavaScript truthiness: a present value, and a non-empty one for strings. So an empty `action` counts as undefined. `if (messageText)` is truthiness too: an empty text falls through to the attachments branch.
- `userService.addUser` never invokes its callback (services/user-service.js:7-17). So `usersMap` stays empty, which is part of the invariant `Transitions.Consistent`, and every handled event issues the profile fetch again.

## Model

| member | source | states |
|---|---|---|
| Routing.MessagePriority | app.js:144-169 | First match wins: an echo is acknowledged; a quick reply queries Dialogflow with its payload and not the text; a non-empty text is queried; attachments are handed to the attachment handler; a message with none of these emits nothing. Queries carry the sender and the given session. |
| Routing.PostbackAlwaysNotSure | app.js:275-284 | Every postback payload, whatever it is, gets the same single reply: the fixed "I'm not sure what you want. Can you be more specific?" text. |
| Response.SampleOf | app.js:208-217 | The sample's text is the query text. Score and magnitude are 0 when no sentiment result is present, and the result's values otherwise. |
| Response.DifferenceInScore | app.js:231-232 | The difference is never negative: it is 0 when there is no earlier sample, and the absolute difference of the two scores otherwise. |
| Response.SoftCheckNeedsDifference | app.js:234-238 | The soft check is chosen iff a sentiment result is present, the difference exceeds 0.5 and the score lies in (-0.6, 0). |
| Response.SoftCheckUnreachable | app.js:219-238 | With `beforeSentiment` never assigned, the soft check is not chosen for any query result. |
| Response.EscalatesIff | app.js:240-245 | Escalation is chosen iff a sentiment result is present and its score is below -0.5. A missing result never escalates. |
| Response.DecidePriority | app.js:246-255 | For any sentiment and difference that choose neither the soft check nor escalation, the first defined value wins: an action, then the messages, then the fallback text for an empty response text, then the response text. With none of them nothing is sent. |
| Response.TextBranchesUnreachable | app.js:195-255 | Once the handler gets past reading `fulfillmentText` off the messages, the fallback and plain-text branches are never taken, and some reply is always chosen. |
| Response.ActionRendersMessages | app.js:184-191 | Any action name, recognised or not, falls to the default case. That case renders the fulfillment messages unchanged, exactly as the structured-messages branch does. |
| Response.ResponseActions | app.js:194-256 | Typing-off is emitted first. The soft-check text is never sent. Pass-thread is sent iff a sentiment score below -0.5 is present; then the actions are exactly the warning text and pass-thread. Otherwise the actions are exactly the rendering of the messages. No query, profile fetch or acknowledgement is emitted. |
| Response.RecordSample | app.js:219-229 | The sample is stored for the sender at the given second, creating the history if needed. An earlier sample of the same second is overwritten. Every other second of the sender and every other sender keep their samples, and no key appears from nowhere. |
| Transitions.SetSessionAndUser | app.js:124-134 | After the call the sender has a session id. An existing id is never replaced, and no other sender's id changes. A new sender gets the fresh id. A profile fetch is emitted iff the profile cache lacks the sender. The profile cache and the sentiment history are untouched. |
| Transitions.SessionIdempotent | app.js:124-127 | A second call for the same sender leaves every session id as the first call left it, whatever fresh id it is given. |
| Transitions.DispatchEnsuresSession | app.js:124-134 | In every reachable state, an event that reaches a handler leaves its sender with a session id. Its first action is a new profile fetch for the sender, because the cache never fills. |
| Transitions.DispatchKeeps | app.js:99-113 | Handling one event keeps the invariant (empty profile cache, every sent query carries its sender's current session id). It never replaces a session id and only appends to the action log. |
| Transitions.IgnoredEventsChangeNothing | app.js:108-112 | Pass-thread-control and unknown events change neither the maps nor the action log. |
| Transitions.MessageTakesPrecedence | app.js:102-104 | An event with a message is handled as a message, whatever postback or pass-thread-control it also carries. |
| Transitions.PostbackTakesPrecedence | app.js:105-109 | An event with a postback and no message is handled as a postback, whatever pass-thread-control it also carries. |
| Transitions.EventsKeep | app.js:97-114 | The events of one entry, handled in array order, keep the invariant. They never replace a session id and only append to the action log. |
| Transitions.EntriesKeep | app.js:83-115 | The same holds for all entries of a delivery. |
| Transitions.WebhookKeeps | app.js:77-121 | A whole delivery keeps the invariant, never replaces or removes a session id, leaves the profile cache empty and only appends to the action log. |
| Transitions.NonPageIgnored | app.js:80-120 | A body whose object is not "page" dispatches nothing and gets no 200. |
| Transitions.PageAcknowledged | app.js:117-119 | A page body always ends with the 200 acknowledgement, after all of its events. |
| Transitions.EventsInOrder | app.js:99-113 | Handling events is sequential in array order: a batch is its first part followed by the rest, and the rest continues the id numbering. |
| Transitions.EventsAssignSessions | app.js:99-113 | After an entry's events, the sender of every event that reached a handler has a session id. |
| Transitions.EntriesAssignSessions | app.js:83-115 | After a delivery, the sender of every message or postback event in any entry has a session id. |
| Transitions.StandbyIgnored | app.js:88-94 | Two deliveries that differ only in their standby events have the same effect: standby events never reach a handler. |
| Transitions.ResponseKeeps | app.js:194-256 | Handling a query result keeps the invariant, keeps every session id and only appends to the action log. |
| Transitions.ResponseRecordsSample | app.js:202-229 | A result that does not throw leaves the session ids as they were. It stores its sample for the sender under the current second and keeps every other sender's history. Its first action is typing-off, and the soft-check text is not among its actions. |
| Routing.RouteOf | app.js:102-112 | No contract of its own; characterised by `Transitions.MessageTakesPrecedence`, `Transitions.PostbackTakesPrecedence` and `Transitions.IgnoredEventsChangeNothing`. |
| Routing.KindOf | app.js:156-169 | No contract of its own; characterised by `Routing.MessagePriority`. |
| Routing.MessageActions | app.js:156-169 | No contract of its own; characterised by `Routing.MessagePriority`. |
| Routing.HandleQuickReply | app.js:173-181 | No contract of its own; characterised by `Routing.MessagePriority` and `App.Bot.HandleQuickReply`. |
| Routing.PostbackActions | app.js:277-284 | No contract of its own; characterised by `Routing.PostbackAlwaysNotSure`. |
| Response.Decide | app.js:234-255 | No contract of its own; characterised by `Response.SoftCheckNeedsDifference`, `Response.EscalatesIff` and `Response.DecidePriority`. |
| Response.DecideAsWritten | app.js:219-255 | No contract of its own; characterised by `Response.SoftCheckUnreachable`, `Response.EscalatesIff` and `Response.TextBranchesUnreachable`. |
| Response.HandleDialogFlowAction | app.js:184-191 | No contract of its own; characterised by `Response.ActionRendersMessages`. |
| Response.ReplyActions | app.js:234-255 | No contract of its own; characterised by `Response.ActionRendersMessages` and `Response.ResponseActions`. |
| Transitions.ReceivedMessage | app.js:137-170 | No contract of its own; characterised by `Transitions.DispatchEnsuresSession`, `Transitions.DispatchKeeps` and `App.Bot.ReceivedMessage`. |
| Transitions.ReceivedPostback | app.js:266-289 | No contract of its own; characterised by `Transitions.DispatchEnsuresSession`, `Transitions.DispatchKeeps` and `App.Bot.ReceivedPostback`. |
| Transitions.Dispatch | app.js:99-113 | No contract of its own; characterised by `Transitions.DispatchKeeps`, `Transitions.MessageTakesPrecedence` and `Transitions.IgnoredEventsChangeNothing`. |
| Transitions.Events | app.js:97-114 | No contract of its own; characterised by `Transitions.EventsKeep`, `Transitions.EventsInOrder` and `Transitions.EventsAssignSessions`. |
| Transitions.Entries | app.js:83-115 | No contract of its own; characterised by `Transitions.EntriesKeep`, `Transitions.EntriesAssignSessions` and `Transitions.StandbyIgnored`. |
| Transitions.Webhook | app.js:77-121 | No contract of its own; characterised by `Transitions.WebhookKeeps`, `Transitions.NonPageIgnored` and `Transitions.PageAcknowledged`. |
| Transitions.HandleDialogFlowResponse | app.js:194-256 | No contract of its own; characterised by `Transitions.ResponseKeeps` and `Transitions.ResponseRecordsSample`. |
| App.Bot.constructor | app.js:51-53 | The three maps and the action log start empty, and the invariant holds. |
| App.Bot.SetSessionAndUser | app.js:124-134 | The get-or-create and the profile fetch update the object exactly as `Transitions.SetSessionAndUser`, keeping the invariant. |
| App.Bot.HandleQuickReply | app.js:173-181 | Appends one Dialogflow query with the payload under the sender's current session. Nothing else changes. |
| App.Bot.ReceivedMessage | app.js:137-170 | The session is ensured first, then the message branch runs, exactly as `Transitions.ReceivedMessage`. |
| App.Bot.ReceivedPostback | app.js:266-289 | The session is ensured first, then the "not sure" text is sent, exactly as `Transitions.ReceivedPostback`. |
| App.Bot.HandleEvent | app.js:99-113 | One messaging event goes to exactly one of the four branches, exactly as `Transitions.Dispatch`. |
| App.Bot.HandleEntry | app.js:83-115 | The loop body of one page entry reads the standby events and handles the messaging events in order, exactly as `Transitions.Events`. |
| App.Bot.Webhook | app.js:77-121 | The nested loops over entries and events reach exactly `Transitions.Webhook`, keeping the invariant. |
| App.Bot.HandleDialogFlowResponse | app.js:194-256 | `thrown` is true iff the messages are missing, and then nothing changes. Otherwise the sample is written and the reply emitted, exactly as `Transitions.HandleDialogFlowResponse`. |

## Left out

- HTTP plumbing: Express setup, static files, body parsing, the GET `/webhook/` verify-token handshake and `app.listen` (app.js:15-35, 55-68, 292-294). Request-signature verification is also out: `fbService.verifyRequestSignature` is not part of this model.
- The Dialogflow client and the query itself (app.js:43-48; the Dialogflow service is not part of this model). A query is the action `QueryDialogFlow(sender, session, text)`, and its result is handed to `HandleDialogFlowResponse`. A failed query is not modelled; the model only sees the results handed to `HandleDialogFlowResponse`.
- The fbService send functions: they are not part of this model and are recorded as actions. Their effects, and the rendering of rich messages, are not modelled.
- The Graph API request of `userService.addUser` is the action `FetchProfile`. Its outcome is irrelevant because the callback is never invoked.
- Logging: `console.log` of every event, the unknown-event log and the postback log (`services/log.js`, app.js:286-287). These are console output and never affect control flow.
- Asynchrony: each handler call is one atomic step. Responses that complete out of order are modelled only as calls of `HandleDialogFlowResponse` in whatever order the caller chooses.
- JavaScript exceptions other than the missing `fulfillmentMessages`: a missing `entry` array, or an event without `sender`, would throw. The datatypes make these fields present.
- Dynamic typing: ids, texts and payloads are strings, `is_echo` is a boolean, and thread-control metadata, contexts and parameters are carried but never used.
