# Realtime session and delivery-state engine of a chat backend

This project models the socket side of a chat server. It covers:

- the **presence map**, from each user to the socket that user most recently connected with;
- the **active-chat map**, from each user to the peer whose conversation that user has open;
- the **message store**, where each message moves through the statuses sent, delivered and read;
- the users' **last-seen** times.

Each socket handler is one method of the class `Engine.Engine`. A handler runs as one atomic step: it reads and updates the four pieces of state and appends what it emits to `outbox`. An emission is either an event for one socket or the online-users snapshot, which goes to every socket.

There are four modules.

- `Message` (message.dfy) is the message record. It has the three-valued status and its stored spelling. Its `Create` function gives the schema's behaviour on creation: `type` defaults to `"text"`, `status` defaults to sent, the sender and receiver ids are required, and the status must be one of its enum values.
- `Delivery` (delivery.dfy) holds the store updates the handlers perform, written as pure functions over the store (`map<MsgId, Msg>`):
  - the update of one message's status by id;
  - the query for messages still pending for a user, and the replay that delivers them;
  - the bulk read acknowledgement.

  It also holds the lemmas about these updates: what they change, that replay and acknowledgement never move a message backward, and that both are idempotent.
- `Engine` (engine.dfy) holds the class, one method per handler. Each method's `ensures` gives its whole new state and its emissions in terms of the `Delivery` functions. Fields a handler does not touch are excluded by its `modifies` frame, which names single fields of the object. The replay on connect is a loop over a snapshot of the pending messages. The store returns them in no defined order, so the loop picks any remaining one each time and reports the order it used as a ghost result. `DeliveryNoticeExactlyOnce` proves that, for every such order, each pending message whose sender is online produces exactly one delivered notice, sent to that sender's socket.
- `Scenarios` (scenarios.dfy) contains client methods that the verifier checks against the handlers' contracts. In the first, a message is sent to an offline receiver and is delivered when that receiver connects. In the second, the receiver already has the sender's conversation open, so the message goes straight to read. The last two show a stale disconnect and a status regression on re-send.

Conventions:

- The handshake `userid` query is an `Option<string>`. A session has a user only when the value is present and non-empty, which is the source's truthiness test.
- Socket ids are never empty, so finding an entry in the presence map is the same as the source's truthy lookup.
- The clock is passed to `Disconnect` as `now`.

Behaviour of the code that one might not expect, which the model keeps as written:

- `disconnect` has no stale-socket check (server.js:194). It removes the user's entry even when a newer socket replaced it (`StaleDisconnectScenario`).
- `disconnect` never clears the active-chat map.
- `send-message` never creates the message. It updates an existing id, and an unknown id is updated nowhere, but the emits still happen.
- `send-message` overwrites the status unconditionally, so a read message can go back to delivered (`Delivery.SetStatusCanRegress`, `ResendRegressesScenario`). Status never decreasing therefore holds for an atomic replay and for the read acknowledgement, not for this handler.
- One might expect the replay to update a message only while its stored status is still sent (a compare-and-set). The code instead updates each snapshotted id unconditionally (server.js:69). In the model each handler is one atomic step, so only the snapshotted messages, all still at sent, are touched; the program itself does not have that guarantee (see "## Left out").

## Model

| member | source | states |
|---|---|---|
| Message.ParseStatus | models/message.js:11-15 | the status enum accepts exactly "sent", "delivered" and "read", each mapped to its own status |
| Message.StatusName | models/message.js:13 | every status has a stored spelling that the enum check maps back to the same status |
| Message.Violations | models/message.js:4-15 | a missing sender, a missing receiver and a status outside the enum are each reported, and no other failure is |
| Message.Create | models/message.js:3-17 | creation succeeds iff both ids are given and any given status is in the enum; on success the fields are kept, `type` defaults to "text" and `status` defaults to sent; on failure every violated validator is reported |
| Message.CreateRoundTrip | models/message.js:3-17 | creating a message from the fields of any stored message gives back that message |
| Message.LifecycleIsTotalOrder | models/message.js:13 | sent, delivered, read is a total order with sent first and read last |
| Delivery.SetStatus | server.js:133-148 | update by id changes only that message's status; an id not in the store changes nothing |
| Delivery.SetStatusCanRegress | server.js:146-148 | update by id can move a read message back to delivered |
| Delivery.Pending | server.js:63-66 | the pending query returns exactly the stored messages addressed to the user with status sent |
| Delivery.Replay | server.js:63-69 | replay delivers exactly the user's sent messages; every other message keeps its status, and no field but status changes |
| Delivery.ReplayNeverRegresses | server.js:63-69 | replay never moves a message backward in the lifecycle |
| Delivery.ReplayClearsPending | server.js:63-69 | after a replay nothing is pending for that user |
| Delivery.ReplayWithoutPendingIsIdentity | server.js:63-69 | a connect with no sent messages pending changes no message |
| Delivery.ReplayIdempotent | server.js:63-69 | a second replay for the same user changes nothing |
| Delivery.DeliveredAllStep | server.js:68-69 | one iteration's update by id extends the set of delivered messages by that id |
| Delivery.ReplayIsDeliveredAll | server.js:63-69 | updating each snapshotted message to delivered gives the replay |
| Delivery.MarkRead | server.js:166-173 | every message from the first user to the second ends read; every other message is unchanged; only status changes |
| Delivery.MarkReadChangesExactly | server.js:166-173 | a message changes iff it goes from the first user to the second and was not read |
| Delivery.MarkReadNeverRegresses | server.js:166-173 | the read acknowledgement never moves a message backward |
| Delivery.MarkReadLeavesReplies | server.js:166-173 | messages from the second user back to the first are unchanged |
| Delivery.MarkReadIdempotent | server.js:166-173 | acknowledging twice equals acknowledging once |
| Engine.Session.User | server.js:52-57 | a session has a user iff its userid query is present and non-empty, and that user is the query value; the same test guards disconnect (server.js:194) and gives the `from` of typing events (server.js:85, 92) |
| Engine.Route | server.js:83-85 | a lookup in the presence map emits one event to the target's socket when the target has an entry and nothing otherwise |
| Engine.SendOutcome | server.js:129-159 | send-message writes no status iff the receiver is offline, read iff the receiver has the sender's chat open, and never sent |
| Engine.DeliveryNotices | server.js:68-78 | the replay emits at most one notice per visited message, and each is a delivered notice for a visited message, sent to its sender's socket |
| Engine.NoticesAppend | server.js:71-77 | visiting one more message appends its notice exactly when its sender is online |
| Engine.DeliveryNoticeExactlyOnce | server.js:68-78 | for any order of the pending messages, each one whose sender is online is announced exactly once, to that sender's socket; no other socket and no other message gets such a notice |
| Engine.ReplayNotifiesPendingOnce | server.js:63-78 | for any order of the pending query's results, a message gets a delivered notice on a socket exactly once iff it is addressed to the connecting user, still sent, and its sender is online on that socket |
| Engine.Engine.constructor | server.js:48-49 | the server starts with empty presence and active-chat maps and has emitted nothing |
| Engine.Engine.Connect | server.js:51-79 | with a user: the presence entry is set to the new socket (overwriting); the broadcast carries exactly the map's keys; the store becomes the replay; the notices follow some enumeration of the pending ids. Without a user nothing changes |
| Engine.Engine.DeliverPending | server.js:62-78 | the replay loop leaves the store equal to the replay and emits the notices for the enumeration it used |
| Engine.Engine.Typing | server.js:82-87 | forwards typing with the session's user to the target's socket, or emits nothing; only the outbox changes |
| Engine.Engine.StopTyping | server.js:89-94 | forwards stop_typing like typing; only the outbox changes |
| Engine.Engine.CallUser | server.js:97-101 | forwards incoming-call with the payload's caller and peer id, or emits nothing; only the outbox changes |
| Engine.Engine.AcceptCall | server.js:103-106 | forwards call-accepted to the target if it is online; only the outbox changes |
| Engine.Engine.RejectCall | server.js:108-111 | forwards call-rejected to the target if it is online; only the outbox changes |
| Engine.Engine.EndCall | server.js:113-117 | forwards call-ended to the target if it is online, then always echoes call-ended to the calling socket |
| Engine.Engine.SendMessage | server.js:120-161 | echoes the message tagged sent to the caller first. With the receiver offline nothing else happens. Otherwise the stored status becomes the outcome (read or delivered), the receiver gets the message with that status and the caller gets the status notice. Presence and active-chat maps are untouched |
| Engine.Engine.ReadMessages | server.js:165-181 | the store becomes the bulk read acknowledgement; messages-read naming the second user goes to the first user's socket if online, even when nothing changed |
| Engine.Engine.JoinChat | server.js:183-185 | sets the active chat of the payload's user; nothing else changes |
| Engine.Engine.LeaveChat | server.js:187-189 | removes only the payload user's active chat; nothing else changes |
| Engine.Engine.Disconnect | server.js:193-201 | if the session's user has any presence entry, it is removed whatever socket it names, and that user's last-seen becomes `now` if the user exists. The online users are broadcast in every case and the active-chat map is untouched |

## Left out

- HTTP setup (CORS, JSON body limit, status route, PeerJS mounting, listening): transport plumbing, not engine state.
- The message controller, user controller, routes, database connection and token signing: wrappers over the store, password hashing and the media store, which are foreign calls. The HTTP `sendMessage` and `sendAudioMessage` handlers also read the presence map and emit `newMessage` to the receiver's socket (controllers/messageController.js:87-90, 124-127); those emissions are not part of the model and never appear in `outbox`.
- Async interleaving between the awaits inside a handler, and the transport itself: each handler is modelled as one atomic step. One consequence is not captured. The source registers every other handler only after the connect replay's awaits finish, so a disconnect or message event that arrives during the replay is lost.
- Delivery.ReplayNeverRegresses, Delivery.ReplayIdempotent and Engine.ReplayNotifiesPendingOnce hold only of the replay taken as one atomic step. In the program the replay awaits the query (server.js:63) and each update (server.js:69), and other connections' handlers run in between. (a) If a user reconnects quickly, two connections can both snapshot the same sent message, both update it and both emit `message-status delivered` to its sender (server.js:73), so the sender gets two notices. (b) Between the query and the update, another connection can set a snapshotted message to read (an older socket of the receiver sending `read-messages`, or the sender re-sending while the receiver has the chat open); the update at server.js:69 then moves it back to delivered.
- Missing payload fields: every field of a client payload (`toUserId`, `to`, `from`, `peerId`, the message's `_id`, `senderId` and `receiverId`, `fromUserId`, `toUserId`, `userId`, `chattingWith`) is assumed present and a string. In the source a missing field is `undefined`; for example a `send-message` to an online receiver with no active-chat entry and no `senderId` compares `undefined === undefined` at server.js:131 and takes the read path.
- A failing store call (a malformed id that cannot be cast, a lost connection): it rejects the handler part-way, after some emits and before others. This is not modelled.
- Object.keys order: the online-users broadcast carries the set of keys, not their insertion order.
- Plain-object lookups: keys inherited from the object prototype (such as "toString") would read as present, and a repeated handshake query would give an array. Ids are modelled as plain strings instead.
- Logging, and the real clock: `Disconnect` takes `now` as a parameter.
- The schema's createdAt/updatedAt timestamps: they do not affect delivery state.
- Object-id casting: ids are assumed to be canonical lower-case object-id strings, and the store's comparison of ids after casting is modelled as string equality. In the source an id spelled in upper-case hex casts to the same object id as its lower-case form, so the pending query, the read acknowledgement and the update by id would match messages that `Delivery.Pending`, `Delivery.Replay`, `Delivery.MarkRead` and `Delivery.SetStatus` do not; and an id that is not a valid object id makes the store call fail.
- Message.Create and Message.Violations do not report cast failures: a sender or receiver id that is not a valid object id (such as the short ids used in scenarios.dfy) fails validation in the source, while the model's `Create` accepts it.
