/**
 The realtime session and delivery-state engine: the presence map (user to
 socket), the active-chat map (user to the peer whose conversation that user
 has open), the message store and the users' last-seen times, with one method
 per socket handler. Each handler runs as one atomic step and appends what it
 emits to `outbox`.
 */
module Engine {
  import opened Message
  import opened Delivery

  /** Socket handles are never empty strings, so a map lookup that finds an
      entry is always truthy. */
  type SocketId = s: string | s != "" witness "s"

  /** The events sent to a single socket. */
  datatype Event =
    | Typing(from: Option<UserId>)
    | StopTyping(from: Option<UserId>)
    | IncomingCall(caller: string, peerId: string)
    | CallAccepted
    | CallRejected
    | CallEnded
    | ReceiveMessage(messageId: MsgId, message: Msg)
    | MessageStatus(messageId: MsgId, status: Status)
    | MessagesRead(fromUserId: UserId)

  /** One outbound emission: an event for one socket, or the online-users
      snapshot broadcast to every socket. */
  datatype Out = Emit(to: SocketId, event: Event) | OnlineUsers(users: set<UserId>)

  /** A connected socket: its handle and the `userid` query of its handshake. */
  datatype Session = Session(sock: SocketId, query: Option<string>)
  {
    /** The user the session belongs to: the query value when it is present
        and non-empty (the truthiness test on the handshake value). */
    function User(): (r: Option<UserId>)
      ensures r.Some? <==> query.Some? && query.value != ""
      ensures r.Some? ==> r.value == query.value
    {
      if query.Some? && query.value != "" then Some(query.value) else None
    }
  }

  /** What routing `ev` to user `to` emits: one event to that user's socket,
      or nothing when the user has no entry. */
  function Route(sockets: map<UserId, SocketId>, to: UserId, ev: Event): (r: seq<Out>)
    ensures r == [] <==> to !in sockets
    ensures to in sockets ==> r == [Emit(sockets[to], ev)]
  {
    if to in sockets then [Emit(sockets[to], ev)] else []
  }

  /** The status a send-message writes: none when the receiver is offline,
      read when the receiver has the sender's conversation open, delivered
      otherwise. */
  function SendOutcome(sockets: map<UserId, SocketId>, activeChat: map<UserId, UserId>, m: Msg): (r: Option<Status>)
    ensures r.None? <==> m.receiverId !in sockets
    ensures r == Some(Read) <==> m.receiverId in sockets && m.receiverId in activeChat
                                 && activeChat[m.receiverId] == m.senderId
    ensures r != Some(Sent)
  {
    if m.receiverId !in sockets then None
    else if m.receiverId in activeChat && activeChat[m.receiverId] == m.senderId then Some(Read)
    else Some(Delivered)
  }

  /** The status notice a sender's socket receives for message `id`. */
  function DeliveredNotice(sock: SocketId, id: MsgId): Out
  {
    Emit(sock, MessageStatus(id, Delivered))
  }

  /** `o` is the delivered notice for some message of `order`, addressed to
      the socket its sender has in `sockets`. */
  predicate IsNoticeFor(o: Out, order: seq<MsgId>, snapshot: Store, sockets: map<UserId, SocketId>)
  {
    && o.Emit? && o.event.MessageStatus?
    && o.event.messageId in order && o.event.messageId in snapshot
    && snapshot[o.event.messageId].senderId in sockets
    && o == DeliveredNotice(sockets[snapshot[o.event.messageId].senderId], o.event.messageId)
  }

  /** `s` has no repeated element. */
  predicate NoDup(s: seq<MsgId>)
  {
    forall i, j :: 0 <= i < j < |s| ==> s[i] != s[j]
  }

  /** `order` lists every id of `ids` exactly once, in some order. */
  predicate IsEnumeration(order: seq<MsgId>, ids: set<MsgId>)
  {
    NoDup(order) && (forall i :: 0 <= i < |order| ==> order[i] in ids) && (forall x :: x in ids ==> x in order)
  }

  /** The notices the replay emits when it visits the pending messages in
      `order`: for each one whose sender is online, a delivered notice to the
      sender's socket. */
  function DeliveryNotices(order: seq<MsgId>, snapshot: Store, sockets: map<UserId, SocketId>): (r: seq<Out>)
    requires forall id :: id in order ==> id in snapshot
    ensures |r| <= |order|
    ensures forall k :: 0 <= k < |r| ==> IsNoticeFor(r[k], order, snapshot, sockets)
  {
    if order == [] then []
    else
      var id := order[|order| - 1];
      var earlier := DeliveryNotices(order[..|order| - 1], snapshot, sockets);
      var sender := snapshot[id].senderId;
      if sender in sockets then earlier + [DeliveredNotice(sockets[sender], id)] else earlier
  }

  /** Visiting one more message appends its notice, if its sender is online. */
  lemma NoticesAppend(order: seq<MsgId>, id: MsgId, snapshot: Store, sockets: map<UserId, SocketId>)
    requires forall x :: x in order ==> x in snapshot
    requires id in snapshot
    ensures DeliveryNotices(order + [id], snapshot, sockets)
            == DeliveryNotices(order, snapshot, sockets)
               + (if snapshot[id].senderId in sockets
                  then [DeliveredNotice(sockets[snapshot[id].senderId], id)] else [])
  {
    assert (order + [id])[..|order + [id]| - 1] == order;
  }

  /** Each pending message whose sender is online is announced exactly once,
      to that sender's socket, and to no other socket; a message outside the
      enumeration or with an offline sender is not announced at all. */
  lemma {:induction false} DeliveryNoticeExactlyOnce(order: seq<MsgId>, snapshot: Store,
                                                     sockets: map<UserId, SocketId>, id: MsgId, sock: SocketId)
    requires forall x :: x in order ==> x in snapshot
    requires NoDup(order)
    ensures multiset(DeliveryNotices(order, snapshot, sockets))[DeliveredNotice(sock, id)]
            == if id in order && snapshot[id].senderId in sockets && sockets[snapshot[id].senderId] == sock
               then 1 else 0
  {
    if order != [] {
      var prefix := order[..|order| - 1];
      var last := order[|order| - 1];
      assert order == prefix + [last];
      assert NoDup(prefix);
      DeliveryNoticeExactlyOnce(prefix, snapshot, sockets, id, sock);
      assert id in order <==> id in prefix || id == last;
      if id == last {
        assert id !in prefix;
      }
    }
  }

  /** The replay's notices in terms of the store: whatever order the pending
      messages of `u` are visited in, a message gets a delivered notice on
      socket `sock` exactly once if it is addressed to `u`, still sent, and
      its sender is online on `sock`, and never otherwise. */
  lemma {:induction false} ReplayNotifiesPendingOnce(order: seq<MsgId>, store: Store, u: UserId,
                                                     sockets: map<UserId, SocketId>, id: MsgId, sock: SocketId)
    requires IsEnumeration(order, Pending(store, u).Keys)
    ensures multiset(DeliveryNotices(order, store, sockets))[DeliveredNotice(sock, id)]
            == if id in store && store[id].receiverId == u && store[id].status == Sent
                  && store[id].senderId in sockets && sockets[store[id].senderId] == sock
               then 1 else 0
  {
    DeliveryNoticeExactlyOnce(order, store, sockets, id, sock);
  }

  class Engine {
    /** The presence map: user to the socket most recently connected for it. */
    var socketOf: map<UserId, SocketId>
    /** The active-chat map: user to the peer whose conversation is open. */
    var activeChat: map<UserId, UserId>
    /** The message store. */
    var msgs: Store
    /** The users' last-seen times; the keys are the users that exist. */
    var lastSeen: map<UserId, int>
    /** Everything emitted so far, in order. */
    var outbox: seq<Out>

    /** A server that has just started: no socket connected, no chat open,
        nothing emitted, over an existing store of messages and users. */
    constructor (store: Store, users: map<UserId, int>)
      ensures socketOf == map[] && activeChat == map[] && outbox == []
      ensures msgs == store && lastSeen == users
    {
      socketOf := map[];
      activeChat := map[];
      msgs := store;
      lastSeen := users;
      outbox := [];
    }

    /** A socket connects. With a user: record its socket (replacing an
        earlier one), broadcast the online users, then deliver every message
        still pending for it, notifying each online sender. The replay visits
        the pending messages in whatever order the store returns them, which
        `order` records. Without a user nothing happens. */
    method Connect(s: Session) returns (ghost order: seq<MsgId>)
      modifies this`socketOf, this`msgs, this`outbox
      ensures s.User().None? ==>
                socketOf == old(socketOf) && msgs == old(msgs) && outbox == old(outbox) && order == []
      ensures s.User().Some? ==>
                var u := s.User().value;
                && socketOf == old(socketOf)[u := s.sock]
                && msgs == Replay(old(msgs), u)
                && IsEnumeration(order, Pending(old(msgs), u).Keys)
                && outbox == old(outbox) + [OnlineUsers(socketOf.Keys)]
                             + DeliveryNotices(order, old(msgs), socketOf)
    {
      order := [];
      if s.User().Some? {
        var u := s.User().value;
        socketOf := socketOf[u := s.sock];
        outbox := outbox + [OnlineUsers(socketOf.Keys)];
        order := DeliverPending(u);
      }
    }

    /** The replay loop: take a snapshot of the messages pending for `u`, and
        for each one set its status to delivered and, when its sender is
        online, emit a delivered notice to the sender's socket. */
    method DeliverPending(u: UserId) returns (ghost order: seq<MsgId>)
      modifies this`msgs, this`outbox
      ensures msgs == Replay(old(msgs), u)
      ensures IsEnumeration(order, Pending(old(msgs), u).Keys)
      ensures outbox == old(outbox) + DeliveryNotices(order, old(msgs), socketOf)
    {
      var pending := Pending(msgs, u);
      var left := pending.Keys;
      ghost var store0 := msgs;
      ghost var out0 := outbox;
      ghost var done: set<MsgId> := {};
      order := [];
      while left != {}
        invariant left <= pending.Keys && done == pending.Keys - left
        invariant IsEnumeration(order, done)
        invariant msgs == DeliveredAll(store0, done)
        invariant outbox == out0 + DeliveryNotices(order, store0, socketOf)
        decreases left
      {
        var id :| id in left;
        DeliveredAllStep(store0, done, id);
        msgs := SetStatus(msgs, id, Delivered);
        var sender := pending[id].senderId;
        NoticesAppend(order, id, store0, socketOf);
        if sender in socketOf {
          outbox := outbox + [DeliveredNotice(socketOf[sender], id)];
        }
        order := order + [id];
        done := done + {id};
        left := left - {id};
      }
      ReplayIsDeliveredAll(store0, u);
    }

    /** `typing`: tell the target that this session's user is typing. */
    method Typing(s: Session, toUserId: UserId)
      modifies this`outbox
      ensures outbox == old(outbox) + Route(socketOf, toUserId, Event.Typing(s.User()))
    {
      if toUserId in socketOf {
        outbox := outbox + [Emit(socketOf[toUserId], Event.Typing(s.User()))];
      }
    }

    /** `stop_typing`: tell the target that this session's user stopped. */
    method StopTyping(s: Session, toUserId: UserId)
      modifies this`outbox
      ensures outbox == old(outbox) + Route(socketOf, toUserId, Event.StopTyping(s.User()))
    {
      if toUserId in socketOf {
        outbox := outbox + [Emit(socketOf[toUserId], Event.StopTyping(s.User()))];
      }
    }

    /** `call-user`: forward the caller and peer id named in the payload. */
    method CallUser(s: Session, to: UserId, from: string, peerId: string)
      modifies this`outbox
      ensures outbox == old(outbox) + Route(socketOf, to, IncomingCall(from, peerId))
    {
      if to in socketOf {
        outbox := outbox + [Emit(socketOf[to], IncomingCall(from, peerId))];
      }
    }

    /** `accept-call`: forward the acceptance to the target. */
    method AcceptCall(s: Session, to: UserId)
      modifies this`outbox
      ensures outbox == old(outbox) + Route(socketOf, to, CallAccepted)
    {
      if to in socketOf {
        outbox := outbox + [Emit(socketOf[to], CallAccepted)];
      }
    }

    /** `reject-call`: forward the rejection to the target. */
    method RejectCall(s: Session, to: UserId)
      modifies this`outbox
      ensures outbox == old(outbox) + Route(socketOf, to, CallRejected)
    {
      if to in socketOf {
        outbox := outbox + [Emit(socketOf[to], CallRejected)];
      }
    }

    /** `end-call`: forward the hang-up to the target if it is online, and
        always echo it to the calling socket. */
    method EndCall(s: Session, to: UserId)
      modifies this`outbox
      ensures outbox == old(outbox) + Route(socketOf, to, CallEnded) + [Emit(s.sock, CallEnded)]
    {
      if to in socketOf {
        outbox := outbox + [Emit(socketOf[to], CallEnded)];
      }
      outbox := outbox + [Emit(s.sock, CallEnded)];
    }

    /** `send-message`: echo the message to the calling socket tagged sent;
        then, when the receiver is online, update the stored message `id` to
        the outcome status (read if the receiver has the sender's chat open,
        delivered otherwise), push the message to the receiver tagged with
        that status and tell the calling socket the new status. The message is
        never created here: an id that is not stored is updated nowhere. */
    method SendMessage(s: Session, id: MsgId, m: Msg)
      modifies this`msgs, this`outbox
      ensures var echo := Emit(s.sock, ReceiveMessage(id, m.(status := Sent)));
              match SendOutcome(socketOf, activeChat, m)
              case None =>
                msgs == old(msgs) && outbox == old(outbox) + [echo]
              case Some(st) =>
                && msgs == SetStatus(old(msgs), id, st)
                && outbox == old(outbox) + [echo,
                                            Emit(socketOf[m.receiverId], ReceiveMessage(id, m.(status := st))),
                                            Emit(s.sock, MessageStatus(id, st))]
    {
      outbox := outbox + [Emit(s.sock, ReceiveMessage(id, m.(status := Sent)))];
      if m.receiverId in socketOf {
        var receiverSock := socketOf[m.receiverId];
        var inChat := m.receiverId in activeChat && activeChat[m.receiverId] == m.senderId;
        var st := if inChat then Read else Delivered;
        msgs := SetStatus(msgs, id, st);
        outbox := outbox + [Emit(receiverSock, ReceiveMessage(id, m.(status := st)))];
        outbox := outbox + [Emit(s.sock, MessageStatus(id, st))];
      }
    }

    /** `read-messages`: mark read every message from `fromUserId` to
        `toUserId` that is not read yet, then, if `fromUserId` is online, tell
        it that `toUserId` has read its messages (even when none changed). */
    method ReadMessages(s: Session, fromUserId: UserId, toUserId: UserId)
      modifies this`msgs, this`outbox
      ensures msgs == MarkRead(old(msgs), fromUserId, toUserId)
      ensures outbox == old(outbox) + Route(socketOf, fromUserId, MessagesRead(toUserId))
    {
      msgs := MarkRead(msgs, fromUserId, toUserId);
      if fromUserId in socketOf {
        outbox := outbox + [Emit(socketOf[fromUserId], MessagesRead(toUserId))];
      }
    }

    /** `join-chat`: record that `userId` (as the payload names it) has the
        conversation with `chattingWith` open. */
    method JoinChat(s: Session, userId: UserId, chattingWith: UserId)
      modifies this`activeChat
      ensures activeChat == old(activeChat)[userId := chattingWith]
    {
      activeChat := activeChat[userId := chattingWith];
    }

    /** `leave-chat`: forget the open conversation of `userId`. */
    method LeaveChat(s: Session, userId: UserId)
      modifies this`activeChat
      ensures activeChat == old(activeChat) - {userId}
    {
      activeChat := activeChat - {userId};
    }

    /** `disconnect`: if the session's user has any presence entry, remove it
        (whichever socket it names) and set that user's last-seen time to
        `now`; then broadcast the online users in every case. The active-chat
        map is left as it is. */
    method Disconnect(s: Session, now: int)
      modifies this`socketOf, this`lastSeen, this`outbox
      ensures s.User().Some? && s.User().value in old(socketOf) ==>
                var u := s.User().value;
                && socketOf == old(socketOf) - {u}
                && lastSeen == if u in old(lastSeen) then old(lastSeen)[u := now] else old(lastSeen)
      ensures !(s.User().Some? && s.User().value in old(socketOf)) ==>
                socketOf == old(socketOf) && lastSeen == old(lastSeen)
      ensures outbox == old(outbox) + [OnlineUsers(socketOf.Keys)]
    {
      if s.User().Some? && s.User().value in socketOf {
        var u := s.User().value;
        socketOf := socketOf - {u};
        if u in lastSeen {
          lastSeen := lastSeen[u := now];
        }
      }
      outbox := outbox + [OnlineUsers(socketOf.Keys)];
    }
  }
}
