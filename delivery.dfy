/**
 The three store updates the realtime engine performs on messages, as pure
 functions over the store (message id to message): an update of one message's
 status by id, the pending-delivery query and its replay on connect, and the
 bulk read acknowledgement. None of them creates or deletes a message, and none
 changes any field but `status`.
 */
module Delivery {
  import opened Message

  type MsgId = string

  type Store = map<MsgId, Msg>

  /** `b` is `a` with at most its status changed. */
  predicate SameExceptStatus(a: Msg, b: Msg)
  {
    a.(status := b.status) == b
  }

  /** Update by id: set the status of message `id` if it is stored; an id that
      is not stored matches nothing and the store is left as it was. */
  function SetStatus(store: Store, id: MsgId, s: Status): (r: Store)
    ensures r.Keys == store.Keys
    ensures id in store ==> r[id].status == s && SameExceptStatus(store[id], r[id])
    ensures forall other :: other in store && other != id ==> r[other] == store[other]
    ensures id !in store ==> r == store
  {
    if id in store then store[id := store[id].(status := s)] else store
  }

  /** Update by id overwrites whatever status was stored: a read message can
      be set back to delivered. */
  lemma SetStatusCanRegress(store: Store, id: MsgId)
    requires id in store && store[id].status == Read
    ensures !AtOrAfter(SetStatus(store, id, Delivered)[id].status, store[id].status)
  {
  }

  /** The pending query: the messages addressed to `u` still at `sent`. */
  function Pending(store: Store, u: UserId): (r: Store)
    ensures forall id :: id in r <==> id in store && store[id].receiverId == u && store[id].status == Sent
    ensures forall id :: id in r ==> r[id] == store[id]
  {
    map id | id in store && store[id].receiverId == u && store[id].status == Sent :: store[id]
  }

  /** The effect of the replay on connect: every pending message of `u` moves
      to delivered and every other message keeps its status. */
  function Replay(store: Store, u: UserId): (r: Store)
    ensures r.Keys == store.Keys
    ensures forall id :: id in store ==> SameExceptStatus(store[id], r[id])
    ensures forall id :: id in store ==>
              r[id].status == (if store[id].receiverId == u && store[id].status == Sent
                               then Delivered else store[id].status)
  {
    map id | id in store :: if id in Pending(store, u) then store[id].(status := Delivered) else store[id]
  }

  /** Replay never moves a message backward in the lifecycle. */
  lemma ReplayNeverRegresses(store: Store, u: UserId, id: MsgId)
    requires id in store
    ensures AtOrAfter(Replay(store, u)[id].status, store[id].status)
  {
  }

  /** After a replay nothing is pending for `u` any more. */
  lemma {:induction false} ReplayClearsPending(store: Store, u: UserId)
    ensures Pending(Replay(store, u), u) == map[]
  {
    var after := Replay(store, u);
    forall id | id in after
      ensures id !in Pending(after, u)
    {
      assert after[id].receiverId == store[id].receiverId;
    }
    assert Pending(after, u).Keys == {};
  }

  /** With nothing pending, a replay changes nothing. */
  lemma {:induction false} ReplayWithoutPendingIsIdentity(store: Store, u: UserId)
    requires Pending(store, u) == map[]
    ensures Replay(store, u) == store
  {
    var after := Replay(store, u);
    forall id | id in store
      ensures after[id] == store[id]
    {
      assert id !in Pending(store, u);
    }
  }

  /** A second replay for the same user (with no new message in between)
      changes no message: the replay is idempotent. */
  lemma {:induction false} ReplayIdempotent(store: Store, u: UserId)
    ensures Replay(Replay(store, u), u) == Replay(store, u)
  {
    ReplayClearsPending(store, u);
    ReplayWithoutPendingIsIdentity(Replay(store, u), u);
  }

  /** The store after the messages `done` have each been set to delivered. */
  ghost function DeliveredAll(store: Store, done: set<MsgId>): Store
  {
    map id | id in store :: if id in done then store[id].(status := Delivered) else store[id]
  }

  /** Setting one more stored message to delivered extends `done` by it. */
  lemma DeliveredAllStep(store: Store, done: set<MsgId>, id: MsgId)
    requires id in store
    ensures SetStatus(DeliveredAll(store, done), id, Delivered) == DeliveredAll(store, done + {id})
  {
  }

  /** The replay is the effect of setting each pending message to delivered,
      one update by id at a time. */
  lemma ReplayIsDeliveredAll(store: Store, u: UserId)
    ensures Replay(store, u) == DeliveredAll(store, Pending(store, u).Keys)
  {
  }

  /** `m` is addressed from `from` to `to`. */
  predicate Between(m: Msg, from: UserId, to: UserId)
  {
    m.senderId == from && m.receiverId == to
  }

  /** The bulk read acknowledgement: every message from `from` to `to` whose
      status is not read becomes read; every other message is unchanged. */
  function MarkRead(store: Store, from: UserId, to: UserId): (r: Store)
    ensures r.Keys == store.Keys
    ensures forall id :: id in store ==> SameExceptStatus(store[id], r[id])
    ensures forall id :: id in store && Between(store[id], from, to) ==> r[id].status == Read
    ensures forall id :: id in store && !Between(store[id], from, to) ==> r[id] == store[id]
  {
    map id | id in store :: if Between(store[id], from, to) && store[id].status != Read
                            then store[id].(status := Read) else store[id]
  }

  /** The ids the acknowledgement actually updates: those from `from` to `to`
      not yet read. Exactly these change. */
  lemma {:induction false} MarkReadChangesExactly(store: Store, from: UserId, to: UserId, id: MsgId)
    requires id in store
    ensures MarkRead(store, from, to)[id] != store[id]
            <==> Between(store[id], from, to) && store[id].status != Read
  {
    if Between(store[id], from, to) && store[id].status != Read {
      assert MarkRead(store, from, to)[id].status != store[id].status;
    }
  }

  /** The acknowledgement never moves a message backward. */
  lemma MarkReadNeverRegresses(store: Store, from: UserId, to: UserId, id: MsgId)
    requires id in store
    ensures AtOrAfter(MarkRead(store, from, to)[id].status, store[id].status)
  {
  }

  /** Messages travelling the other way, from `to` back to `from`, are not
      touched (for two distinct users). */
  lemma MarkReadLeavesReplies(store: Store, from: UserId, to: UserId, id: MsgId)
    requires from != to && id in store && Between(store[id], to, from)
    ensures MarkRead(store, from, to)[id] == store[id]
  {
  }

  /** Acknowledging twice is the same as acknowledging once. */
  lemma {:induction false} MarkReadIdempotent(store: Store, from: UserId, to: UserId)
    ensures MarkRead(MarkRead(store, from, to), from, to) == MarkRead(store, from, to)
  {
    var once := MarkRead(store, from, to);
    var twice := MarkRead(once, from, to);
    forall id | id in store
      ensures twice[id] == once[id]
    {
      assert Between(once[id], from, to) == Between(store[id], from, to);
    }
  }
}
