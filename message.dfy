/**
 The message record of the chat backend: who sent it to whom, its content
 fields, its kind and its three-valued delivery status, together with the
 defaults and validation the schema applies when a message is created.
 */
module Message {

  datatype Option<+T> = None | Some(value: T)

  /** User identities, as the strings the realtime maps are keyed by. */
  type UserId = string

  /** The delivery lifecycle: sent, then delivered, then read. */
  datatype Status = Sent | Delivered | Read

  /** The stored spelling of each status value. */
  function StatusName(s: Status): (r: string)
    ensures ParseStatus(r) == Some(s)
  {
    match s
    case Sent => "sent"
    case Delivered => "delivered"
    case Read => "read"
  }

  /** The enum check: exactly the three spellings are accepted. */
  function ParseStatus(name: string): (r: Option<Status>)
    ensures r == Some(Sent) <==> name == "sent"
    ensures r == Some(Delivered) <==> name == "delivered"
    ensures r == Some(Read) <==> name == "read"
  {
    if name == "sent" then Some(Sent)
    else if name == "delivered" then Some(Delivered)
    else if name == "read" then Some(Read)
    else None
  }

  /** Position of a status along the lifecycle. */
  function Rank(s: Status): nat
  {
    match s
    case Sent => 0
    case Delivered => 1
    case Read => 2
  }

  /** `a` is the same stage as `b` or a later one. */
  predicate AtOrAfter(a: Status, b: Status)
  {
    Rank(a) >= Rank(b)
  }

  /** The lifecycle order is a total order on the three statuses. */
  lemma LifecycleIsTotalOrder(a: Status, b: Status, c: Status)
    ensures AtOrAfter(a, a)
    ensures AtOrAfter(a, b) && AtOrAfter(b, a) ==> a == b
    ensures AtOrAfter(a, b) && AtOrAfter(b, c) ==> AtOrAfter(a, c)
    ensures AtOrAfter(a, b) || AtOrAfter(b, a)
    ensures AtOrAfter(a, Sent) && AtOrAfter(Read, a)
  {
  }

  /** A stored message. `kind` is the schema's `type` field. */
  datatype Msg = Msg(
    senderId: UserId,
    receiverId: UserId,
    text: Option<string>,
    image: Option<string>,
    audioUrl: Option<string>,
    cloudinaryId: Option<string>,
    kind: string,
    status: Status)

  /** The fields a caller hands to the store when creating a message;
      `None` is a field left undefined. */
  datatype Draft = Draft(
    senderId: Option<UserId>,
    receiverId: Option<UserId>,
    text: Option<string>,
    image: Option<string>,
    audioUrl: Option<string>,
    cloudinaryId: Option<string>,
    kind: Option<string>,
    status: Option<string>)

  /** One failed schema validator. */
  datatype SchemaError = MissingSender | MissingReceiver | BadStatus(value: string)

  datatype Created = Ok(msg: Msg) | Invalid(errors: set<SchemaError>)

  /** Every validator failure that a draft triggers; validation reports
      them all together. */
  function Violations(d: Draft): (r: set<SchemaError>)
    ensures MissingSender in r <==> d.senderId.None?
    ensures MissingReceiver in r <==> d.receiverId.None?
    ensures forall v :: BadStatus(v) in r <==> d.status == Some(v) && ParseStatus(v).None?
  {
    (if d.senderId.None? then {MissingSender} else {})
    + (if d.receiverId.None? then {MissingReceiver} else {})
    + (if d.status.Some? && ParseStatus(d.status.value).None? then {BadStatus(d.status.value)} else {})
  }

  /** Creating a message: apply the defaults (`type` is "text", `status` is
      sent) to undefined fields, then validate the required ids and the enum. */
  function Create(d: Draft): (r: Created)
    ensures r.Ok? <==> d.senderId.Some? && d.receiverId.Some?
                       && (d.status.None? || ParseStatus(d.status.value).Some?)
    ensures r.Invalid? ==> r.errors != {} && r.errors == Violations(d)
    ensures r.Ok? ==> r.msg.senderId == d.senderId.value && r.msg.receiverId == d.receiverId.value
    ensures r.Ok? ==> r.msg.text == d.text && r.msg.image == d.image
                      && r.msg.audioUrl == d.audioUrl && r.msg.cloudinaryId == d.cloudinaryId
    ensures r.Ok? ==> r.msg.kind == (if d.kind.Some? then d.kind.value else "text")
    ensures r.Ok? && d.status.None? ==> r.msg.status == Sent
    ensures r.Ok? && d.status.Some? ==> StatusName(r.msg.status) == d.status.value
  {
    var errors := Violations(d);
    if errors != {} then Invalid(errors)
    else
      var status := if d.status.Some? then ParseStatus(d.status.value).value else Sent;
      var kind := if d.kind.Some? then d.kind.value else "text";
      Ok(Msg(d.senderId.value, d.receiverId.value, d.text, d.image,
             d.audioUrl, d.cloudinaryId, kind, status))
  }

  /** Storing the fields of an existing message as a draft and creating it
      again gives back the same message. */
  lemma {:induction false} CreateRoundTrip(m: Msg)
    ensures Create(Draft(Some(m.senderId), Some(m.receiverId), m.text, m.image, m.audioUrl,
                         m.cloudinaryId, Some(m.kind), Some(StatusName(m.status)))) == Ok(m)
  {
    var d := Draft(Some(m.senderId), Some(m.receiverId), m.text, m.image, m.audioUrl,
                   m.cloudinaryId, Some(m.kind), Some(StatusName(m.status)));
    assert Violations(d) == {};
  }
}
