/**
 Client code for the engine: each method drives the handlers through one
 scenario and asserts what the handlers' contracts let a caller conclude.
 */
module Scenarios {
  import opened Message
  import opened Delivery
  import opened Engine

  function Hello(): Msg
  {
    Msg("A", "B", Some("hi"), None, None, None, "text", Sent)
  }

  /** A online, B offline: A's message stays sent and only A's socket sees
      it; when B connects, it becomes delivered and A's socket gets exactly
      one delivered notice for it. */
  method OfflineReceiverScenario()
  {
    var m := Hello();
    var e := new Engine(map["M" := m], map["A" := 0, "B" := 0]);
    var a := Session("sa", Some("A"));
    var b := Session("sb", Some("B"));
    assert Pending(e.msgs, "A") == map[];
    var first := e.Connect(a);
    assert first == [];

    var before := e.outbox;
    e.SendMessage(a, "M", m);
    assert e.msgs["M"].status == Sent;
    assert e.outbox == before + [Emit("sa", ReceiveMessage("M", m))];

    assert Pending(e.msgs, "B").Keys == {"M"};
    before := e.outbox;
    var order := e.Connect(b);
    assert e.msgs["M"].status == Delivered;
    assert order == ["M"];
    DeliveryNoticeExactlyOnce(order, map["M" := m], e.socketOf, "M", "sa");
    assert multiset(e.outbox[|before| + 1..])[DeliveredNotice("sa", "M")] == 1;
  }

  /** A and B online and B has A's conversation open: A's message goes
      straight to read. */
  method ImmediateReadScenario()
  {
    var m := Hello();
    var e := new Engine(map["M" := m], map[]);
    var a := Session("sa", Some("A"));
    var b := Session("sb", Some("B"));
    assert Pending(e.msgs, "A") == map[];
    var ga := e.Connect(a);
    assert Pending(e.msgs, "B").Keys == {"M"};
    var gb := e.Connect(b);
    e.JoinChat(b, "B", "A");
    var before := e.outbox;
    e.SendMessage(a, "M", m);
    assert e.msgs["M"].status == Read;
    assert e.outbox[|before|..] == [Emit("sa", ReceiveMessage("M", m)),
                                    Emit("sb", ReceiveMessage("M", m.(status := Read))),
                                    Emit("sa", MessageStatus("M", Read))];
  }

  /** A connects twice; the first socket's disconnect removes A's entry even
      though it names the second socket: there is no stale-socket check. */
  method StaleDisconnectScenario()
  {
    var e := new Engine(map[], map["A" := 0]);
    var g1 := e.Connect(Session("s1", Some("A")));
    var g2 := e.Connect(Session("s2", Some("A")));
    assert e.socketOf == map["A" := "s2"];
    e.Disconnect(Session("s1", Some("A")), 7);
    assert "A" !in e.socketOf;
    assert e.lastSeen["A"] == 7;
    assert e.outbox[|e.outbox| - 1] == OnlineUsers({});
  }

  /** A second send of an already read message sets it back to delivered
      when the receiver has closed the conversation. */
  method ResendRegressesScenario()
  {
    var m := Hello();
    var e := new Engine(map["M" := m.(status := Read)], map[]);
    var b := Session("sb", Some("B"));
    assert Pending(e.msgs, "B") == map[];
    var g := e.Connect(b);
    e.SendMessage(Session("sa", Some("A")), "M", m);
    assert e.msgs["M"].status == Delivered;
  }
}
