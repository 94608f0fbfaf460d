/**
 Properties of the gateway over several frames: what a client sees across a
 subscribe, an unsubscribe, a disconnect and a later data-store event.
 */
module Scenarios {
  import opened JsonRpc
  import opened Registry
  import opened Router
  import opened Gateway

  function TxParams(txId: string): Params
  {
    Params(Some("tx_update"), txId, "")
  }

  function TxRequest(id: Id, methodName: string, txId: string): Message
  {
    Text(Single(Request(id, methodName, Some(TxParams(txId)))))
  }

  /** One `tx_update` subscribe or unsubscribe frame with a valid id: answered `true`, one change. */
  lemma TxFrame(rs: Registries, c: Client, id: Id, methodName: string, txId: string, normalize: string -> string)
    requires methodName == "subscribe" || methodName == "unsubscribe"
    requires normalize(txId) != ""
    ensures HandleMessage(rs, c, TxRequest(id, methodName, txId), normalize)
         == (Apply(rs, c, Change(TxUpdate, methodName == "subscribe", normalize(txId))), SendOne(Success(id, true)))
  {
    SingleUnit(rs, c, Request(id, methodName, Some(TxParams(txId))), normalize);
  }

  /** A client sends one valid `tx_update` subscribe or unsubscribe frame to the gateway. */
  method SendTxFrame(gateway: WsRpcGateway, c: Client, id: Id, methodName: string, txId: string)
    returns (out: Outbound)
    requires gateway.Valid()
    requires methodName == "subscribe" || methodName == "unsubscribe"
    requires gateway.normalize(txId) != ""
    modifies gateway.txUpdateSubscriptions, gateway.addressTxUpdateSubscriptions, gateway.addressBalanceUpdateSubscriptions
    ensures gateway.Valid()
    ensures out == SendOne(Success(id, true))
    ensures gateway.State()
         == Apply(old(gateway.State()), c, Change(TxUpdate, methodName == "subscribe", gateway.normalize(txId)))
  {
    out := gateway.HandleClientMessage(c, TxRequest(id, methodName, txId));
    TxFrame(old(gateway.State()), c, id, methodName, txId, gateway.normalize);
  }

  /** One frame with a request whose method is unknown: method-not-found with its id, no change. */
  lemma UnknownMethodChangesNothing(rs: Registries, c: Client, id: Id, methodName: string,
                                    params: Option<Params>, normalize: string -> string)
    requires methodName != "subscribe" && methodName != "unsubscribe"
    ensures HandleMessage(rs, c, Text(Single(Request(id, methodName, params))), normalize)
         == (rs, SendOne(Failure(id, MethodNotFound())))
  {
    SingleUnit(rs, c, Request(id, methodName, params), normalize);
  }

  /**
   A `tx_update` subscribe frame followed by the matching unsubscribe frame, from a
   client that was not subscribed, is answered `true` twice and leaves every
   topic map as it was; the subscribe's close callback stays registered.
   */
  lemma SubscribeThenUnsubscribe(rs: Registries, c: Client, id1: Id, id2: Id, txId: string,
                                 normalize: string -> string)
    requires ValidRegistries(rs)
    requires normalize(txId) != ""
    requires c !in Subscribers(rs.tx.subscriptions, normalize(txId))
    ensures var (rs1, out1) := HandleMessage(rs, c, TxRequest(id1, "subscribe", txId), normalize);
      var (rs2, out2) := HandleMessage(rs1, c, TxRequest(id2, "unsubscribe", txId), normalize);
      && out1 == SendOne(Success(id1, true)) && out2 == SendOne(Success(id2, true))
      && rs2.tx.subscriptions == rs.tx.subscriptions
      && rs2.tx.closeListeners == rs.tx.closeListeners + [Hook(c, normalize(txId))]
      && rs2.addressTx == rs.addressTx && rs2.addressBalance == rs.addressBalance
  {
    var key := normalize(txId);
    TxFrame(rs, c, id1, "subscribe", txId, normalize);
    TxFrame(Apply(rs, c, Change(TxUpdate, true, key)), c, id2, "unsubscribe", txId, normalize);
    AddThenRemove(rs.tx.subscriptions, c, key);
  }

  /**
   Two clients subscribing to `tx_update` with two spellings of one transaction id
   end up in one topic.
   */
  lemma SpellingsShareTopic(rs: Registries, c1: Client, c2: Client, id1: Id, id2: Id,
                            x1: string, x2: string, normalize: string -> string)
    requires normalize(x1) == normalize(x2) != ""
    ensures var (rs1, _) := HandleMessage(rs, c1, TxRequest(id1, "subscribe", x1), normalize);
      var (rs2, _) := HandleMessage(rs1, c2, TxRequest(id2, "subscribe", x2), normalize);
      && Subscribers(rs2.tx.subscriptions, normalize(x1))
           == Subscribers(rs.tx.subscriptions, normalize(x1)) + {c1, c2}
      && rs2.tx.subscriptions.Keys == rs.tx.subscriptions.Keys + {normalize(x1)}
  {
    var key := normalize(x1);
    TxFrame(rs, c1, id1, "subscribe", x1, normalize);
    TxFrame(Apply(rs, c1, Change(TxUpdate, true, key)), c2, id2, "subscribe", x2, normalize);
  }

  /** A batch of two valid subscribe requests is answered `true` twice, in order. */
  lemma TwoSubscribesBatch(id1: Id, id2: Id, p1: Params, p2: Params, normalize: string -> string)
    requires RequestedTopic(Some(p1), normalize).Some? && RequestedTopic(Some(p2), normalize).Some?
    ensures Replies(Batch([Request(id1, "subscribe", Some(p1)), Request(id2, "subscribe", Some(p2))]), normalize)
         == SendBatch([Success(id1, true), Success(id2, true)])
  {
    var u1, u2 := Request(id1, "subscribe", Some(p1)), Request(id2, "subscribe", Some(p2));
    SubscriptionOutcome(id1, Some(p1), true, normalize);
    SubscriptionOutcome(id2, Some(p2), true, normalize);
    assert [u1, u2] == [u1] + [u2];
    BatchAnswersInOrder([u1], [u2], normalize);
    BatchOfOne(u1, normalize);
    BatchOfOne(u2, normalize);
  }

  /**
   Whatever the state of the gateway, once a client has closed, no later
   transaction update sends it anything.
   */
  method ClosedClientGetsNothing(gateway: WsRpcGateway, c: Client, txId: string, lookup: TxLookup)
    returns (io: seq<Io>)
    requires gateway.Valid()
    modifies gateway.txUpdateSubscriptions, gateway.addressTxUpdateSubscriptions, gateway.addressBalanceUpdateSubscriptions
    ensures forall p :: Send(c, p) !in io
  {
    gateway.ClientClosed(c);
    assert c !in Subscribers(gateway.txUpdateSubscriptions.subscriptions, txId);
    io := gateway.ProcessTxUpdate(txId, lookup);
  }

  /**
   On a fresh gateway, a client subscribes to a transaction, the data store then reports it with
   status `status`: the client receives one `tx_update` notification keyed by the
   normalized id.
   */
  method SubscribeThenNotify(normalize: string -> string, c: Client, id: Id, txId: string, status: string)
    returns (reply: Outbound, io: seq<Io>)
    requires normalize(txId) != ""
    ensures reply == SendOne(Success(id, true))
    ensures io == [Lookup(normalize(txId)), Send(c, TxUpdateNotification(normalize(txId), status))]
  {
    var gateway := new WsRpcGateway(normalize);
    reply := SendTxFrame(gateway, c, id, "subscribe", txId);
    assert gateway.txUpdateSubscriptions.subscriptions[normalize(txId)] == {c};
    io := gateway.ProcessTxUpdate(normalize(txId), Found(status));
    DeliveryToOne(io[1..], c, TxUpdateNotification(normalize(txId), status));
    assert io == [io[0]] + io[1..];
  }

  /**
   Whatever the state of the gateway, once a client has unsubscribed from a
   transaction, a later update of it sends that client nothing.
   */
  method UnsubscribedClientGetsNothing(gateway: WsRpcGateway, c: Client, id: Id, txId: string, lookup: TxLookup)
    returns (io: seq<Io>)
    requires gateway.Valid()
    requires gateway.normalize(txId) != ""
    modifies gateway.txUpdateSubscriptions, gateway.addressTxUpdateSubscriptions, gateway.addressBalanceUpdateSubscriptions
    ensures forall p :: Send(c, p) !in io
  {
    var _ := SendTxFrame(gateway, c, id, "unsubscribe", txId);
    io := gateway.ProcessTxUpdate(gateway.normalize(txId), lookup);
  }

  /** On a fresh gateway, a client that unsubscribed before the event receives nothing, and no lookup is made. */
  method UnsubscribeThenNoNotify(normalize: string -> string, c: Client, txId: string, status: string)
    returns (io: seq<Io>)
    requires normalize(txId) != ""
    ensures io == []
  {
    var gateway := new WsRpcGateway(normalize);
    var _ := SendTxFrame(gateway, c, NumId(1), "subscribe", txId);
    var _ := SendTxFrame(gateway, c, NumId(2), "unsubscribe", txId);
    AddThenRemove(map[], c, normalize(txId));
    io := gateway.ProcessTxUpdate(normalize(txId), Found(status));
  }

  /**
   Two clients subscribe to one transaction and the first then disconnects: the
   topic keeps the second client and loses the first.
   */
  lemma SubscribeSubscribeClose(rs: Registries, c: Client, other: Client, id1: Id, id2: Id,
                                txId: string, normalize: string -> string)
    requires normalize(txId) != "" && other != c
    ensures var (rs1, _) := HandleMessage(rs, c, TxRequest(id1, "subscribe", txId), normalize);
      var (rs2, _) := HandleMessage(rs1, other, TxRequest(id2, "subscribe", txId), normalize);
      Subscribers(Disconnect(rs2.tx, c).subscriptions, normalize(txId))
        == Subscribers(rs.tx.subscriptions, normalize(txId)) - {c} + {other}
  {
    var key := normalize(txId);
    TxFrame(rs, c, id1, "subscribe", txId, normalize);
    TxFrame(Apply(rs, c, Change(TxUpdate, true, key)), other, id2, "subscribe", txId, normalize);
  }

  /** Two clients subscribe to one transaction on a fresh gateway, then the first disconnects. */
  method SubscribeTwoThenClose(normalize: string -> string, c: Client, other: Client, txId: string)
    returns (gateway: WsRpcGateway)
    requires normalize(txId) != "" && other != c
    ensures gateway.Valid() && gateway.normalize == normalize
    ensures Subscribers(gateway.txUpdateSubscriptions.subscriptions, normalize(txId)) == {other}
  {
    gateway := new WsRpcGateway(normalize);
    var key := normalize(txId);
    var _ := SendTxFrame(gateway, c, NumId(1), "subscribe", txId);
    var _ := SendTxFrame(gateway, other, NumId(2), "subscribe", txId);
    ghost var before := gateway.State().tx.subscriptions;
    assert Subscribers(before, key) == {c, other};
    gateway.ClientClosed(c);
    assert gateway.State().tx.subscriptions == WithoutClient(before, c);
  }

  /** On a fresh gateway with two subscribers, the one that disconnected before the event receives nothing; the other does. */
  method CloseThenNoNotify(normalize: string -> string, c: Client, other: Client, txId: string, status: string)
    returns (io: seq<Io>)
    requires normalize(txId) != "" && other != c
    ensures io == [Lookup(normalize(txId)), Send(other, TxUpdateNotification(normalize(txId), status))]
  {
    var gateway := SubscribeTwoThenClose(normalize, c, other, txId);
    var key := normalize(txId);
    io := gateway.ProcessTxUpdate(key, Found(status));
    DeliveryToOne(io[1..], other, TxUpdateNotification(key, status));
    assert io == [io[0]] + io[1..];
  }
}
