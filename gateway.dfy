/**
 The WebSocket RPC gateway (`createWsRpcRouter`): three subscription registries,
 one per topic kind, the message handler that routes each client frame and
 updates them, the tx-update fan-out, and the close handling of a client.
 Each handler updates the registries in place and is proved against the
 decision of module Router.
 */
module Gateway {
  import opened JsonRpc
  import opened Registry
  import opened Router

  /** What the data store answers for a transaction id. */
  datatype TxLookup = NotFound | Found(txStatus: string)

  /** Observable I/O of the fan-out: the data-store lookup, and one send per client. */
  datatype Io = Lookup(txId: string) | Send(client: Client, payload: TxUpdateNotification)

  /**
   `sends` delivers `payload` once to each client of `recipients` and to nobody else.
   */
  ghost predicate DeliversOnceToEach(sends: seq<Io>, recipients: set<Client>, payload: TxUpdateNotification)
  {
    && (forall io :: io in sends ==> io.Send? && io.payload == payload && io.client in recipients)
    && (forall c :: c in recipients ==> Send(c, payload) in sends)
    && (forall i, j :: 0 <= i < j < |sends| ==> sends[i] != sends[j])
  }

  /** A delivery of one payload to a single recipient is that one send. */
  lemma DeliveryToOne(sends: seq<Io>, c: Client, payload: TxUpdateNotification)
    requires |sends| == 1 && DeliversOnceToEach(sends, {c}, payload)
    ensures sends == [Send(c, payload)]
  {
    assert sends[0] in sends;
  }

  class WsRpcGateway {
    const txUpdateSubscriptions: SubscriptionManager
    const addressTxUpdateSubscriptions: SubscriptionManager
    const addressBalanceUpdateSubscriptions: SubscriptionManager
    /** The id normalization helper; an empty result means the id is invalid. */
    const normalize: string -> string

    ghost predicate Valid()
      reads txUpdateSubscriptions, addressTxUpdateSubscriptions, addressBalanceUpdateSubscriptions
    {
      && txUpdateSubscriptions != addressTxUpdateSubscriptions
      && txUpdateSubscriptions != addressBalanceUpdateSubscriptions
      && addressTxUpdateSubscriptions != addressBalanceUpdateSubscriptions
      && txUpdateSubscriptions.Valid()
      && addressTxUpdateSubscriptions.Valid()
      && addressBalanceUpdateSubscriptions.Valid()
    }

    function State(): Registries
      reads txUpdateSubscriptions, addressTxUpdateSubscriptions, addressBalanceUpdateSubscriptions
    {
      Registries(txUpdateSubscriptions.State(), addressTxUpdateSubscriptions.State(),
                 addressBalanceUpdateSubscriptions.State())
    }

    constructor (normalize: string -> string)
      ensures Valid() && State() == NoSubscriptions && this.normalize == normalize
      ensures fresh(txUpdateSubscriptions) && fresh(addressTxUpdateSubscriptions)
      ensures fresh(addressBalanceUpdateSubscriptions)
    {
      txUpdateSubscriptions := new SubscriptionManager();
      addressTxUpdateSubscriptions := new SubscriptionManager();
      addressBalanceUpdateSubscriptions := new SubscriptionManager();
      this.normalize := normalize;
    }

    /** `handleClientMessage`: answer one frame from `client`. */
    method HandleClientMessage(client: Client, data: Message) returns (out: Outbound)
      requires Valid()
      modifies txUpdateSubscriptions, addressTxUpdateSubscriptions, addressBalanceUpdateSubscriptions
      ensures Valid()
      ensures (State(), out) == HandleMessage(old(State()), client, data, normalize)
    {
      match data
      case NonText(typeName) =>
        out := SendOne(Failure(NullId, ParseError("unexpected data type: " + typeName)));
      case Text(parsedRpcReq) =>
        var isBatchRequest := parsedRpcReq.Batch?;
        var rpcReqs := if parsedRpcReq.Batch? then parsedRpcReq.units else [parsedRpcReq.unit];
        rpcReqs := DropNotifications(rpcReqs);
        var responses := HandleUnits(client, rpcReqs);
        if isBatchRequest {
          out := SendBatch(responses);
        } else if |responses| == 1 {
          out := SendOne(responses[0]);
        } else {
          out := NothingSent;
        }
    }

    /** The `map` of `handleClientMessage`: handle the units in order, collecting one response each. */
    method HandleUnits(client: Client, rpcReqs: seq<Unit>) returns (responses: seq<Response>)
      requires Valid()
      modifies txUpdateSubscriptions, addressTxUpdateSubscriptions, addressBalanceUpdateSubscriptions
      ensures Valid()
      ensures responses == Responses(rpcReqs, normalize)
      ensures State() == ApplyAll(old(State()), client, Effects(rpcReqs, normalize))
    {
      responses := [];
      for i := 0 to |rpcReqs|
        invariant Valid()
        invariant responses == Responses(rpcReqs[..i], normalize)
        invariant State() == ApplyAll(old(State()), client, Effects(rpcReqs[..i], normalize))
      {
        var res := HandleUnit(client, rpcReqs[i]);
        ResponsesSnoc(rpcReqs, i, normalize);
        ghost var es := Effects(rpcReqs[..i + 1], normalize);
        assert es[..i] == Effects(rpcReqs[..i], normalize);
        responses := responses + [res];
      }
      assert rpcReqs[..|rpcReqs|] == rpcReqs;
    }

    /** The callback of `handleClientMessage`'s `map`: one unit that is not a notification. */
    method HandleUnit(client: Client, rpcReq: Unit) returns (res: Response)
      requires Valid()
      modifies txUpdateSubscriptions, addressTxUpdateSubscriptions, addressBalanceUpdateSubscriptions
      ensures Valid()
      ensures res == Respond(rpcReq, normalize).response
      ensures State() == Apply(old(State()), client, Respond(rpcReq, normalize).effect)
    {
      match rpcReq
      case Request(id, methodName, params) =>
        res := HandleClientRpcReq(client, id, methodName, params);
      case ErrorUnit(id) =>
        res := Failure(id, InvalidRequest("unexpected error msg from client"));
      case SuccessUnit(id) =>
        res := Failure(id, InvalidRequest("unexpected success msg from client"));
      case Invalid(error) =>
        res := Failure(NullId, error);
      case Notification(_) =>
        res := Failure(NullId, InvalidRequest("unexpected msg type from client"));
    }

    /** `handleClientRpcReq`: route supported methods. */
    method HandleClientRpcReq(client: Client, id: Id, methodName: string, params: Option<Params>)
      returns (res: Response)
      requires Valid()
      modifies txUpdateSubscriptions, addressTxUpdateSubscriptions, addressBalanceUpdateSubscriptions
      ensures Valid()
      ensures var d := ClientRpcReq(id, methodName, params, normalize);
        res == d.response && State() == Apply(old(State()), client, d.effect)
    {
      if methodName == "subscribe" {
        res := HandleClientSubscription(client, id, params, true);
      } else if methodName == "unsubscribe" {
        res := HandleClientSubscription(client, id, params, false);
      } else {
        res := Failure(id, MethodNotFound());
      }
    }

    /** `handleClientSubscription`: route supported subscription events. */
    method HandleClientSubscription(client: Client, id: Id, params: Option<Params>, subscribe: bool)
      returns (res: Response)
      requires Valid()
      modifies txUpdateSubscriptions, addressTxUpdateSubscriptions, addressBalanceUpdateSubscriptions
      ensures Valid()
      ensures var d := ClientSubscription(id, params, subscribe, normalize);
        res == d.response && State() == Apply(old(State()), client, d.effect)
    {
      if params.None? || params.value.event.None? || params.value.event.value == "" {
        return Failure(id, InvalidParams("subscription requests must include an event name"));
      }
      var event := params.value.event.value;
      if event == "tx_update" {
        res := HandleTxUpdateSubscription(client, id, params.value, subscribe);
      } else if event == "address_tx_update" {
        res := HandleAddressTxUpdateSubscription(client, id, params.value, subscribe);
      } else if event == "address_balance_update" {
        res := HandleAddressBalanceUpdateSubscription(client, id, params.value, subscribe);
      } else {
        res := Failure(id, InvalidParams("subscription request must use a valid event name"));
      }
    }

    /** `handleTxUpdateSubscription`: the topic is the normalized `tx_id`. */
    method HandleTxUpdateSubscription(client: Client, id: Id, params: Params, subscribe: bool)
      returns (res: Response)
      requires Valid()
      modifies txUpdateSubscriptions
      ensures Valid()
      ensures var d := TxUpdateSubscription(id, params, subscribe, normalize);
        res == d.response && State() == Apply(old(State()), client, d.effect)
    {
      var txId := normalize(params.txId);
      if |txId| == 0 {
        return Failure(id, InvalidParams("invalid tx_id"));
      }
      if subscribe {
        txUpdateSubscriptions.AddSubscription(client, txId);
      } else {
        txUpdateSubscriptions.RemoveSubscription(client, txId);
      }
      res := Success(id, true);
    }

    /** `handleAddressTxUpdateSubscription`: the topic is the address as given. */
    method HandleAddressTxUpdateSubscription(client: Client, id: Id, params: Params, subscribe: bool)
      returns (res: Response)
      requires Valid()
      modifies addressTxUpdateSubscriptions
      ensures Valid()
      ensures var d := AddressSubscription(AddressTxUpdate, id, params, subscribe);
        res == d.response && State() == Apply(old(State()), client, d.effect)
    {
      var address := params.address;
      if subscribe {
        addressTxUpdateSubscriptions.AddSubscription(client, address);
      } else {
        addressTxUpdateSubscriptions.RemoveSubscription(client, address);
      }
      res := Success(id, true);
    }

    /** `handleAddressBalanceUpdateSubscription`: the topic is the address as given. */
    method HandleAddressBalanceUpdateSubscription(client: Client, id: Id, params: Params, subscribe: bool)
      returns (res: Response)
      requires Valid()
      modifies addressBalanceUpdateSubscriptions
      ensures Valid()
      ensures var d := AddressSubscription(AddressBalanceUpdate, id, params, subscribe);
        res == d.response && State() == Apply(old(State()), client, d.effect)
    {
      var address := params.address;
      if subscribe {
        addressBalanceUpdateSubscriptions.AddSubscription(client, address);
      } else {
        addressBalanceUpdateSubscriptions.RemoveSubscription(client, address);
      }
      res := Success(id, true);
    }

    /**
     `processTxUpdate` for a data-store event on `txId` (used as given): with no
     subscribers nothing happens; otherwise the transaction is looked up, and when
     it is found one `tx_update` notification goes to every subscriber.
     */
    method ProcessTxUpdate(txId: string, lookup: TxLookup) returns (io: seq<Io>)
      requires Valid()
      ensures txId !in txUpdateSubscriptions.subscriptions ==> io == []
      ensures txId in txUpdateSubscriptions.subscriptions && lookup.NotFound? ==> io == [Lookup(txId)]
      ensures txId in txUpdateSubscriptions.subscriptions && lookup.Found? ==>
        && |io| == 1 + |txUpdateSubscriptions.subscriptions[txId]|
        && io[0] == Lookup(txId)
        && DeliversOnceToEach(io[1..], txUpdateSubscriptions.subscriptions[txId],
                              TxUpdateNotification(txId, lookup.txStatus))
    {
      io := [];
      if txId in txUpdateSubscriptions.subscriptions {
        var subscribers := txUpdateSubscriptions.subscriptions[txId];
        io := [Lookup(txId)];
        if lookup.NotFound? {
          return;
        }
        var payload := TxUpdateNotification(txId, lookup.txStatus);
        var sends: seq<Io> := [];
        var rest := subscribers;
        while rest != {}
          invariant rest <= subscribers
          invariant |sends| + |rest| == |subscribers|
          invariant DeliversOnceToEach(sends, subscribers - rest, payload)
          decreases rest
        {
          var client :| client in rest;
          sends := sends + [Send(client, payload)];
          rest := rest - {client};
        }
        io := io + sends;
        assert io[1..] == sends;
      }
    }

    /** A client's `close` event: each registry runs the callbacks it registered on it. */
    method ClientClosed(client: Client)
      requires Valid()
      modifies txUpdateSubscriptions, addressTxUpdateSubscriptions, addressBalanceUpdateSubscriptions
      ensures Valid()
      ensures State() == Registries(Disconnect(old(State()).tx, client),
                                    Disconnect(old(State()).addressTx, client),
                                    Disconnect(old(State()).addressBalance, client))
    {
      txUpdateSubscriptions.Close(client);
      addressTxUpdateSubscriptions.Close(client);
      addressBalanceUpdateSubscriptions.Close(client);
    }
  }
}
