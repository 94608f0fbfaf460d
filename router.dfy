/**
 The JSON-RPC request router of the gateway as a decision: for one parsed unit,
 the response to send and the one registry change to make for the sending
 client. `normalize` stands for the id normalization helper (`normalizeHashString`),
 whose empty result means the id is invalid.
 */
module Router {
  import opened JsonRpc
  import opened Registry

  /** The three topic kinds, one registry instance each. */
  datatype Kind = TxUpdate | AddressTxUpdate | AddressBalanceUpdate

  /** The registry change a unit asks for: none, or a subscribe/unsubscribe in one registry. */
  datatype Effect = NoEffect | Change(kind: Kind, subscribe: bool, topic: string)

  datatype Decision = Decision(response: Response, effect: Effect)

  /** The state of the gateway's three registry instances. */
  datatype Registries = Registries(tx: RegistryState, addressTx: RegistryState, addressBalance: RegistryState)

  const NoSubscriptions: Registries := Registries(EmptyState, EmptyState, EmptyState)

  ghost predicate ValidRegistries(rs: Registries)
  {
    ValidState(rs.tx) && ValidState(rs.addressTx) && ValidState(rs.addressBalance)
  }

  function Of(rs: Registries, k: Kind): RegistryState
  {
    match k
    case TxUpdate => rs.tx
    case AddressTxUpdate => rs.addressTx
    case AddressBalanceUpdate => rs.addressBalance
  }

  /** The values `params.event` may name. */
  function KindOfEvent(event: string): Option<Kind>
  {
    if event == "tx_update" then Some(TxUpdate)
    else if event == "address_tx_update" then Some(AddressTxUpdate)
    else if event == "address_balance_update" then Some(AddressBalanceUpdate)
    else None
  }

  /** `!params.event`: an absent or empty event name is falsy. */
  predicate HasEvent(params: Option<Params>)
  {
    params.Some? && params.value.event.Some? && params.value.event.value != ""
  }

  /** `handleTxUpdateSubscription`: the normalized `tx_id` is the topic; an empty one is refused. */
  function TxUpdateSubscription(id: Id, params: Params, subscribe: bool, normalize: string -> string): (d: Decision)
    ensures d.response.id == id
    ensures d.response.Success? <==> normalize(params.txId) != ""
    ensures d.response.Success? ==> d.response.result && d.effect == Change(TxUpdate, subscribe, normalize(params.txId))
    ensures d.response.Failure? ==> d.effect == NoEffect && d.response.error.code == InvalidParamsCode
  {
    var txId := normalize(params.txId);
    if |txId| == 0 then Decision(Failure(id, InvalidParams("invalid tx_id")), NoEffect)
    else Decision(Success(id, true), Change(TxUpdate, subscribe, txId))
  }

  /**
   `handleAddressTxUpdateSubscription` and `handleAddressBalanceUpdateSubscription`:
   the raw address is the topic, with no validation.
   */
  function AddressSubscription(kind: Kind, id: Id, params: Params, subscribe: bool): (d: Decision)
    ensures d.response == Success(id, true)
    ensures d.effect.Change? && d.effect.kind == kind && d.effect.subscribe == subscribe
    ensures d.effect.topic == params.address
  {
    Decision(Success(id, true), Change(kind, subscribe, params.address))
  }

  /** `handleClientSubscription`: route by `params.event`. */
  function ClientSubscription(id: Id, params: Option<Params>, subscribe: bool, normalize: string -> string): (d: Decision)
    ensures d.response.id == id
    ensures d.response.Success? <==> d.effect.Change?
    ensures d.response.Success? ==> d.response.result && d.effect.subscribe == subscribe
    ensures d.response.Failure? ==> d.effect == NoEffect && d.response.error.code == InvalidParamsCode
    ensures !HasEvent(params) ==> d.response.Failure?
  {
    if !HasEvent(params) then
      Decision(Failure(id, InvalidParams("subscription requests must include an event name")), NoEffect)
    else
      var event := params.value.event.value;
      if event == "tx_update" then TxUpdateSubscription(id, params.value, subscribe, normalize)
      else if event == "address_tx_update" then AddressSubscription(AddressTxUpdate, id, params.value, subscribe)
      else if event == "address_balance_update" then AddressSubscription(AddressBalanceUpdate, id, params.value, subscribe)
      else Decision(Failure(id, InvalidParams("subscription request must use a valid event name")), NoEffect)
  }

  /** `handleClientRpcReq`: only `subscribe` and `unsubscribe` are methods. */
  function ClientRpcReq(id: Id, methodName: string, params: Option<Params>, normalize: string -> string): (d: Decision)
    ensures d.response.id == id
    ensures methodName != "subscribe" && methodName != "unsubscribe" ==>
              d == Decision(Failure(id, MethodNotFound()), NoEffect)
    ensures d.response.Success? <==> d.effect.Change?
    ensures d.response.Success? ==> d.response.result
    ensures d.response.Failure? ==> d.response.error.code in {MethodNotFoundCode, InvalidParamsCode}
    ensures d.effect.Change? ==> (d.effect.subscribe <==> methodName == "subscribe")
  {
    if methodName == "subscribe" then ClientSubscription(id, params, true, normalize)
    else if methodName == "unsubscribe" then ClientSubscription(id, params, false, normalize)
    else Decision(Failure(id, MethodNotFound()), NoEffect)
  }

  /**
   The topic a subscription request names, validated once: a known event kind and
   its key (the normalized, non-empty `tx_id`, or the raw `address`).
   */
  function RequestedTopic(params: Option<Params>, normalize: string -> string): Option<(Kind, string)>
  {
    if !HasEvent(params) then None
    else match KindOfEvent(params.value.event.value)
      case None => None
      case Some(TxUpdate) => if normalize(params.value.txId) == "" then None else Some((TxUpdate, normalize(params.value.txId)))
      case Some(k) => Some((k, params.value.address))
  }

  /**
   A subscription request succeeds exactly when it names a valid topic; it then
   changes that topic in that kind's registry, and otherwise it is an
   invalid-params error carrying the request's id that changes nothing.
   */
  lemma SubscriptionOutcome(id: Id, params: Option<Params>, subscribe: bool, normalize: string -> string)
    ensures var d := ClientSubscription(id, params, subscribe, normalize);
      match RequestedTopic(params, normalize)
      case Some((k, key)) => d == Decision(Success(id, true), Change(k, subscribe, key))
      case None => d.effect == NoEffect && d.response.Failure? && d.response.id == id
                   && d.response.error.code == InvalidParamsCode
  {
    if HasEvent(params) {
      var event := params.value.event.value;
      if event == "tx_update" {
        assert KindOfEvent(event) == Some(TxUpdate);
      } else if event == "address_tx_update" {
        assert KindOfEvent(event) == Some(AddressTxUpdate);
      } else if event == "address_balance_update" {
        assert KindOfEvent(event) == Some(AddressBalanceUpdate);
      } else {
        assert KindOfEvent(event) == None;
      }
    }
  }

  /** The three ways a request fails before any registry is touched. */
  lemma InvalidParamsCases(id: Id, params: Option<Params>, subscribe: bool, normalize: string -> string)
    ensures !HasEvent(params) ==>
      ClientSubscription(id, params, subscribe, normalize)
        == Decision(Failure(id, InvalidParams("subscription requests must include an event name")), NoEffect)
    ensures HasEvent(params) && KindOfEvent(params.value.event.value).None? ==>
      ClientSubscription(id, params, subscribe, normalize)
        == Decision(Failure(id, InvalidParams("subscription request must use a valid event name")), NoEffect)
    ensures HasEvent(params) && params.value.event.value == "tx_update" && normalize(params.value.txId) == "" ==>
      ClientSubscription(id, params, subscribe, normalize)
        == Decision(Failure(id, InvalidParams("invalid tx_id")), NoEffect)
  {
  }

  /**
   The switch inside `handleClientMessage`'s `map`: requests are routed; a client
   that sends a response gets invalid-request with that response's id; an invalid
   unit gets its own error with a null id. A notification never reaches it (it is
   filtered out first) and would take the `default` branch.
   */
  function Respond(u: Unit, normalize: string -> string): (d: Decision)
    ensures !u.Request? ==> d.effect == NoEffect
    ensures u.Request? ==> d == ClientRpcReq(u.id, u.methodName, u.params, normalize)
    ensures (u.SuccessUnit? || u.ErrorUnit?) ==>
              d.response.Failure? && d.response.id == u.id && d.response.error.code == InvalidRequestCode
    ensures u.Invalid? ==> d.response == Failure(NullId, u.error)
  {
    match u
    case Request(id, m, params) => ClientRpcReq(id, m, params, normalize)
    case ErrorUnit(id) => Decision(Failure(id, InvalidRequest("unexpected error msg from client")), NoEffect)
    case SuccessUnit(id) => Decision(Failure(id, InvalidRequest("unexpected success msg from client")), NoEffect)
    case Invalid(error) => Decision(Failure(NullId, error), NoEffect)
    case Notification(_) => Decision(Failure(NullId, InvalidRequest("unexpected msg type from client")), NoEffect)
  }

  /** The `filter` that drops client notifications. */
  function DropNotifications(us: seq<Unit>): (r: seq<Unit>)
    ensures |r| <= |us|
    ensures forall u :: u in r <==> u in us && !u.Notification?
  {
    if us == [] then []
    else if us[0].Notification? then DropNotifications(us[1..])
    else [us[0]] + DropNotifications(us[1..])
  }

  /** Filtering a concatenation filters each part, keeping their relative order. */
  lemma {:induction false} DropNotificationsConcat(a: seq<Unit>, b: seq<Unit>)
    ensures DropNotifications(a + b) == DropNotifications(a) + DropNotifications(b)
  {
    if a != [] {
      assert (a + b)[1..] == a[1..] + b;
      DropNotificationsConcat(a[1..], b);
    } else {
      assert a + b == b;
    }
  }

  /** The responses to a sequence of units, one each, in order. */
  function Responses(us: seq<Unit>, normalize: string -> string): (r: seq<Response>)
    ensures |r| == |us|
    ensures forall i :: 0 <= i < |us| ==> r[i] == Respond(us[i], normalize).response
  {
    seq(|us|, i requires 0 <= i < |us| => Respond(us[i], normalize).response)
  }

  function Effects(us: seq<Unit>, normalize: string -> string): (r: seq<Effect>)
    ensures |r| == |us|
    ensures forall i :: 0 <= i < |us| ==> r[i] == Respond(us[i], normalize).effect
  {
    seq(|us|, i requires 0 <= i < |us| => Respond(us[i], normalize).effect)
  }

  lemma ResponsesSnoc(us: seq<Unit>, i: nat, normalize: string -> string)
    requires i < |us|
    ensures Responses(us[..i + 1], normalize) == Responses(us[..i], normalize) + [Respond(us[i], normalize).response]
    ensures Effects(us[..i + 1], normalize) == Effects(us[..i], normalize) + [Respond(us[i], normalize).effect]
  {
    assert us[..i + 1] == us[..i] + [us[i]];
  }

  /** One effect applied, for client `c`, to the registry it names. */
  function Apply(rs: Registries, c: Client, e: Effect): (r: Registries)
    ensures ValidRegistries(rs) ==> ValidRegistries(r)
    ensures forall k :: (e.NoEffect? || k != e.kind) ==> Of(r, k) == Of(rs, k)
    ensures e.Change? && e.subscribe ==> Of(r, e.kind) == Subscribe(Of(rs, e.kind), c, e.topic)
    ensures e.Change? && !e.subscribe ==> Of(r, e.kind) == Unsubscribe(Of(rs, e.kind), c, e.topic)
  {
    match e
    case NoEffect => rs
    case Change(k, sub, t) =>
      var s := Of(rs, k);
      var s' := if sub then Subscribe(s, c, t) else Unsubscribe(s, c, t);
      match k
      case TxUpdate => rs.(tx := s')
      case AddressTxUpdate => rs.(addressTx := s')
      case AddressBalanceUpdate => rs.(addressBalance := s')
  }

  /** Effects applied in order, for client `c`. */
  function ApplyAll(rs: Registries, c: Client, es: seq<Effect>): (r: Registries)
    ensures ValidRegistries(rs) ==> ValidRegistries(r)
    decreases |es|
  {
    if es == [] then rs
    else Apply(ApplyAll(rs, c, es[..|es| - 1]), c, es[|es| - 1])
  }

  /**
   `handleClientMessage` for client `c`: the registries afterwards and what is
   sent. A non-text frame is a parse error with a null id. A batch is always
   answered with the array of responses, even an empty one; a single unit is
   answered only when it produced a response.
   */
  function HandleMessage(rs: Registries, c: Client, msg: Message, normalize: string -> string): (r: (Registries, Outbound))
    ensures ValidRegistries(rs) ==> ValidRegistries(r.0)
    ensures msg.NonText? ==> r.0 == rs
    ensures r.1.SendBatch? <==> msg.Text? && msg.parsed.Batch?
  {
    match msg
    case NonText(typeName) =>
      (rs, SendOne(Failure(NullId, ParseError("unexpected data type: " + typeName))))
    case Text(parsed) =>
      (ApplyAll(rs, c, Effects(Answered(parsed), normalize)), Replies(parsed, normalize))
  }

  /** The units of a parsed frame that get a response: all but the notifications. */
  function Answered(parsed: Parsed): (r: seq<Unit>)
    ensures forall u :: u in r <==> (if parsed.Batch? then u in parsed.units else u == parsed.unit) && !u.Notification?
  {
    DropNotifications(if parsed.Batch? then parsed.units else [parsed.unit])
  }

  /** What is sent back for a parsed text frame. */
  function Replies(parsed: Parsed, normalize: string -> string): (r: Outbound)
    ensures r.SendBatch? <==> parsed.Batch?
    ensures r.SendBatch? ==> |r.responses| == |Answered(parsed)|
    ensures r == NothingSent <==> parsed.Single? && parsed.unit.Notification?
    ensures r.SendOne? ==> r.response == Respond(parsed.unit, normalize).response
  {
    assert parsed.Single? ==> Answered(parsed) == if parsed.unit.Notification? then [] else [parsed.unit];
    var responses := Responses(Answered(parsed), normalize);
    if parsed.Batch? then SendBatch(responses)
    else if |responses| == 1 then SendOne(responses[0])
    else NothingSent
  }

  /** A non-text frame is answered with one parse error, null id, and changes nothing. */
  lemma NonTextIsParseError(rs: Registries, c: Client, typeName: string, normalize: string -> string)
    ensures var (rs', out) := HandleMessage(rs, c, NonText(typeName), normalize);
      rs' == rs && out.SendOne? && out.response.Failure? && out.response.id == NullId
      && out.response.error.code == ParseErrorCode
  {
  }

  /** A lone notification is never answered and changes nothing; any other lone unit gets its response. */
  lemma SingleUnit(rs: Registries, c: Client, u: Unit, normalize: string -> string)
    ensures var (rs', out) := HandleMessage(rs, c, Text(Single(u)), normalize);
      if u.Notification? then rs' == rs && out == NothingSent
      else rs' == Apply(rs, c, Respond(u, normalize).effect)
           && out == SendOne(Respond(u, normalize).response)
  {
    if u.Notification? {
      assert DropNotifications([u]) == [];
    } else {
      assert DropNotifications([u]) == [u];
      var es := Effects([u], normalize);
      assert es[..|es| - 1] == [];
      assert ApplyAll(rs, c, es) == Apply(rs, c, es[0]);
    }
  }

  /**
   A batch is answered with one response per unit that is not a notification, in
   input order: the answer to `a + b` is the answer to `a` followed by that to `b`.
   */
  lemma BatchAnswersInOrder(a: seq<Unit>, b: seq<Unit>, normalize: string -> string)
    ensures Replies(Batch(a + b), normalize)
         == SendBatch(Replies(Batch(a), normalize).responses + Replies(Batch(b), normalize).responses)
  {
    DropNotificationsConcat(a, b);
    ResponsesConcat(DropNotifications(a), DropNotifications(b), normalize);
  }

  lemma ResponsesConcat(x: seq<Unit>, y: seq<Unit>, normalize: string -> string)
    ensures Responses(x + y, normalize) == Responses(x, normalize) + Responses(y, normalize)
  {
    var l, r := Responses(x + y, normalize), Responses(x, normalize) + Responses(y, normalize);
    assert |l| == |r|;
    forall i | 0 <= i < |l| ensures l[i] == r[i] {
      if i < |x| {
        assert (x + y)[i] == x[i];
        assert r[i] == Responses(x, normalize)[i];
      } else {
        assert (x + y)[i] == y[i - |x|];
        assert r[i] == Responses(y, normalize)[i - |x|];
      }
    }
  }

  /** A batch answers a request unit with exactly one response, a notification with none. */
  lemma BatchOfOne(u: Unit, normalize: string -> string)
    ensures Replies(Batch([u]), normalize)
         == SendBatch(if u.Notification? then [] else [Respond(u, normalize).response])
  {
    assert DropNotifications([u]) == if u.Notification? then [] else [u];
  }

  /** A batch made only of notifications still sends an (empty) array and changes nothing. */
  lemma NotificationBatch(rs: Registries, c: Client, us: seq<Unit>, normalize: string -> string)
    requires forall i :: 0 <= i < |us| ==> us[i].Notification?
    ensures HandleMessage(rs, c, Text(Batch(us)), normalize) == (rs, SendBatch([]))
  {
    OnlyNotificationsDropped(us);
  }

  lemma {:induction false} OnlyNotificationsDropped(us: seq<Unit>)
    requires forall i :: 0 <= i < |us| ==> us[i].Notification?
    ensures DropNotifications(us) == []
  {
    if us != [] {
      OnlyNotificationsDropped(us[1..]);
    }
  }
}
