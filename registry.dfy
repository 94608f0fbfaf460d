/**
 The subscription registry of the WebSocket gateway: a map from topic id to the
 set of clients interested in it, kept by `SubscriptionManager`. The pure
 functions below say what each operation does to the map; the class updates
 its fields in place and is proved against them.
 */
module Registry {
  import opened JsonRpc

  /** Topic id to the clients subscribed to it. */
  type Topics = map<string, set<Client>>

  /** A close callback registered on `client` that unsubscribes it from `topic`. */
  datatype Hook = Hook(client: Client, topic: string)

  /** The registry invariant: a topic is present only while somebody listens to it. */
  ghost predicate NoEmptySets(m: Topics)
  {
    forall t :: t in m ==> m[t] != {}
  }

  /** Every membership has a close callback that will undo it. */
  ghost predicate Tracked(m: Topics, hooks: seq<Hook>)
  {
    forall t, c :: t in m && c in m[t] ==> Hook(c, t) in hooks
  }

  /** The clients a lookup of topic `t` finds (none when the topic is absent). */
  function Subscribers(m: Topics, t: string): set<Client>
  {
    if t in m then m[t] else {}
  }

  /** `addSubscription`: create the topic's set on first use, then insert the client. */
  function Add(m: Topics, c: Client, t: string): (r: Topics)
    ensures r.Keys == m.Keys + {t}
    ensures Subscribers(r, t) == Subscribers(m, t) + {c}
    ensures forall u :: u != t && u in m ==> r[u] == m[u]
  {
    var clients := if t in m then m[t] else {};
    m[t := clients + {c}]
  }

  /** `removeSubscription`: delete the client, and the topic once its set is empty. */
  function Remove(m: Topics, c: Client, t: string): (r: Topics)
    ensures Subscribers(r, t) == Subscribers(m, t) - {c}
    ensures t in r <==> t in m && m[t] - {c} != {}
    ensures r.Keys - {t} == m.Keys - {t}
    ensures forall u :: u != t && u in m ==> u in r && r[u] == m[u]
  {
    if t in m then
      var clients := m[t] - {c};
      if |clients| == 0 then m - {t} else m[t := clients]
    else
      m
  }

  /** The registry with client `c` gone from every topic (the effect of a disconnect). */
  function WithoutClient(m: Topics, c: Client): (r: Topics)
    ensures NoEmptySets(r)
    ensures r.Keys <= m.Keys
    ensures forall t :: c !in Subscribers(r, t)
    ensures forall t, d :: d != c ==> (d in Subscribers(r, t) <==> d in Subscribers(m, t))
    ensures forall t :: Subscribers(r, t) == Subscribers(m, t) - {c}
  {
    map t | t in m && m[t] - {c} != {} :: m[t] - {c}
  }

  /** The close callbacks that remain once client `c` has gone. */
  function DropClient(hooks: seq<Hook>, c: Client): (r: seq<Hook>)
    ensures forall h :: h in r <==> h in hooks && h.client != c
  {
    if hooks == [] then []
    else if hooks[0].client == c then DropClient(hooks[1..], c)
    else [hooks[0]] + DropClient(hooks[1..], c)
  }

  /** The topics of the callbacks registered for `c`. */
  function TopicsOf(hooks: seq<Hook>, c: Client): set<string>
  {
    set h | h in hooks && h.client == c :: h.topic
  }

  /**
   What firing the close callbacks `hooks` of client `c` does, in registration
   order: each callback of `c` calls `Remove` for its topic.
   */
  function RunHooks(m: Topics, c: Client, hooks: seq<Hook>): (r: Topics)
    ensures r.Keys <= m.Keys
    ensures forall t :: Subscribers(r, t) <= Subscribers(m, t)
    ensures forall t :: Subscribers(r, t) - {c} == Subscribers(m, t) - {c}
    decreases |hooks|
  {
    if hooks == [] then m
    else
      var before := RunHooks(m, c, hooks[..|hooks| - 1]);
      var last := hooks[|hooks| - 1];
      if last.client == c then Remove(before, c, last.topic) else before
  }

  /** `c` removed from the topics in `ts` only, with emptied topics dropped. */
  function Strip(m: Topics, c: Client, ts: set<string>): Topics
  {
    map t | t in m && (t !in ts || m[t] - {c} != {}) :: if t in ts then m[t] - {c} else m[t]
  }

  lemma StripStep(m: Topics, c: Client, ts: set<string>, t: string)
    ensures Remove(Strip(m, c, ts), c, t) == Strip(m, c, ts + {t})
  {
    var s := Strip(m, c, ts);
    var lhs, rhs := Remove(s, c, t), Strip(m, c, ts + {t});
    if t !in m {
      assert lhs == s;
      forall u | u in m ensures (u in ts + {t}) == (u in ts) { }
      assert rhs == s;
    } else if t in ts {
      assert ts + {t} == ts;
      if t in s {
        assert s[t] - {c} == s[t];
      }
      assert lhs == s;
    } else {
      assert s[t] == m[t];
      assert lhs.Keys == rhs.Keys;
      forall u | u in lhs ensures lhs[u] == rhs[u] {
        if u == t {
          assert lhs[u] == m[t] - {c};
        }
      }
    }
  }

  lemma {:induction false} RunHooksIsStrip(m: Topics, c: Client, hooks: seq<Hook>)
    ensures RunHooks(m, c, hooks) == Strip(m, c, TopicsOf(hooks, c))
    decreases |hooks|
  {
    if hooks == [] {
      assert TopicsOf(hooks, c) == {};
      assert Strip(m, c, {}) == m;
    } else {
      var init, last := hooks[..|hooks| - 1], hooks[|hooks| - 1];
      RunHooksIsStrip(m, c, init);
      assert hooks == init + [last];
      if last.client == c {
        assert TopicsOf(hooks, c) == TopicsOf(init, c) + {last.topic};
        StripStep(m, c, TopicsOf(init, c), last.topic);
      } else {
        assert TopicsOf(hooks, c) == TopicsOf(init, c);
      }
    }
  }

  lemma StripCovering(m: Topics, c: Client, ts: set<string>)
    requires NoEmptySets(m)
    requires forall t :: t in m && c in m[t] ==> t in ts
    ensures Strip(m, c, ts) == WithoutClient(m, c)
  {
    var lhs, rhs := Strip(m, c, ts), WithoutClient(m, c);
    forall t | t in m && t !in ts ensures m[t] - {c} == m[t] && m[t] != {} { }
    assert lhs.Keys == rhs.Keys;
  }

  /**
   Firing every close callback of `c` on a valid registry removes `c` from every
   topic it is in and changes nobody else's memberships.
   */
  lemma CloseRemovesClient(m: Topics, c: Client, hooks: seq<Hook>)
    requires NoEmptySets(m) && Tracked(m, hooks)
    ensures RunHooks(m, c, hooks) == WithoutClient(m, c)
  {
    RunHooksIsStrip(m, c, hooks);
    forall t | t in m && c in m[t] ensures t in TopicsOf(hooks, c) {
      assert Hook(c, t) in hooks;
    }
    StripCovering(m, c, TopicsOf(hooks, c));
  }

  /** Adding the same client to the same topic twice gives the same map as once. */
  lemma AddIdempotent(m: Topics, c: Client, t: string)
    ensures Add(Add(m, c, t), c, t) == Add(m, c, t)
  {
  }

  /** Adding keeps every set non-empty and every membership tracked. */
  lemma AddKeepsValid(m: Topics, hooks: seq<Hook>, c: Client, t: string)
    requires NoEmptySets(m) && Tracked(m, hooks)
    ensures NoEmptySets(Add(m, c, t)) && Tracked(Add(m, c, t), hooks + [Hook(c, t)])
  {
    var r := Add(m, c, t);
    forall u, d | u in r && d in r[u] ensures Hook(d, u) in hooks + [Hook(c, t)] {
      if !(u == t && d == c) {
        assert u in m && d in m[u];
      }
    }
  }

  /** Removing keeps every set non-empty and every membership tracked. */
  lemma RemoveKeepsValid(m: Topics, hooks: seq<Hook>, c: Client, t: string)
    requires NoEmptySets(m) && Tracked(m, hooks)
    ensures NoEmptySets(Remove(m, c, t)) && Tracked(Remove(m, c, t), hooks)
  {
    var r := Remove(m, c, t);
    forall u, d | u in r && d in r[u] ensures Hook(d, u) in hooks {
      assert d in Subscribers(r, u);
      assert d in Subscribers(m, u);
    }
  }

  /** Removing a client from a topic it is not in, or an unknown topic, changes nothing. */
  lemma RemoveAbsentIsNoOp(m: Topics, c: Client, t: string)
    requires NoEmptySets(m)
    requires c !in Subscribers(m, t)
    ensures Remove(m, c, t) == m
  {
    if t in m {
      assert m[t] - {c} == m[t];
    }
  }

  /** Subscribing a newcomer and then unsubscribing it restores the registry. */
  lemma AddThenRemove(m: Topics, c: Client, t: string)
    requires NoEmptySets(m)
    requires c !in Subscribers(m, t)
    ensures Remove(Add(m, c, t), c, t) == m
  {
    var r := Remove(Add(m, c, t), c, t);
    if t in m {
      assert Add(m, c, t)[t] - {c} == m[t];
    }
    assert r.Keys == m.Keys;
  }

  /** Unsubscribing a member and then subscribing it again restores the registry. */
  lemma RemoveThenAdd(m: Topics, c: Client, t: string)
    requires c in Subscribers(m, t)
    ensures Add(Remove(m, c, t), c, t) == m
  {
    var r := Add(Remove(m, c, t), c, t);
    assert r[t] == m[t];
    assert r.Keys == m.Keys;
  }

  /** The whole state of one registry instance: its topic map and its close callbacks. */
  datatype RegistryState = RegistryState(subscriptions: Topics, closeListeners: seq<Hook>)

  ghost predicate ValidState(s: RegistryState)
  {
    NoEmptySets(s.subscriptions) && Tracked(s.subscriptions, s.closeListeners)
  }

  const EmptyState: RegistryState := RegistryState(map[], [])

  /** `addSubscription` on a whole instance: add, and register the undoing close callback. */
  function Subscribe(s: RegistryState, c: Client, t: string): (r: RegistryState)
    ensures ValidState(s) ==> ValidState(r)
  {
    var r := RegistryState(Add(s.subscriptions, c, t), s.closeListeners + [Hook(c, t)]);
    assert ValidState(s) ==> ValidState(r) by {
      if ValidState(s) { AddKeepsValid(s.subscriptions, s.closeListeners, c, t); }
    }
    r
  }

  /** `removeSubscription` on a whole instance; the callbacks stay registered. */
  function Unsubscribe(s: RegistryState, c: Client, t: string): (r: RegistryState)
    ensures ValidState(s) ==> ValidState(r)
  {
    var r := RegistryState(Remove(s.subscriptions, c, t), s.closeListeners);
    assert ValidState(s) ==> ValidState(r) by {
      if ValidState(s) { RemoveKeepsValid(s.subscriptions, s.closeListeners, c, t); }
    }
    r
  }

  /** A whole instance after client `c` has closed. */
  function Disconnect(s: RegistryState, c: Client): (r: RegistryState)
    ensures ValidState(s) ==> ValidState(r)
  {
    var r := RegistryState(WithoutClient(s.subscriptions, c), DropClient(s.closeListeners, c));
    assert ValidState(s) ==> Tracked(r.subscriptions, r.closeListeners) by {
      if ValidState(s) {
        forall t, d | t in r.subscriptions && d in r.subscriptions[t]
          ensures Hook(d, t) in r.closeListeners
        {
          assert d in Subscribers(r.subscriptions, t);
          assert d != c && d in Subscribers(s.subscriptions, t);
        }
      }
    }
    r
  }

  /**
   One registry instance (`SubscriptionManager`): the topic map, and the close
   callbacks it has registered on clients that are still connected.
   */
  class SubscriptionManager {
    var subscriptions: Topics
    var closeListeners: seq<Hook>

    function State(): RegistryState
      reads this
    {
      RegistryState(subscriptions, closeListeners)
    }

    ghost predicate Valid()
      reads this
    {
      ValidState(State())
    }

    constructor ()
      ensures Valid()
      ensures State() == EmptyState
    {
      subscriptions := map[];
      closeListeners := [];
    }

    /** Subscribe `client` to `topicId` and register the callback that undoes it on close. */
    method AddSubscription(client: Client, topicId: string)
      requires Valid()
      modifies this
      ensures Valid()
      ensures State() == Subscribe(old(State()), client, topicId)
    {
      AddKeepsValid(subscriptions, closeListeners, client, topicId);
      var clients: set<Client>;
      if topicId in subscriptions {
        clients := subscriptions[topicId];
      } else {
        clients := {};
      }
      // The source mutates the set stored in the map; here the updated set is stored back.
      subscriptions := subscriptions[topicId := clients + {client}];
      closeListeners := closeListeners + [Hook(client, topicId)];
    }

    /** Unsubscribe `client` from `topicId`, dropping the topic when nobody is left. */
    method RemoveSubscription(client: Client, topicId: string)
      requires Valid()
      modifies this
      ensures Valid()
      ensures State() == Unsubscribe(old(State()), client, topicId)
    {
      RemoveKeepsValid(subscriptions, closeListeners, client, topicId);
      if topicId in subscriptions {
        var clients := subscriptions[topicId] - {client};
        if |clients| == 0 {
          subscriptions := subscriptions - {topicId};
        } else {
          subscriptions := subscriptions[topicId := clients];
        }
      }
    }

    /**
     The client's `close` event: every callback this manager registered on it
     runs, in registration order; the closed client's callbacks then go with it.
     */
    method Close(client: Client)
      requires Valid()
      modifies this
      ensures Valid()
      ensures State() == Disconnect(old(State()), client)
    {
      var listeners := closeListeners;
      ghost var start := subscriptions;
      for i := 0 to |listeners|
        invariant Valid()
        invariant closeListeners == listeners
        invariant subscriptions == RunHooks(start, client, listeners[..i])
      {
        assert listeners[..i + 1][..i] == listeners[..i];
        if listeners[i].client == client {
          RemoveSubscription(client, listeners[i].topic);
        }
      }
      assert listeners[..|listeners|] == listeners;
      CloseRemovesClient(start, client, listeners);
      closeListeners := DropClient(listeners, client);
    }
  }
}
