/** The broker as an object: its handlers change the topic index and the connection tables in
    place. Every method is proved against the value operations of `Lifecycle` and `FanOut`. */
module BrokerObjects {
  import opened Prelude
  import opened TopicLevels
  import opened Lifecycle
  import opened FanOut
  import S = SubTrie
  import Runs = SubscriptionRuns
  import R = RetTrie
  import opened RetainedDelivery
  import MemTopics

  class BrokerObject {
    const topics: MemTopics.Topics
    var conns: map<nat, Conn>
    var registry: map<Key, nat>
    var nextUid: nat
    var events: seq<Event>

    ghost var Repr: set<object>

    ghost predicate Valid()
      reads this, Repr
      ensures Valid() ==> this in Repr
    {
      this in Repr && topics in Repr && topics.Repr <= Repr && this !in topics.Repr && topics.Valid()
    }

    ghost function View(): Broker
      requires Valid()
      reads this, Repr
    { Broker(topics.Subscriptions(), conns, registry, nextUid, events, topics.RetainedMessages()) }

    constructor ()
      ensures Valid() && fresh(Repr) && View() == START
    {
      topics := new MemTopics.Topics();
      conns, registry, nextUid, events := map[], map[], 0, [];
      new;
      Repr := {this} + topics.Repr;
    }

    /** Unsubscribe the entry under a topic and delete it from `subMap`. */
    method DropSubscription(h: nat, topic: string)
      requires Valid() && h in conns
      modifies Repr
      ensures Valid() && Repr == old(Repr) && View() == DropSub(old(View()), h, topic)
    {
      var m := conns[h].subMap;
      if topic in m {
        var _ := topics.Unsubscribe(m[topic].topic, Some(m[topic]));
        conns := conns[h := conns[h].(subMap := m - {topic})];
      }
    }

    method AddSubscription(h: nat, topic: string, sub: Subscription) returns (code: nat, ok: bool)
      requires Valid() && h in conns && ParseShare(topic) != BadShare && sub == NewSub(View(), h, topic, sub.qos)
      modifies Repr
      ensures Valid() && fresh(Repr - old(Repr)) && h in conns
      ensures ok == AddOk(old(View()), h, topic, sub.qos) && code == (if ok then sub.qos else QOS_FAILURE)
      ensures View() == AddSub(old(View()), h, topic, sub.qos)
    {
      code, ok := EnterSub(sub);
      if ok {
        conns := conns[h := conns[h].(subMap := conns[h].subMap[topic := sub])];
      }
    }

    /** The subscription's entry into the trie; its address is used up in any case. */
    method EnterSub(sub: Subscription) returns (code: nat, ok: bool)
      requires Valid()
      modifies Repr
      ensures Valid() && fresh(Repr - old(Repr)) && conns == old(conns)
      ensures var c := Runs.Subscribe(sub.topic, sub.qos, Some(sub));
        && ok == Runs.TrieCallOk(old(View()).trie, c) && code == (if ok then sub.qos else QOS_FAILURE)
        && View() == old(View()).(trie := Runs.TrieCall(old(View()).trie, c), nextUid := old(nextUid) + 1)
    {
      nextUid := nextUid + 1;
      code, ok := topics.Subscribe(sub.topic, sub.qos, Some(sub));
      Repr := Repr + topics.Repr;
    }

    /** Looking up the retained messages of a granted topic. */
    method CollectRetained(h: nat, topic: string, filter: string) returns (ghost found: seq<PublishPacket>)
      requires Valid() && h in conns && FilterPath(topic) == Tokenize(filter) && Tokenize(filter).ok
      modifies this`conns
      ensures Valid() && View() == Collect(old(View()), h, found)
      ensures R.Collects(View().retained, FilterPath(topic).levels, found)
    {
      TokenizeFailsIffMalformed(filter);
      ghost var paths;
      var msgs := conns[h].rmsgs;
      var ok, out;
      ok, out, paths := topics.Retained(filter, msgs);
      found := out[|msgs|..];
      assert out == msgs + found;
      conns := conns[h := conns[h].(rmsgs := out)];
    }

    /** One round of the loop in `processClientSubscribe`. */
    method SubscribeTopic(h: nat, req: Request) returns (code: nat, ghost found: seq<PublishPacket>)
      requires Valid() && h in conns
      modifies Repr
      ensures Valid() && fresh(Repr - old(Repr)) && h in conns
      ensures View() == SubscribeOne(old(View()), h, req.With(found)) && code == CodeOne(old(View()), h, req.With(found))
      ensures Granted(req.With(found)) ==> R.Collects(old(View()).retained, FilterPath(req.topic).levels, found)
    {
      found := [];
      if !req.allowed {
        return QOS_FAILURE, found;
      }
      var topic, share, groupName := req.topic, false, "";
      match ParseShare(req.topic) {
        case BadShare => return QOS_FAILURE, found;
        case Plain =>
        case Group(name, filter) => topic, share, groupName := filter, true, name;
      }
      DropSubscription(h, req.topic);
      var sub := Subscription(nextUid, h, conns[h].kind, topic, req.qos, share, groupName);
      AddOkIffGranted(View(), h, req.With(found));
      var ok;
      code, ok := AddSubscription(h, req.topic, sub);
      if ok {
        found := CollectRetained(h, req.topic, topic);
      }
    }

    /** `processClientSubscribe`: the return codes, one for each topic, and the retained messages
        written after a SUBACK that could be written. */
    method ProcessClientSubscribe(h: nat, reqs: seq<Request>, acked: bool)
      returns (codes: seq<nat>, written: seq<PublishPacket>, ghost items: seq<Item>)
      requires Valid() && h in conns && conns[h].kind == CLIENT
      modifies Repr
      ensures Valid() && fresh(Repr - old(Repr))
      ensures |items| == |reqs| && forall i :: 0 <= i < |reqs| ==> items[i] == reqs[i].With(items[i].found)
      ensures Enabled(old(View()), ClientSubscribe(h, items)) && View() == Do(old(View()), ClientSubscribe(h, items))
      ensures codes == (if old(conns)[h].connected then Codes(old(View()), h, items) else [])
      ensures written == Written(old(View()), h, items, acked)
    {
      if !conns[h].connected {
        codes, written := [], [];
        items := seq(|reqs|, i requires 0 <= i < |reqs| => reqs[i].With([]));
        return;
      }
      written := [];
      codes, items := SubscribeTopics(h, reqs);
      if acked {
        for i := 0 to |conns[h].rmsgs|
          invariant written == conns[h].rmsgs[..i]
        {
          written := written + [conns[h].rmsgs[i]];
        }
      }
    }

    /** Its loop over the topics. */
    method SubscribeTopics(h: nat, reqs: seq<Request>) returns (codes: seq<nat>, ghost items: seq<Item>)
      requires Valid() && h in conns
      modifies Repr
      ensures Valid() && fresh(Repr - old(Repr)) && h in conns
      ensures |items| == |reqs| && forall i :: 0 <= i < |reqs| ==> items[i] == reqs[i].With(items[i].found)
      ensures FoundOk(old(View()), items)
      ensures View() == SubscribeAll(old(View()), h, items) && codes == Codes(old(View()), h, items)
    {
      ghost var start := View();
      codes, items := [], [];
      for i := 0 to |reqs|
        invariant Valid() && fresh(Repr - old(Repr)) && h in conns
        invariant |items| == i && forall j :: 0 <= j < i ==> items[j] == reqs[j].With(items[j].found)
        invariant FoundOk(start, items)
        invariant View() == SubscribeAll(start, h, items) && codes == Codes(start, h, items)
      {
        SubscribeKeepsRetained(start, h, items);
        ghost var found;
        var code;
        code, found := SubscribeTopic(h, reqs[i]);
        ghost var more := items + [reqs[i].With(found)];
        assert more[..|more| - 1] == items;
        codes, items := codes + [code], more;
      }
    }

    /** `processClientUnSubscribe`. */
    method ProcessClientUnSubscribe(h: nat, names: seq<string>)
      requires Valid() && h in conns && conns[h].kind == CLIENT
      modifies Repr
      ensures Valid() && Repr == old(Repr) && View() == Do(old(View()), ClientUnsubscribe(h, names))
    {
      if !conns[h].connected {
        return;
      }
      ghost var start := View();
      for i := 0 to |names|
        invariant Valid() && Repr == old(Repr) && h in conns
        invariant View() == UnsubscribeAll(start, h, names[..i])
      {
        assert names[..i + 1][..|names[..i + 1]| - 1] == names[..i];
        DropSubscription(h, names[i]);
      }
      assert names[..|names|] == names;
    }

    /** `removeClient`: by kind and id. */
    method RemoveClient(h: nat)
      requires h in conns
      modifies this`registry
      ensures registry == old(registry) - {Key(conns[h].kind, conns[h].clientId)}
    {
      registry := registry - {Key(conns[h].kind, conns[h].clientId)};
    }

    /** The unsubscribe loop of `Close`, in the order of one map iteration. */
    method UnsubscribeEach(m: map<string, Subscription>) returns (ghost order: seq<string>)
      requires Valid()
      modifies topics.Repr
      ensures Valid() && Repr == old(Repr) && IsOrder(order, m.Keys)
      ensures View() == old(View()).(trie := RemoveSubs(old(View()).trie, m, order))
    {
      ghost var start := View();
      var todo := m.Keys;
      order := [];
      while todo != {}
        invariant Valid() && Repr == old(Repr) && topics.Repr == old(topics.Repr)
        invariant todo <= m.Keys && IsOrder(order, m.Keys - todo)
        invariant View() == start.(trie := RemoveSubs(start.trie, m, order))
        decreases todo
      {
        var t :| t in todo;
        var _ := topics.Unsubscribe(m[t].topic, Some(m[t]));
        assert (order + [t])[..|order + [t]| - 1] == order;
        order, todo := order + [t], todo - {t};
      }
      assert m.Keys - {} == m.Keys;
    }

    /** `Close`, and the subscriptions that the will is written to. */
    method CloseClient(h: nat) returns (told: seq<Subscription>, ghost order: seq<string>)
      requires Valid() && h in conns
      modifies Repr
      ensures Valid() && Repr == old(Repr)
      ensures IsOrder(order, old(conns)[h].subMap.Keys) && View() == Do(old(View()), Close(h, order))
      ensures Told(View().trie, if old(conns)[h].connected then old(conns)[h].will else None, told)
    {
      told := [];
      if !conns[h].connected {
        order := AnyOrder(conns[h].subMap.Keys);
        return;
      }
      order := TakeOut(h);
      if conns[h].will.Some? {
        told := PublishMessage(conns[h].will.value);
        events := events + [WillPublished(h)];
      }
    }

    /** The part of `Close` before the will. */
    method TakeOut(h: nat) returns (ghost order: seq<string>)
      requires Valid() && h in conns && conns[h].connected
      modifies Repr
      ensures Valid() && Repr == old(Repr) && IsOrder(order, old(conns)[h].subMap.Keys)
      ensures h in conns && conns[h] == old(conns)[h].(connected := false)
      ensures View() == CloseConn(old(View()), h, order).(events := old(events) + [Closed(h)])
    {
      conns := conns[h := conns[h].(connected := false)];
      RemoveClient(h);
      order := UnsubscribeEach(conns[h].subMap);
      events := events + [Closed(h)];
    }

    /** `PublishMessage`: every subscription of the answer is written to. */
    method PublishMessage(packet: PublishPacket) returns (told: seq<Subscription>)
      requires Valid()
      ensures Told(View().trie, Some(packet), told)
    {
      told := [];
      var ok, subs, qoss := topics.Subscribers(packet.topicName, packet.qos);
      if !ok {
        return;
      }
      for i := 0 to |subs|
        invariant told == subs[..i]
      {
        told := told + [subs[i]];
      }
      assert subs[..|subs|] == subs;
    }

    /** The registration part of `handleConnection`. */
    method HandleConnection(h: nat, key: Key, will: Option<PublishPacket>) returns (told: seq<Subscription>, ghost order: seq<string>)
      requires Valid() && h !in conns && (key.kind == CLIENT || key.kind == ROUTER)
      requires key in registry ==> registry[key] in conns
      modifies Repr
      ensures Valid() && Repr == old(Repr)
      ensures Enabled(old(View()), Accept(h, key, will, order)) && View() == Do(old(View()), Accept(h, key, will, order))
      ensures Told(View().trie, WillOfClosed(old(View()), Accept(h, key, will, order)), told)
    {
      told, order := [], [];
      if key in registry {
        told, order := CloseClient(registry[key]);
      }
      conns := conns[h := Conn(key.kind, key.id, true, map[], will, [])];
      registry := registry[key := h];
      events := events + [Opened(h, will.Some?)];
    }

    /** `ProcessPublishMessage`: the subscriptions it calls `publish` for, in order. Nothing is
        called when the lookup fails. */
    method ProcessPublishMessage(from: Kind, packet: PublishPacket, pick: nat)
      returns (calls: seq<Subscription>, ghost answer: seq<Subscription>)
      requires Valid()
      modifies Repr
      ensures Valid() && fresh(Repr - old(Repr))
      ensures View() == if packet.retain then Do(old(View()), Retain(packet)) else old(View())
      ensures var k := Tokenize(packet.topicName);
        if ValidQos(packet.qos) && !S.AnswerFails(View().trie, k.levels, k.ok)
        then multiset(answer) == S.Answer(View().trie, k.levels) && calls == Calls(answer, from, pick)
        else calls == []
    {
      if packet.retain {
        RetainMessage(packet);
      }
      calls, answer := Publish(from, packet, pick);
    }

    method RetainMessage(packet: PublishPacket)
      requires Valid()
      modifies Repr
      ensures Valid() && fresh(Repr - old(Repr)) && View() == Do(old(View()), Retain(packet))
    {
      var _ := topics.Retain(packet);
      Repr := Repr + topics.Repr;
    }

    method Publish(from: Kind, packet: PublishPacket, pick: nat)
      returns (calls: seq<Subscription>, ghost answer: seq<Subscription>)
      requires Valid()
      ensures var k := Tokenize(packet.topicName);
        if ValidQos(packet.qos) && !S.AnswerFails(View().trie, k.levels, k.ok)
        then multiset(answer) == S.Answer(View().trie, k.levels) && calls == Calls(answer, from, pick)
        else calls == []
    {
      var ok, subs, qoss := topics.Subscribers(packet.topicName, packet.qos);
      if !ok {
        return [], [];
      }
      answer := subs;
      if |subs| == 0 {
        return [], answer;
      }
      calls := Serve(subs, from, pick);
    }

    /** Its loop over the answer, and the draw among the shared subscriptions. */
    static method Serve(subs: seq<Subscription>, from: Kind, pick: nat) returns (calls: seq<Subscription>)
      ensures calls == Calls(subs, from, pick)
    {
      calls := [];
      var qsub: seq<nat> := [];
      for i := 0 to |subs|
        invariant calls == Chosen(subs[..i], from, false)
        invariant forall j :: 0 <= j < |qsub| ==> qsub[j] < i
        invariant Select(subs, qsub) == Chosen(subs[..i], from, true)
      {
        var s := subs[i];
        assert subs[..i + 1][..|subs[..i + 1]| - 1] == subs[..i];
        if s.kind == ROUTER {
          if from != CLIENT {
            continue;
          }
        }
        if s.share {
          assert Select(subs, qsub + [i]) == Select(subs, qsub) + [s];
          qsub := qsub + [i];
        } else {
          calls := calls + [s];
        }
      }
      assert subs[..|subs|] == subs;
      if |qsub| > 0 {
        var idx := pick % |qsub|;
        calls := calls + [subs[qsub[idx]]];
      }
    }
  }

  ghost function Select(subs: seq<Subscription>, at: seq<nat>): seq<Subscription>
    requires forall j :: 0 <= j < |at| ==> at[j] < |subs|
  {
    seq(|at|, j requires 0 <= j < |at| => subs[at[j]])
  }

  lemma AnyOrder(keys: set<string>) returns (order: seq<string>)
    ensures IsOrder(order, keys)
    decreases |keys|
  {
    if keys == {} {
      order := [];
    } else {
      var k :| k in keys;
      var rest := AnyOrder(keys - {k});
      order := rest + [k];
    }
  }
}
