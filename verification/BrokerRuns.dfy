/** What the handlers of the broker achieve in every run, said of the strings in the packets and
    of the packets themselves. */
module BrokerRuns {
  import opened Prelude
  import opened TopicLevels
  import opened Matching
  import opened SubTrie
  import opened Lifecycle
  import opened FanOut

  // ---------------------------------------------------------------- shared subscriptions

  ghost predicate IsGroupName(g: string) {
    g != "" && forall i :: 0 <= i < |g| ==>
      'a' <= g[i] <= 'z' || 'A' <= g[i] <= 'Z' || '0' <= g[i] <= '9' || g[i] == '_' || g[i] == '-'
  }

  /** The topic of a SUBSCRIBE asks for a filter, alone or as a member of a group. */
  ghost predicate Asks(topic: string, group: Option<string>, filter: string) {
    match group
    case None => topic == filter && !("$share/" <= topic)
    case Some(g) => topic == "$share/" + g + "/" + filter && IsGroupName(g) && '\n' !in filter
  }

  /** What the pattern extracts: the group and the filter behind the prefix, for exactly the
      strings of that form; a topic without the prefix is left alone. */
  lemma ShareSyntax(t: string, g: string, f: string)
    ensures ParseShare(t) == Group(g, f) <==> Asks(t, Some(g), f)
    ensures ParseShare(t) == Plain <==> !("$share/" <= t)
  {
    if ParseShare(t) == Group(g, f) {
      var rest := t[7..];
      assert t == "$share/" + rest && rest == g + "/" + f;
      forall i | 0 <= i < |g|
        ensures 'a' <= g[i] <= 'z' || 'A' <= g[i] <= 'Z' || '0' <= g[i] <= '9' || g[i] == '_' || g[i] == '-'
      { assert g[i] in g; }
    }
    if Asks(t, Some(g), f) { SharePasses(t, g, f); }
  }

  lemma SharePasses(t: string, g: string, f: string)
    requires Asks(t, Some(g), f)
    ensures ParseShare(t) == Group(g, f)
  {
    var rest := t[7..];
    assert rest == g + "/" + f;
    forall i | 0 <= i < |g| ensures g[i] != '/' && GroupChar(g[i]) { }
    assert rest[..|g|] == g && '/' !in g;
    HeadExtends(rest, |g|);
    assert Tail(rest) == f;
  }

  /** A topic that asks for a filter is parsed to that filter. */
  lemma AsksParses(t: string, group: Option<string>, f: string)
    requires Asks(t, group, f)
    ensures ParseShare(t) != BadShare && FilterPath(t) == Tokenize(f)
    ensures ParseShare(t) == if group.Some? then Group(group.value, f) else Plain
  {
    if group.Some? { SharePasses(t, group.value, f); }
  }

  /** A topic with a well-formed filter and a QoS of 0, 1 or 2, allowed by the access rules. */
  ghost predicate InOrder(item: Item) {
    item.allowed && item.qos <= 2 && exists group, f :: Asks(item.topic, group, f) && !Malformed(f)
  }

  lemma GrantedIffInOrder(item: Item)
    ensures Granted(item) <==> InOrder(item)
  {
    if InOrder(item) {
      var group, f :| Asks(item.topic, group, f) && !Malformed(f);
      AsksParses(item.topic, group, f);
      TokenizeFailsIffMalformed(f);
    }
    if Granted(item) {
      match ParseShare(item.topic)
      case Group(g, f) =>
        ShareSyntax(item.topic, g, f);
        TokenizeFailsIffMalformed(f);
      case Plain =>
        ShareSyntax(item.topic, "", "");
        TokenizeFailsIffMalformed(item.topic);
        assert Asks(item.topic, None, item.topic);
    }
  }

  /** The SUBACK: the QoS asked for if the topic is in order, 128 if not. */
  lemma CodesAreExact(b: Broker, h: nat, items: seq<Item>, i: nat)
    requires h in b.conns && i < |items|
    ensures Codes(b, h, items)[i] == if InOrder(items[i]) then items[i].qos else 128
  {
    CodesTellWhatIsGranted(b, h, items, i);
    GrantedIffInOrder(items[i]);
  }

  /** The subscription object for a topic of a packet. */
  ghost predicate MadeFor(s: Subscription, h: nat, kind: Kind, qos: nat, group: Option<string>, f: string) {
    && s.client == h && s.kind == kind && s.qos == qos && s.topic == f
    && s.share == group.Some? && s.groupName == (if group.Some? then group.value else "")
  }

  /** In every run, a topic in order that no later allowed topic of the packet repeats is
      stored afterwards: at the path of its filter, without the share prefix, and in the
      client's `subMap` under the topic as it came. */
  lemma SubscribeIsStored(states: seq<Broker>, steps: seq<Step>, i: nat, h: nat, items: seq<Item>, k: nat, group: Option<string>, f: string)
    requires IsRun(states, steps) && states[0] == START && i < |steps| && steps[i] == ClientSubscribe(h, items)
    requires h in states[i].conns && states[i].conns[h].connected
    requires k < |items| && items[k].allowed && items[k].qos <= 2 && Asks(items[k].topic, group, f) && !Malformed(f)
    requires forall j :: k < j < |items| && items[j].topic == items[k].topic ==> !items[j].allowed
    ensures var b, t := states[i + 1], items[k].topic;
      && h in b.conns && t in b.conns[h].subMap
      && MadeFor(b.conns[h].subMap[t], h, CLIENT, items[k].qos, group, f)
      && Stored(b.trie, Tokenize(f).levels, b.conns[h].subMap[t])
  {
    var a, b, t := states[i], states[i + 1], items[k].topic;
    assert Enabled(a, steps[i]);
    AsksParses(t, group, f);
    assert Granted(items[k]) by { GrantedIffInOrder(items[k]); }
    assert LastTried(items, t, k);
    SubscribeTakesEffect(a, h, items, t, k);
    SubscribeAllConns(a, h, items, h);
    RunKeepsInv(states, steps, i + 1);
    assert MapOk(b, h) && SubOk(b, h, t);
  }

  // ---------------------------------------------------------------- other brokers

  lemma NewSubMade(b: Broker, h: nat, t: string, qos: nat, group: Option<string>, f: string)
    requires h in b.conns && Asks(t, group, f)
    ensures ParseShare(t) != BadShare && MadeFor(NewSub(b, h, t, qos), h, b.conns[h].kind, qos, group, f)
  {
    AsksParses(t, group, f);
  }

  /** The SUBSCRIBE of another broker is stored in the same way. */
  lemma PeerSubscribeIsStored(states: seq<Broker>, steps: seq<Step>, i: nat, h: nat, t: string, qos: nat, group: Option<string>, f: string)
    requires IsRun(states, steps) && states[0] == START && i < |steps| && steps[i] == PeerSubscribe(h, t, qos)
    requires h in states[i].conns && states[i].conns[h].connected
    requires qos <= 2 && Asks(t, group, f) && !Malformed(f)
    ensures var b := states[i + 1];
      && h in b.conns && t in b.conns[h].subMap
      && MadeFor(b.conns[h].subMap[t], h, states[i].conns[h].kind, qos, group, f)
      && Stored(b.trie, Tokenize(f).levels, b.conns[h].subMap[t])
  {
    RunKeepsInv(states, steps, i);
    PeerAdds(states[i], h, t, qos, group, f);
  }

  lemma PeerAdds(b: Broker, h: nat, t: string, qos: nat, group: Option<string>, f: string)
    requires Inv(b) && h in b.conns && qos <= 2 && Asks(t, group, f) && !Malformed(f)
    ensures ParseShare(t) != BadShare
    ensures var r, s := AddSub(b, h, t, qos), NewSub(b, h, t, qos);
      && MadeFor(s, h, b.conns[h].kind, qos, group, f)
      && h in r.conns && r.conns[h] == b.conns[h].(subMap := b.conns[h].subMap[t := s])
      && Stored(r.trie, Tokenize(f).levels, s)
  {
    NewSubMade(b, h, t, qos, group, f);
    TokenizeFailsIffMalformed(f);
    NewSubFacts(b, h, t, qos);
    StoredAdd(b, h, t, qos, Tokenize(f).levels, NewSub(b, h, t, qos));
  }

  /** What Close leaves in the trie: exactly the entries that `subMap` does not hold. */
  lemma CloseLeavesIff(b: Broker, h: nat, order: seq<string>, p: seq<string>, x: Subscription)
    requires Inv(b) && h in b.conns && b.conns[h].connected && IsOrder(order, b.conns[h].subMap.Keys)
    ensures Stored(CloseConn(b, h, order).trie, p, x) <==> Stored(b.trie, p, x) && !InMap(b.conns[h].subMap, x)
  {
    var m := b.conns[h].subMap;
    StoredAfterClose(b.trie, m, order, p, x);
    if Stored(b.trie, p, x) { assert StoredOk(b, p, x); }
    if InMap(m, x) {
      var t :| t in m && m[t] == x;
      assert t in order;
    }
  }

  // ---------------------------------------------------------------- entries that nobody knows

  /** An entry of the connection in the trie that its `subMap` does not hold: neither an
      UNSUBSCRIBE nor Close takes it out. */
  ghost predicate Orphan(b: Broker, h: nat, p: seq<string>, x: Subscription) {
    h in b.conns && Stored(b.trie, p, x) && x.client == h && !InMap(b.conns[h].subMap, x)
  }

  ghost predicate HasOrphan(b: Broker, h: nat) { exists p, x :: Orphan(b, h, p, x) }

  /** Another broker subscribes again to a topic that it is subscribed to. */
  ghost predicate Repeats(b: Broker, step: Step, h: nat) {
    && step.PeerSubscribe? && step.h == h && h in b.conns && b.conns[h].connected && step.topic in b.conns[h].subMap
    && InOrder(Item(step.topic, step.qos, true, []))
  }

  lemma DropSubOrphan(b: Broker, g: nat, t: string, h: nat, p: seq<string>, x: Subscription)
    requires Inv(b) && g in b.conns && h in b.conns
    ensures Orphan(DropSub(b, g, t), h, p, x) <==> Orphan(b, h, p, x)
  {
    var m := b.conns[g].subMap;
    if t in m {
      assert MapOk(b, g) && SubOk(b, g, t);
      StoredRemove(b.trie, m[t], p, x);
      var n := DropSub(b, g, t).conns[h].subMap;
      if g == h {
        assert InMap(n, x) ==> InMap(m, x);
        if InMap(m, x) && x != m[t] { var u :| u in m && m[u] == x; assert u in n && n[u] == x; }
        if x == m[t] { assert forall u :: u in n ==> n[u] != x; assert InMap(m, x); }
        if Stored(b.trie, p, x) { assert StoredOk(b, p, x); }
      }
    }
  }

  lemma AddSubOrphan(b: Broker, g: nat, t: string, qos: nat, h: nat, p: seq<string>, x: Subscription)
    requires Inv(b) && g in b.conns && h in b.conns && ParseShare(t) != BadShare
    ensures Orphan(AddSub(b, g, t, qos), h, p, x) <==>
      || Orphan(b, h, p, x)
      || (g == h && AddOk(b, g, t, qos) && t in b.conns[h].subMap && x == b.conns[h].subMap[t] && Stored(b.trie, p, x))
  {
    var s, m, r := NewSub(b, g, t, qos), b.conns[h].subMap, AddSub(b, g, t, qos);
    NewSubFacts(b, g, t, qos);
    StoredAdd(b, g, t, qos, p, x);
    assert MapOk(b, h);
    if Stored(b.trie, p, x) { assert StoredOk(b, p, x); }
    if g == h && AddOk(b, g, t, qos) {
      assert r.conns[h].subMap == m[t := s];
      assert r.conns[h].subMap[t] == s;
      InMapPut(m, t, s, x);
      if t in m { assert SubOk(b, h, t); }
    }
  }

  lemma InMapPut(m: map<string, Subscription>, t: string, s: Subscription, x: Subscription)
    requires forall u, v :: u in m && v in m && u != v ==> m[u] != m[v]
    ensures InMap(m[t := s], x) <==> x == s || (InMap(m, x) && !(t in m && m[t] == x))
  {
    var n := m[t := s];
    if InMap(m, x) && !(t in m && m[t] == x) { var u :| u in m && m[u] == x; assert u in n && n[u] == x; }
    if x == s { assert t in n && n[t] == x; }
    if InMap(n, x) && x != s { var u :| u in n && n[u] == x; assert u in m && m[u] == x; }
  }

  lemma CollectOrphan(b: Broker, g: nat, found: seq<PublishPacket>, h: nat, p: seq<string>, x: Subscription)
    requires g in b.conns && h in b.conns
    ensures Orphan(Collect(b, g, found), h, p, x) <==> Orphan(b, h, p, x)
  {}

  lemma CloseOrphan(b: Broker, g: nat, order: seq<string>, h: nat, p: seq<string>, x: Subscription)
    requires Inv(b) && g in b.conns && h in b.conns && IsOrder(order, b.conns[g].subMap.Keys)
    ensures Orphan(CloseConn(b, g, order), h, p, x) <==> Orphan(b, h, p, x)
  {
    if b.conns[g].connected {
      CloseLeavesIff(b, g, order, p, x);
      if InMap(b.conns[g].subMap, x) {
        var t :| t in b.conns[g].subMap && b.conns[g].subMap[t] == x;
        assert MapOk(b, g) && SubOk(b, g, t);
      }
    }
  }

  lemma AddConnOrphan(b: Broker, g: nat, key: Key, will: Option<PublishPacket>, h: nat, p: seq<string>, x: Subscription)
    requires Inv(b) && g !in b.conns
    ensures Orphan(AddConn(b, g, key, will), h, p, x) <==> Orphan(b, h, p, x)
  {
    if Stored(b.trie, p, x) { assert StoredOk(b, p, x); }
  }

  lemma ConnectOrphan(b: Broker, step: Step, h: nat, p: seq<string>, x: Subscription)
    requires Inv(b) && step.Accept? && Enabled(b, step)
    ensures Orphan(Do(b, step), h, p, x) <==> Orphan(b, h, p, x)
  {
    if step.key in b.registry {
      var g := b.registry[step.key];
      CloseKeepsInv(b, g, step.order);
      if h in b.conns { CloseOrphan(b, g, step.order, h, p, x); }
      AddConnOrphan(CloseConn(b, g, step.order), step.h, step.key, step.will, h, p, x);
    } else {
      AddConnOrphan(b, step.h, step.key, step.will, h, p, x);
    }
  }

  lemma {:induction false} SubscribeOrphan(b: Broker, g: nat, items: seq<Item>, h: nat, p: seq<string>, x: Subscription)
    requires Inv(b) && g in b.conns && b.conns[g].connected && h in b.conns
    ensures Orphan(SubscribeAll(b, g, items), h, p, x) <==> Orphan(b, h, p, x)
  {
    if items != [] {
      var init, item := items[..|items| - 1], items[|items| - 1];
      SubscribeOrphan(b, g, init, h, p, x);
      SubscribeAllKeepsInv(b, g, init);
      SubscribeOneOrphan(SubscribeAll(b, g, init), g, item, h, p, x);
    }
  }

  lemma SubscribeOneOrphan(b: Broker, g: nat, item: Item, h: nat, p: seq<string>, x: Subscription)
    requires Inv(b) && g in b.conns && h in b.conns
    ensures Orphan(SubscribeOne(b, g, item), h, p, x) <==> Orphan(b, h, p, x)
  {
    if item.allowed && ParseShare(item.topic) != BadShare {
      var d := DropSub(b, g, item.topic);
      DropSubOrphan(b, g, item.topic, h, p, x);
      DropSubKeepsInv(b, g, item.topic);
      AddSubOrphan(d, g, item.topic, item.qos, h, p, x);
      CollectOrphan(AddSub(d, g, item.topic, item.qos), g, item.found, h, p, x);
    }
  }

  lemma {:induction false} UnsubscribeOrphan(b: Broker, g: nat, topics: seq<string>, h: nat, p: seq<string>, x: Subscription)
    requires Inv(b) && g in b.conns && h in b.conns
    ensures Orphan(UnsubscribeAll(b, g, topics), h, p, x) <==> Orphan(b, h, p, x)
  {
    if topics != [] {
      var init := topics[..|topics| - 1];
      UnsubscribeOrphan(b, g, init, h, p, x);
      UnsubscribeAllKeepsInv(b, g, init);
      DropSubOrphan(UnsubscribeAll(b, g, init), g, topics[|topics| - 1], h, p, x);
    }
  }

  lemma PeerOrphan(b: Broker, step: Step, h: nat, p: seq<string>, x: Subscription)
    requires Inv(b) && step.PeerSubscribe? && Enabled(b, step) && h in b.conns
    ensures Orphan(Do(b, step), h, p, x) <==>
      Orphan(b, h, p, x) || (Repeats(b, step, h) && x == b.conns[h].subMap[step.topic] && Stored(b.trie, p, x))
  {
    var item := Item(step.topic, step.qos, true, []);
    GrantedIffInOrder(item);
    if b.conns[step.h].connected && ParseShare(step.topic) != BadShare {
      AddSubOrphan(b, step.h, step.topic, step.qos, h, p, x);
      AddOkIffGranted(b, step.h, item);
    }
  }

  /** What one step does to an entry that nobody knows. */
  lemma StepOrphan(b: Broker, step: Step, h: nat, p: seq<string>, x: Subscription)
    requires Inv(b) && Enabled(b, step)
    ensures Orphan(Do(b, step), h, p, x) <==>
      Orphan(b, h, p, x) || (Repeats(b, step, h) && x == b.conns[h].subMap[step.topic] && Stored(b.trie, p, x))
  {
    match step
    case Accept(_, _, _, _) => ConnectOrphan(b, step, h, p, x);
    case Dial(g, id) => AddConnOrphan(b, g, Key(REMOTE, id), None, h, p, x);
    case ClientSubscribe(g, items) => if b.conns[g].connected && h in b.conns { SubscribeOrphan(b, g, items, h, p, x); }
    case ClientUnsubscribe(g, topics) => if b.conns[g].connected && h in b.conns { UnsubscribeOrphan(b, g, topics, h, p, x); }
    case PeerSubscribe(_, _, _) => if h in b.conns { PeerOrphan(b, step, h, p, x); }
    case PeerUnsubscribe(g, topic, drop) => if h in b.conns { DropSubOrphan(b, g, topic, h, p, x); }
    case ReadDisconnect(g) =>
    case Close(g, order) => if h in b.conns { CloseOrphan(b, g, order, h, p, x); }
    case Retain(m) =>
  }

  lemma StepHasOrphan(b: Broker, step: Step, h: nat)
    ensures Inv(b) && Enabled(b, step) ==> (HasOrphan(Do(b, step), h) <==> HasOrphan(b, h) || Repeats(b, step, h))
  {
    if Inv(b) && Enabled(b, step) {
      if Repeats(b, step, h) {
        var s := b.conns[h].subMap[step.topic];
        assert MapOk(b, h) && SubOk(b, h, step.topic);
        StepOrphan(b, step, h, Tokenize(s.topic).levels, s);
      }
      if HasOrphan(b, h) {
        var p, x :| Orphan(b, h, p, x);
        StepOrphan(b, step, h, p, x);
      }
      if HasOrphan(Do(b, step), h) {
        var p, x :| Orphan(Do(b, step), h, p, x);
        StepOrphan(b, step, h, p, x);
      }
    }
  }

  ghost predicate Repeated(states: seq<Broker>, steps: seq<Step>, h: nat, n: nat)
    requires |states| == |steps| + 1 && n <= |steps|
  {
    n > 0 && (Repeats(states[n - 1], steps[n - 1], h) || Repeated(states, steps, h, n - 1))
  }

  lemma {:induction false} RepeatedAt(states: seq<Broker>, steps: seq<Step>, h: nat, n: nat)
    requires |states| == |steps| + 1 && n <= |steps|
    ensures Repeated(states, steps, h, n) <==> exists k :: 0 <= k < n && Repeats(states[k], steps[k], h)
  {
    if n > 0 { RepeatedAt(states, steps, h, n - 1); }
  }

  lemma {:induction false} OrphanIfRepeated(states: seq<Broker>, steps: seq<Step>, h: nat, n: nat)
    requires IsRun(states, steps) && states[0] == START && n <= |steps|
    ensures HasOrphan(states[n], h) <==> Repeated(states, steps, h, n)
  {
    if n > 0 {
      OrphanIfRepeated(states, steps, h, n - 1);
      RunKeepsInv(states, steps, n - 1);
      StepHasOrphan(states[n - 1], steps[n - 1], h);
    }
  }

  /** In every run a connection has an entry in the trie that its `subMap` does not hold exactly
      if it repeated a SUBSCRIBE to a topic it was subscribed to, and then for ever. */
  lemma OrphanIffRepeated(states: seq<Broker>, steps: seq<Step>, h: nat, n: nat)
    requires IsRun(states, steps) && states[0] == START && n <= |steps|
    ensures HasOrphan(states[n], h) <==> exists k :: 0 <= k < n && Repeats(states[k], steps[k], h)
  {
    OrphanIfRepeated(states, steps, h, n);
    RepeatedAt(states, steps, h, n);
  }

  lemma {:induction false} OrphanStays(states: seq<Broker>, steps: seq<Step>, h: nat, p: seq<string>, x: Subscription, m: nat, n: nat)
    requires IsRun(states, steps) && states[0] == START && m <= n <= |steps| && Orphan(states[m], h, p, x)
    ensures Orphan(states[n], h, p, x)
    decreases n
  {
    if m < n {
      OrphanStays(states, steps, h, p, x, m, n - 1);
      RunKeepsInv(states, steps, n - 1);
      StepOrphan(states[n - 1], steps[n - 1], h, p, x);
    }
  }

  /** The entry that was replaced stays in the trie, after Close too, and is answered for every
      topic that it matches. */
  lemma ReplacedIsAnsweredForEver(states: seq<Broker>, steps: seq<Step>, h: nat, k: nat, n: nat, topic: seq<string>)
    requires IsRun(states, steps) && states[0] == START && k < n <= |steps| && Repeats(states[k], steps[k], h)
    ensures var x := states[k].conns[h].subMap[steps[k].topic];
      x in Answer(states[n].trie, topic) <==> Match(Tokenize(x.topic).levels, topic)
  {
    RunKeepsInv(states, steps, k);
    RunKeepsInv(states, steps, n);
    var x := states[k].conns[h].subMap[steps[k].topic];
    var p := Tokenize(x.topic).levels;
    assert MapOk(states[k], h) && SubOk(states[k], h, steps[k].topic);
    StepOrphan(states[k], steps[k], h, p, x);
    OrphanStays(states, steps, h, p, x, k + 1, n);
    AnsweredOnce(states[n], x, topic);
  }

  const ROUTED := Key(ROUTER, "r")

  /** An instance: a router subscribes to `a` twice and is closed; a publication to `a` is still
      answered with an entry of the closed router. */
  lemma ClosedRouterIsAnswered() returns (states: seq<Broker>)
    ensures IsRun(states, [Accept(0, ROUTED, None, []), PeerSubscribe(0, "a", 0), PeerSubscribe(0, "a", 0), Close(0, ["a"])])
    ensures states[0] == START && 0 in states[4].conns && !states[4].conns[0].connected
    ensures exists x :: x in Answer(states[4].trie, ["a"]) && x.client == 0
  {
    var steps := [Accept(0, ROUTED, None, []), PeerSubscribe(0, "a", 0), PeerSubscribe(0, "a", 0), Close(0, ["a"])];
    var s1 := RouterConnects();
    var s2 := RouterSubscribes(s1);
    var s3 := RouterSubscribes(s2);
    var s4 := RouterCloses(s3);
    states := [START, s1, s2, s3, s4];
    FourSteps(states, steps);
    AnsweredAtEnd(states, steps);
  }

  ghost predicate Goes(b: Broker, step: Step, r: Broker) { Enabled(b, step) && r == Do(b, step) }

  lemma FourSteps(states: seq<Broker>, steps: seq<Step>)
    requires |states| == 5 && |steps| == 4
    requires Goes(states[0], steps[0], states[1]) && Goes(states[1], steps[1], states[2])
    requires Goes(states[2], steps[2], states[3]) && Goes(states[3], steps[3], states[4])
    ensures IsRun(states, steps)
  {
    forall i | 0 <= i < 4 ensures Goes(states[i], steps[i], states[i + 1]) {
      assert i == 0 || i == 1 || i == 2 || i == 3;
    }
  }

  lemma RouterConnects() returns (r: Broker)
    ensures Goes(START, Accept(0, ROUTED, None, []), r)
    ensures 0 in r.conns && r.conns[0].kind == ROUTER && r.conns[0].connected && r.conns[0].subMap == map[]
  {
    r := Do(START, Accept(0, ROUTED, None, []));
  }

  lemma RouterSubscribes(b: Broker) returns (r: Broker)
    requires 0 in b.conns && b.conns[0].kind == ROUTER && b.conns[0].connected && b.conns[0].subMap.Keys <= {"a"}
    ensures Goes(b, PeerSubscribe(0, "a", 0), r)
    ensures 0 in r.conns && r.conns[0].kind == ROUTER && r.conns[0].connected && r.conns[0].subMap.Keys == {"a"}
    ensures r.conns[0].subMap["a"].client == 0 && r.conns[0].subMap["a"].topic == "a"
  {
    PlainA();
    r := Do(b, PeerSubscribe(0, "a", 0));
  }

  lemma RouterCloses(b: Broker) returns (r: Broker)
    requires 0 in b.conns && b.conns[0].connected && b.conns[0].subMap.Keys == {"a"}
    ensures Goes(b, Close(0, ["a"]), r) && 0 in r.conns && !r.conns[0].connected
  {
    assert IsOrder(["a"], {"a"});
    r := Do(b, Close(0, ["a"]));
  }

  lemma AnsweredAtEnd(states: seq<Broker>, steps: seq<Step>)
    requires IsRun(states, steps) && states[0] == START && |steps| == 4 && steps[2] == PeerSubscribe(0, "a", 0)
    requires 0 in states[2].conns && states[2].conns[0].connected && "a" in states[2].conns[0].subMap
    requires states[2].conns[0].subMap["a"].client == 0 && states[2].conns[0].subMap["a"].topic == "a"
    ensures exists x :: x in Answer(states[4].trie, ["a"]) && x.client == 0
  {
    PlainA();
    assert Asks("a", None, "a");
    assert Repeats(states[2], steps[2], 0);
    ReplacedIsAnsweredForEver(states, steps, 0, 2, 4, ["a"]);
    assert ["a"][1..] == [];
  }

  lemma PlainA()
    ensures ParseShare("a") == Plain && Tokenize("a") == Tokens(["a"], true) && !Malformed("a")
  {
    HeadWhole("a");
    assert Tokenize("") == Tokens([], true);
    TokenizeFailsIffMalformed("a");
  }

  // ---------------------------------------------------------------- closed clients

  /** The handlers of a closed client have no effect, and closing it again has none. */
  lemma ClosedIsInert(b: Broker, step: Step)
    requires Enabled(b, step) && !step.Accept? && !step.Dial? && !step.Retain? && !step.ReadDisconnect?
    requires !b.conns[step.h].connected
    ensures Do(b, step) == b
  {}

  // ---------------------------------------------------------------- the will

  lemma WillStep(b: Broker, step: Step, h: nat)
    requires Enabled(b, step) && h in b.conns
    ensures h in Do(b, step).conns
    ensures Do(b, step).conns[h].will == if step == ReadDisconnect(h) then None else b.conns[h].will
  {
    match step
    case ClientSubscribe(g, items) => SubscribeAllConns(b, g, items, h);
    case ClientUnsubscribe(g, topics) => UnsubscribeAllConns(b, g, topics, h);
    case _ =>
  }

  lemma {:induction false} WillKept(states: seq<Broker>, steps: seq<Step>, h: nat, i: nat, j: nat)
    requires IsRun(states, steps) && i <= j <= |steps| && h in states[i].conns
    ensures h in states[j].conns
    ensures states[j].conns[h].will
         == if exists m :: i <= m < j && steps[m] == ReadDisconnect(h) then None else states[i].conns[h].will
    decreases j
  {
    if i < j {
      WillKept(states, steps, h, i, j - 1);
      WillStep(states[j - 1], steps[j - 1], h);
    }
  }

  /** Only a Close of the client, or a connection that takes over its id, closes it. */
  lemma ClosedByOneOfTwo(b: Broker, step: Step, h: nat)
    requires Enabled(b, step) && h in b.conns && b.conns[h].connected
    requires h in Do(b, step).conns && !Do(b, step).conns[h].connected
    ensures || (step.Close? && step.h == h)
            || (step.Accept? && step.key in b.registry && b.registry[step.key] == h)
  {
    match step
    case ClientSubscribe(g, items) => SubscribeAllConns(b, g, items, h);
    case ClientUnsubscribe(g, topics) => UnsubscribeAllConns(b, g, topics, h);
    case _ =>
  }

  /** In every run, the step that closes a client, by Close or by takeover, publishes the very
      packet that the client connected with, or none if a DISCONNECT was read in between. */
  lemma WillIsTheOneGiven(states: seq<Broker>, steps: seq<Step>, h: nat, i: nat, j: nat)
    requires IsRun(states, steps) && i < j < |steps| && steps[i].Accept? && steps[i].h == h
    requires h in states[j].conns && states[j].conns[h].connected
    requires h in states[j + 1].conns && !states[j + 1].conns[h].connected
    ensures WillOfClosed(states[j], steps[j])
         == if exists m :: i < m < j && steps[m] == ReadDisconnect(h) then None else steps[i].will
  {
    assert Enabled(states[i], steps[i]) && Enabled(states[j], steps[j]);
    WillKept(states, steps, h, i + 1, j);
    ClosedByOneOfTwo(states[j], steps[j], h);
  }
}
