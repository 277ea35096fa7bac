/** Connections, their subscriptions in the shared trie, takeover, Close and the will, over
    every run of packet handlers, connection attempts and closings. */
module Lifecycle {
  import opened Prelude
  import opened TopicLevels
  import opened SubscriptionRuns
  import opened SubTrie
  import R = RetTrie

  // ---------------------------------------------------------------- state

  /** A `client` object; a closed one keeps its `subMap`. `rmsgs` is the list into which
      retained messages are collected on SUBSCRIBE. */
  datatype Conn = Conn(
    kind: Kind, clientId: string, connected: bool, subMap: map<string, Subscription>, will: Option<PublishPacket>,
    rmsgs: seq<PublishPacket>)

  /** The tables `clients`, `routes` and `remotes` of the broker, as one. */
  datatype Key = Key(kind: Kind, id: string)

  /** What happens to a connection that its will depends on. */
  datatype Event = Opened(conn: nat, hasWill: bool) | DisconnectRead(conn: nat) | Closed(conn: nat) | WillPublished(conn: nat)

  /** `conns` holds every client object ever made, by its address; `nextUid` is the next
      unused subscription address. */
  datatype Broker = Broker(
    trie: Trie, conns: map<nat, Conn>, registry: map<Key, nat>, nextUid: nat, events: seq<Event>, retained: R.Trie)

  const START := Broker(EMPTY, map[], map[], 0, [], R.EMPTY)

  // ---------------------------------------------------------------- shared subscriptions

  datatype Share = Plain | BadShare | Group(name: string, filter: string)

  predicate GroupChar(c: char) { '0' <= c <= '9' || 'a' <= c <= 'z' || 'A' <= c <= 'Z' || c == '_' || c == '-' }

  /** The `$share/<group>/<filter>` pattern: a non-empty group of letters, digits, `_` and `-`,
      and a filter without line feed. */
  function ParseShare(topic: string): Share {
    if !("$share/" <= topic) then Plain
    else
      var rest := topic[7..];
      var group := Head(rest);
      if HasSeparator(rest) && group != "" && (forall c :: c in group ==> GroupChar(c)) && '\n' !in Tail(rest)
      then Group(group, Tail(rest)) else BadShare
  }

  function NewSub(b: Broker, h: nat, topic: string, qos: nat): Subscription
    requires h in b.conns && ParseShare(topic) != BadShare
  {
    match ParseShare(topic)
    case Group(name, filter) => Subscription(b.nextUid, h, b.conns[h].kind, filter, qos, true, name)
    case _ => Subscription(b.nextUid, h, b.conns[h].kind, topic, qos, false, "")
  }

  // ---------------------------------------------------------------- the handlers

  function WithSubMap(b: Broker, h: nat, m: map<string, Subscription>): Broker
    requires h in b.conns
  { b.(conns := b.conns[h := b.conns[h].(subMap := m)]) }

  /** Take the subscription under a topic out of the trie and of `subMap`. */
  function DropSub(b: Broker, h: nat, topic: string): Broker
    requires h in b.conns
  {
    var m := b.conns[h].subMap;
    if topic !in m then b
    else WithSubMap(b.(trie := TrieCall(b.trie, Unsubscribe(m[topic].topic, Some(m[topic])))), h, m - {topic})
  }

  predicate AddOk(b: Broker, h: nat, topic: string, qos: nat)
    requires h in b.conns && ParseShare(topic) != BadShare
  {
    TrieCallOk(b.trie, Subscribe(NewSub(b, h, topic, qos).topic, qos, Some(NewSub(b, h, topic, qos))))
  }

  /** Make a subscription and enter it into the trie and, if that succeeds, into `subMap`. */
  function AddSub(b: Broker, h: nat, topic: string, qos: nat): Broker
    requires h in b.conns && ParseShare(topic) != BadShare
  {
    var s := NewSub(b, h, topic, qos);
    var c := b.(trie := TrieCall(b.trie, Subscribe(s.topic, qos, Some(s))), nextUid := b.nextUid + 1);
    if AddOk(b, h, topic, qos) then WithSubMap(c, h, c.conns[h].subMap[topic := s]) else c
  }

  /** One topic of a SUBSCRIBE packet, whether the access rules allow it, and the retained
      messages that looking up its filter finds. */
  datatype Item = Item(topic: string, qos: nat, allowed: bool, found: seq<PublishPacket>)

  /** The topic as it comes in the packet, before the lookup. */
  datatype Request = Request(topic: string, qos: nat, allowed: bool) {
    function With(found: seq<PublishPacket>): Item { Item(topic, qos, allowed, found) }
  }

  function Collect(b: Broker, h: nat, found: seq<PublishPacket>): Broker
    requires h in b.conns
  { b.(conns := b.conns[h := b.conns[h].(rmsgs := b.conns[h].rmsgs + found)]) }

  function SubscribeOne(b: Broker, h: nat, item: Item): (r: Broker)
    requires h in b.conns
    ensures r.conns.Keys == b.conns.Keys
  {
    if !item.allowed || ParseShare(item.topic) == BadShare then b
    else
      var d := DropSub(b, h, item.topic);
      var c := AddSub(d, h, item.topic, item.qos);
      if AddOk(d, h, item.topic, item.qos) then Collect(c, h, item.found) else c
  }

  /** The return code of one topic. */
  function CodeOne(b: Broker, h: nat, item: Item): nat
    requires h in b.conns
  {
    if !item.allowed || ParseShare(item.topic) == BadShare then QOS_FAILURE
    else if AddOk(DropSub(b, h, item.topic), h, item.topic, item.qos) then item.qos
    else QOS_FAILURE
  }

  /** `processClientSubscribe`. */
  function SubscribeAll(b: Broker, h: nat, items: seq<Item>): (r: Broker)
    requires h in b.conns
    ensures r.conns.Keys == b.conns.Keys
  {
    if items == [] then b else SubscribeOne(SubscribeAll(b, h, items[..|items| - 1]), h, items[|items| - 1])
  }

  function Codes(b: Broker, h: nat, items: seq<Item>): (r: seq<nat>)
    requires h in b.conns
    ensures |r| == |items|
  {
    if items == [] then []
    else Codes(b, h, items[..|items| - 1]) + [CodeOne(SubscribeAll(b, h, items[..|items| - 1]), h, items[|items| - 1])]
  }

  /** `processClientUnSubscribe`. */
  function UnsubscribeAll(b: Broker, h: nat, topics: seq<string>): (r: Broker)
    requires h in b.conns
    ensures r.conns.Keys == b.conns.Keys
  {
    if topics == [] then b else DropSub(UnsubscribeAll(b, h, topics[..|topics| - 1]), h, topics[|topics| - 1])
  }

  /** The unsubscribe loop in `Close`, over `subMap` in the order of one map iteration. */
  function RemoveSubs(t: Trie, m: map<string, Subscription>, order: seq<string>): Trie
    requires forall k :: k in order ==> k in m
  {
    if order == [] then t
    else
      var s := m[order[|order| - 1]];
      TrieCall(RemoveSubs(t, m, order[..|order| - 1]), Unsubscribe(s.topic, Some(s)))
  }

  /** `Close`: closing a closed client does nothing. `removeClient` deletes by kind and id. */
  function CloseConn(b: Broker, h: nat, order: seq<string>): (r: Broker)
    requires h in b.conns && forall k :: k in order ==> k in b.conns[h].subMap
    ensures r.conns.Keys == b.conns.Keys
  {
    var c := b.conns[h];
    if !c.connected then b
    else b.(conns := b.conns[h := c.(connected := false)],
            registry := b.registry - {Key(c.kind, c.clientId)},
            trie := RemoveSubs(b.trie, c.subMap, order),
            events := b.events + CloseEvents(h, c.will))
  }

  function CloseEvents(h: nat, will: Option<PublishPacket>): seq<Event> {
    if will.Some? then [Closed(h), WillPublished(h)] else [Closed(h)]
  }

  function AddConn(b: Broker, h: nat, key: Key, will: Option<PublishPacket>): Broker {
    b.(conns := b.conns[h := Conn(key.kind, key.id, true, map[], will, [])],
       registry := b.registry[key := h],
       events := b.events + [Opened(h, will.Some?)])
  }

  /** The registration part of `handleConnection`: close the old connection, store the new. */
  function Connect(b: Broker, h: nat, key: Key, will: Option<PublishPacket>, order: seq<string>): Broker
    requires key in b.registry ==> b.registry[key] in b.conns && forall k :: k in order ==> k in b.conns[b.registry[key]].subMap
  {
    var c := if key in b.registry then CloseConn(b, b.registry[key], order) else b;
    AddConn(c, h, key, will)
  }

  // ---------------------------------------------------------------- runs

  /** Steps that are atomic in the model. The handlers of peer brokers appear with the choice
      their reference counts make (`drop`); `Dial` is an outgoing connection under a new id. */
  datatype Step =
    | Accept(h: nat, key: Key, will: Option<PublishPacket>, order: seq<string>)
    | Dial(h: nat, id: string)
    | ClientSubscribe(h: nat, items: seq<Item>)
    | ClientUnsubscribe(h: nat, topics: seq<string>)
    | PeerSubscribe(h: nat, topic: string, qos: nat)
    | PeerUnsubscribe(h: nat, topic: string, drop: bool)
    | ReadDisconnect(h: nat)
    | Close(h: nat, order: seq<string>)
    | Retain(msg: PublishPacket)

  /** The messages found for the granted topics of a SUBSCRIBE are what is retained. */
  ghost predicate FoundOk(b: Broker, items: seq<Item>) {
    forall i :: 0 <= i < |items| && Granted(items[i]) ==>
      R.Collects(b.retained, FilterPath(items[i].topic).levels, items[i].found)
  }

  ghost predicate Enabled(b: Broker, step: Step) {
    match step
    case Accept(h, key, _, order) =>
      && h !in b.conns && (key.kind == CLIENT || key.kind == ROUTER)
      && (key in b.registry ==> b.registry[key] in b.conns && IsOrder(order, b.conns[b.registry[key]].subMap.Keys))
    case Dial(h, id) => h !in b.conns && Key(REMOTE, id) !in b.registry
    case ClientSubscribe(h, items) => h in b.conns && b.conns[h].kind == CLIENT && (b.conns[h].connected ==> FoundOk(b, items))
    case ClientUnsubscribe(h, _) => h in b.conns && b.conns[h].kind == CLIENT
    case PeerSubscribe(h, _, _) => h in b.conns && (b.conns[h].kind == ROUTER || b.conns[h].kind == REMOTE)
    case PeerUnsubscribe(h, _, _) => h in b.conns && b.conns[h].kind == ROUTER
    case ReadDisconnect(h) => h in b.conns
    case Close(h, order) => h in b.conns && IsOrder(order, b.conns[h].subMap.Keys)
    case Retain(_) => true
  }

  ghost function Do(b: Broker, step: Step): Broker
    requires Enabled(b, step)
  {
    match step
    case Accept(h, key, will, order) => Connect(b, h, key, will, order)
    case Dial(h, id) => AddConn(b, h, Key(REMOTE, id), None)
    case ClientSubscribe(h, items) => if b.conns[h].connected then SubscribeAll(b, h, items) else b
    case ClientUnsubscribe(h, topics) => if b.conns[h].connected then UnsubscribeAll(b, h, topics) else b
    case PeerSubscribe(h, topic, qos) =>
      if b.conns[h].connected && ParseShare(topic) != BadShare then AddSub(b, h, topic, qos) else b
    case PeerUnsubscribe(h, topic, drop) => if b.conns[h].connected && drop then DropSub(b, h, topic) else b
    case ReadDisconnect(h) =>
      b.(conns := b.conns[h := b.conns[h].(will := None)], events := b.events + [DisconnectRead(h)])
    case Close(h, order) => CloseConn(b, h, order)
    case Retain(m) => b.(retained := R.AfterRetain(b.retained, m))
  }

  /** The will that a step publishes, if it closes a client that has one. */
  ghost function WillOfClosed(b: Broker, step: Step): Option<PublishPacket>
    requires Enabled(b, step)
  {
    match step
    case Accept(_, key, _, _) => if key in b.registry then WillIfConnected(b.conns[b.registry[key]]) else None
    case Close(h, _) => WillIfConnected(b.conns[h])
    case _ => None
  }

  function WillIfConnected(c: Conn): Option<PublishPacket> { if c.connected then c.will else None }

  ghost predicate IsRun(states: seq<Broker>, steps: seq<Step>) {
    && |states| == |steps| + 1
    && forall i :: 0 <= i < |steps| ==> Enabled(states[i], steps[i]) && states[i + 1] == Do(states[i], steps[i])
  }

  // ---------------------------------------------------------------- what the trie stores

  ghost predicate Stored(t: Trie, p: seq<string>, s: Subscription) { Holds(At(t, p), s) }

  lemma UpsertHolds(list: seq<Entry>, s: Subscription, qos: nat, x: Subscription)
    ensures Holds(Upsert(list, s, qos), x) <==> Holds(list, x) || x == s
  {
    UpsertEffect(list, s, qos);
    BagMember(list, x);
    BagMember(Upsert(list, s, qos), x);
  }

  lemma WithoutHolds(list: seq<Entry>, s: Subscription, x: Subscription)
    requires OnePerSubscriber(list)
    ensures Holds(Without(list, s), x) <==> Holds(list, x) && x != s
  {
    if Holds(list, s) {
      WithoutEffect(list, s);
      BagMember(list, x);
      BagMember(Without(list, s), x);
    }
  }

  lemma StoredInsert(t: Trie, s: Subscription, qos: nat, p: seq<string>, x: Subscription)
    requires WellShaped(t) && ValidQos(qos)
    ensures var u := TrieCall(t, Subscribe(s.topic, qos, Some(s)));
      && WellShaped(u)
      && (Stored(u, p, x) <==> Stored(t, p, x) || (x == s && Tokenize(s.topic) == Tokens(p, true)))
  {
    var k := Tokenize(s.topic);
    TokenizePathOk(s.topic);
    InsertKeepsShape(t, k.levels, k.ok, s, qos);
    InsertAt(t, k.levels, k.ok, s, qos, p);
    UpsertHolds(At(t, p), s, qos, x);
  }

  lemma StoredRemove(t: Trie, s: Subscription, p: seq<string>, x: Subscription)
    requires WellShaped(t)
    ensures var u := TrieCall(t, Unsubscribe(s.topic, Some(s)));
      && WellShaped(u)
      && (Stored(u, p, x) <==> Stored(t, p, x) && !(x == s && Tokenize(s.topic) == Tokens(p, true)))
  {
    var k := Tokenize(s.topic);
    RemoveSucceeds(t, k.levels, k.ok, s);
    if Remove(t, k.levels, k.ok, Some(s)).Some? {
      RemoveKeepsShape(t, k.levels, k.ok, Some(s));
      RemoveAt(t, k.levels, k.ok, Some(s), p);
      ShapeAt(t, k.levels);
      WithoutHolds(At(t, k.levels), s, x);
    }
  }

  lemma {:induction false} StoredAfterClose(t: Trie, m: map<string, Subscription>, order: seq<string>, p: seq<string>, x: Subscription)
    requires WellShaped(t) && forall k :: k in order ==> k in m
    ensures var u := RemoveSubs(t, m, order);
      && WellShaped(u)
      && (Stored(u, p, x) <==> Stored(t, p, x) && !(Tokenize(x.topic) == Tokens(p, true) && exists k :: k in order && m[k] == x))
  {
    if order != [] {
      var init, k := order[..|order| - 1], order[|order| - 1];
      assert order == init + [k];
      StoredAfterClose(t, m, init, p, x);
      StoredRemove(RemoveSubs(t, m, init), m[k], p, x);
      assert k in order;
      assert forall j :: j in order <==> j in init || j == k;
    }
  }

  // ---------------------------------------------------------------- the invariant

  ghost predicate InMap(m: map<string, Subscription>, s: Subscription) { exists t :: t in m && m[t] == s }

  /** Every trie entry lies at the path of its own topic and belongs to a known connection; if
      that is a CLIENT's, the client is connected and has the entry in its `subMap`. */
  ghost predicate StoredOk(b: Broker, p: seq<string>, s: Subscription) {
    && Tokenize(s.topic) == Tokens(p, true) && s.uid < b.nextUid
    && s.client in b.conns && s.kind == b.conns[s.client].kind
    && (s.kind == CLIENT ==> b.conns[s.client].connected && InMap(b.conns[s.client].subMap, s))
  }

  ghost predicate TrieOk(b: Broker) {
    WellShaped(b.trie) && forall p, s :: Stored(b.trie, p, s) ==> StoredOk(b, p, s)
  }

  /** The subscription that a topic stands for, apart from its address and QoS. */
  ghost predicate StandsFor(topic: string, s: Subscription) {
    match ParseShare(topic)
    case Plain => s.topic == topic && !s.share && s.groupName == ""
    case BadShare => false
    case Group(name, filter) => s.topic == filter && s.share && s.groupName == name
  }

  ghost predicate SubOk(b: Broker, h: nat, t: string)
    requires h in b.conns && t in b.conns[h].subMap
  {
    var s := b.conns[h].subMap[t];
    && s.client == h && s.kind == b.conns[h].kind && s.uid < b.nextUid && StandsFor(t, s) && Tokenize(s.topic).ok
    && (b.conns[h].connected ==> Stored(b.trie, Tokenize(s.topic).levels, s))
  }

  ghost predicate MapOk(b: Broker, h: nat)
    requires h in b.conns
  {
    && (forall t :: t in b.conns[h].subMap ==> SubOk(b, h, t))
    && (forall t, u :: t in b.conns[h].subMap && u in b.conns[h].subMap && t != u ==> b.conns[h].subMap[t] != b.conns[h].subMap[u])
  }

  /** The registry holds exactly the connected clients, routers and remotes. */
  ghost predicate RegistryOk(b: Broker) {
    && (forall k :: k in b.registry ==>
          b.registry[k] in b.conns && b.conns[b.registry[k]].connected && Key(b.conns[b.registry[k]].kind, b.conns[b.registry[k]].clientId) == k)
    && (forall h :: h in b.conns && b.conns[h].connected ==>
          Key(b.conns[h].kind, b.conns[h].clientId) in b.registry && b.registry[Key(b.conns[h].kind, b.conns[h].clientId)] == h)
  }

  /** The trace of one connection's will: it closes at most once; the will is published only by
      that Close, at once, and exactly if there was one and no DISCONNECT had been read. */
  ghost predicate WillTrace(events: seq<Event>, h: nat) {
    && (forall i, j :: 0 <= i < j < |events| && events[i] == Closed(h) ==> events[j] != Closed(h))
    && (forall j :: 0 <= j < |events| && events[j] == WillPublished(h) ==> j > 0 && events[j - 1] == Closed(h))
    && (forall c :: 0 <= c < |events| && events[c] == Closed(h) ==>
          (PublishedAfter(events, c, h) <==> Opened(h, true) in events[..c] && DisconnectRead(h) !in events[..c]))
  }

  predicate PublishedAfter(events: seq<Event>, c: nat, h: nat) { c + 1 < |events| && events[c + 1] == WillPublished(h) }

  /** A connected client's will is unpublished, and is there iff it was given and DISCONNECT
      has not been read. */
  ghost predicate WillOk(b: Broker, h: nat) {
    && WillTrace(b.events, h)
    && (h !in b.conns ==> forall e :: e in b.events ==> e.conn != h)
    && (h in b.conns && b.conns[h].connected ==>
          && Closed(h) !in b.events && WillPublished(h) !in b.events
          && (b.conns[h].will.Some? <==> Opened(h, true) in b.events && DisconnectRead(h) !in b.events))
  }

  /** Appending an event of another kind, or of another connection, keeps a trace. */
  lemma TraceExtends(events: seq<Event>, e: Event, h: nat)
    requires WillTrace(events, h) && (e.conn == h ==> e.Opened? || e.DisconnectRead?)
    ensures WillTrace(events + [e], h)
  {
    var more := events + [e];
    assert forall c :: 0 <= c < |events| ==> more[c] == events[c] && more[..c] == events[..c];
  }

  lemma TraceOfOther(events: seq<Event>, h: nat, will: Option<PublishPacket>, g: nat)
    requires WillTrace(events, g) && g != h
    ensures WillTrace(events + CloseEvents(h, will), g)
  {
    TraceExtends(events, Closed(h), g);
    if will.Some? {
      TraceExtends(events + [Closed(h)], WillPublished(h), g);
      assert events + [Closed(h)] + [WillPublished(h)] == events + CloseEvents(h, will);
    }
  }

  lemma TraceCloses(events: seq<Event>, h: nat, will: Option<PublishPacket>)
    requires WillTrace(events, h) && Closed(h) !in events && WillPublished(h) !in events
    requires will.Some? <==> Opened(h, true) in events && DisconnectRead(h) !in events
    ensures WillTrace(events + CloseEvents(h, will), h)
  {}

  ghost predicate Inv(b: Broker) {
    && TrieOk(b) && RegistryOk(b)
    && (forall h :: h in b.conns ==> MapOk(b, h))
    && (forall h :: WillOk(b, h))
  }

  // ---------------------------------------------------------------- dropping and adding subscriptions

  lemma DropSubKeepsTrie(b: Broker, h: nat, t: string)
    requires Inv(b) && h in b.conns && t in b.conns[h].subMap
    ensures TrieOk(DropSub(b, h, t))
  {
    var r, s := DropSub(b, h, t), b.conns[h].subMap[t];
    assert MapOk(b, h) && SubOk(b, h, t);
    StoredRemove(b.trie, s, [], s);
    forall p, x | Stored(r.trie, p, x) ensures StoredOk(r, p, x) {
      StoredRemove(b.trie, s, p, x);
      assert StoredOk(b, p, x);
      if x.client == h && x.kind == CLIENT {
        var u :| u in b.conns[h].subMap && b.conns[h].subMap[u] == x;
        assert u in r.conns[h].subMap;
      }
    }
  }

  lemma DropSubKeepsMap(b: Broker, h: nat, t: string, g: nat)
    requires Inv(b) && h in b.conns && t in b.conns[h].subMap && g in b.conns
    ensures MapOk(DropSub(b, h, t), g)
  {
    var r, s := DropSub(b, h, t), b.conns[h].subMap[t];
    assert MapOk(b, h) && SubOk(b, h, t) && MapOk(b, g);
    forall u | u in r.conns[g].subMap ensures SubOk(r, g, u) {
      assert SubOk(b, g, u);
      var x := b.conns[g].subMap[u];
      StoredRemove(b.trie, s, Tokenize(x.topic).levels, x);
    }
  }

  lemma DropSubKeepsInv(b: Broker, h: nat, t: string)
    requires Inv(b) && h in b.conns
    ensures Inv(DropSub(b, h, t))
  {
    if t in b.conns[h].subMap {
      var r := DropSub(b, h, t);
      DropSubKeepsTrie(b, h, t);
      forall g | g in r.conns ensures MapOk(r, g) { DropSubKeepsMap(b, h, t, g); }
      forall g ensures WillOk(r, g) { assert WillOk(b, g); }
    }
  }

  lemma NewSubFacts(b: Broker, h: nat, t: string, qos: nat)
    requires h in b.conns && ParseShare(t) != BadShare
    ensures var s := NewSub(b, h, t, qos);
      && s.uid == b.nextUid && s.client == h && s.kind == b.conns[h].kind && StandsFor(t, s)
      && (AddOk(b, h, t, qos) <==> ValidQos(qos) && Tokenize(s.topic).ok)
  {}

  lemma StoredAdd(b: Broker, h: nat, t: string, qos: nat, p: seq<string>, x: Subscription)
    requires TrieOk(b) && h in b.conns && ParseShare(t) != BadShare
    ensures var r, s := AddSub(b, h, t, qos), NewSub(b, h, t, qos);
      && WellShaped(r.trie)
      && (Stored(r.trie, p, x) <==> Stored(b.trie, p, x) || (AddOk(b, h, t, qos) && x == s && Tokenize(s.topic) == Tokens(p, true)))
  {
    if ValidQos(qos) { StoredInsert(b.trie, NewSub(b, h, t, qos), qos, p, x); }
  }

  /** A new entry does not disturb an old one. */
  lemma OldEntryOk(b: Broker, h: nat, t: string, qos: nat, p: seq<string>, x: Subscription)
    requires h in b.conns && ParseShare(t) != BadShare && (b.conns[h].kind == CLIENT ==> t !in b.conns[h].subMap)
    requires StoredOk(b, p, x)
    ensures StoredOk(AddSub(b, h, t, qos), p, x)
  {
    var r := AddSub(b, h, t, qos);
    if x.kind == CLIENT {
      var u :| u in b.conns[x.client].subMap && b.conns[x.client].subMap[u] == x;
      assert u in r.conns[x.client].subMap && r.conns[x.client].subMap[u] == x;
    }
  }

  lemma AddSubKeepsTrie(b: Broker, h: nat, t: string, qos: nat)
    requires Inv(b) && h in b.conns && b.conns[h].connected && ParseShare(t) != BadShare
    requires b.conns[h].kind == CLIENT ==> t !in b.conns[h].subMap
    ensures TrieOk(AddSub(b, h, t, qos))
  {
    var r, s := AddSub(b, h, t, qos), NewSub(b, h, t, qos);
    StoredAdd(b, h, t, qos, [], s);
    NewSubFacts(b, h, t, qos);
    forall p, x | Stored(r.trie, p, x) ensures StoredOk(r, p, x) {
      StoredAdd(b, h, t, qos, p, x);
      if Stored(b.trie, p, x) {
        assert StoredOk(b, p, x);
        OldEntryOk(b, h, t, qos, p, x);
      } else {
        assert t in r.conns[h].subMap && r.conns[h].subMap[t] == s;
      }
    }
  }

  lemma AddSubKeepsSub(b: Broker, h: nat, t: string, qos: nat, g: nat, u: string)
    requires Inv(b) && h in b.conns && ParseShare(t) != BadShare && g in b.conns
    requires u in AddSub(b, h, t, qos).conns[g].subMap
    ensures SubOk(AddSub(b, h, t, qos), g, u)
  {
    var r := AddSub(b, h, t, qos);
    var x := r.conns[g].subMap[u];
    NewSubFacts(b, h, t, qos);
    StoredAdd(b, h, t, qos, Tokenize(x.topic).levels, x);
    if !(g == h && u == t && AddOk(b, h, t, qos)) {
      assert MapOk(b, g) && SubOk(b, g, u);
    }
  }

  lemma AddSubValue(b: Broker, h: nat, t: string, qos: nat, g: nat, u: string)
    requires h in b.conns && ParseShare(t) != BadShare && g in b.conns && u in AddSub(b, h, t, qos).conns[g].subMap
    ensures var x := AddSub(b, h, t, qos).conns[g].subMap[u];
      if g == h && u == t && AddOk(b, h, t, qos) then x == NewSub(b, h, t, qos)
      else u in b.conns[g].subMap && x == b.conns[g].subMap[u]
  {}

  lemma AddSubKeepsDistinct(b: Broker, h: nat, t: string, qos: nat, g: nat, u: string, v: string)
    requires h in b.conns && ParseShare(t) != BadShare && g in b.conns && MapOk(b, g) && u != v
    requires u in AddSub(b, h, t, qos).conns[g].subMap && v in AddSub(b, h, t, qos).conns[g].subMap
    ensures AddSub(b, h, t, qos).conns[g].subMap[u] != AddSub(b, h, t, qos).conns[g].subMap[v]
  {
    NewSubFacts(b, h, t, qos);
    AddSubValue(b, h, t, qos, g, u);
    AddSubValue(b, h, t, qos, g, v);
    if u in b.conns[g].subMap { assert SubOk(b, g, u); }
    if v in b.conns[g].subMap { assert SubOk(b, g, v); }
  }

  lemma AddSubKeepsMap(b: Broker, h: nat, t: string, qos: nat, g: nat)
    requires Inv(b) && h in b.conns && ParseShare(t) != BadShare && g in b.conns
    ensures MapOk(AddSub(b, h, t, qos), g)
  {
    var m := AddSub(b, h, t, qos).conns[g].subMap;
    assert MapOk(b, g);
    forall u | u in m ensures SubOk(AddSub(b, h, t, qos), g, u) { AddSubKeepsSub(b, h, t, qos, g, u); }
    forall u, v | u in m && v in m && u != v ensures m[u] != m[v] { AddSubKeepsDistinct(b, h, t, qos, g, u, v); }
  }

  lemma AddSubKeepsInv(b: Broker, h: nat, t: string, qos: nat)
    requires Inv(b) && h in b.conns && b.conns[h].connected && ParseShare(t) != BadShare
    requires b.conns[h].kind == CLIENT ==> t !in b.conns[h].subMap
    ensures Inv(AddSub(b, h, t, qos))
  {
    var r := AddSub(b, h, t, qos);
    AddSubKeepsTrie(b, h, t, qos);
    forall g | g in r.conns ensures MapOk(r, g) { AddSubKeepsMap(b, h, t, qos, g); }
    forall g ensures WillOk(r, g) { assert WillOk(b, g); }
  }

  lemma CollectKeepsInv(b: Broker, h: nat, found: seq<PublishPacket>)
    requires Inv(b) && h in b.conns
    ensures Inv(Collect(b, h, found))
  {
    var r := Collect(b, h, found);
    forall p, x | Stored(b.trie, p, x) ensures StoredOk(r, p, x) { assert StoredOk(b, p, x); }
    forall g | g in b.conns ensures MapOk(r, g) {
      assert MapOk(b, g);
      forall u | u in b.conns[g].subMap ensures SubOk(r, g, u) { assert SubOk(b, g, u); }
    }
    forall g ensures WillOk(r, g) { assert WillOk(b, g); }
  }

  lemma SubscribeOneKeepsInv(b: Broker, h: nat, item: Item)
    requires Inv(b) && h in b.conns && b.conns[h].connected
    ensures Inv(SubscribeOne(b, h, item)) && SubscribeOne(b, h, item).conns[h].connected
  {
    if item.allowed && ParseShare(item.topic) != BadShare {
      var d := DropSub(b, h, item.topic);
      DropSubKeepsInv(b, h, item.topic);
      AddSubKeepsInv(d, h, item.topic, item.qos);
      CollectKeepsInv(AddSub(d, h, item.topic, item.qos), h, item.found);
    }
  }

  lemma {:induction false} SubscribeAllKeepsInv(b: Broker, h: nat, items: seq<Item>)
    requires Inv(b) && h in b.conns && b.conns[h].connected
    ensures Inv(SubscribeAll(b, h, items)) && SubscribeAll(b, h, items).conns[h].connected
  {
    if items != [] {
      SubscribeAllKeepsInv(b, h, items[..|items| - 1]);
      SubscribeOneKeepsInv(SubscribeAll(b, h, items[..|items| - 1]), h, items[|items| - 1]);
    }
  }

  lemma {:induction false} UnsubscribeAllKeepsInv(b: Broker, h: nat, topics: seq<string>)
    requires Inv(b) && h in b.conns
    ensures Inv(UnsubscribeAll(b, h, topics))
  {
    if topics != [] {
      UnsubscribeAllKeepsInv(b, h, topics[..|topics| - 1]);
      DropSubKeepsInv(UnsubscribeAll(b, h, topics[..|topics| - 1]), h, topics[|topics| - 1]);
    }
  }

  // ---------------------------------------------------------------- closing and connecting

  /** Closing a CLIENT takes every one of its entries out of the trie. */
  lemma CloseTakesOut(b: Broker, h: nat, order: seq<string>, p: seq<string>, x: Subscription)
    requires Inv(b) && h in b.conns && b.conns[h].connected && IsOrder(order, b.conns[h].subMap.Keys)
    requires Stored(b.trie, p, x) && x.client == h && x.kind == CLIENT
    ensures !Stored(CloseConn(b, h, order).trie, p, x)
  {
    assert StoredOk(b, p, x);
    var u :| u in b.conns[h].subMap && b.conns[h].subMap[u] == x;
    assert u in order;
    StoredAfterClose(b.trie, b.conns[h].subMap, order, p, x);
  }

  lemma CloseKeepsTrie(b: Broker, h: nat, order: seq<string>)
    requires Inv(b) && h in b.conns && b.conns[h].connected && IsOrder(order, b.conns[h].subMap.Keys)
    ensures TrieOk(CloseConn(b, h, order))
  {
    var r, m := CloseConn(b, h, order), b.conns[h].subMap;
    if order == [] { assert r.trie == b.trie; } else { StoredAfterClose(b.trie, m, order, [], m[order[0]]); }
    forall p, x | Stored(r.trie, p, x) ensures StoredOk(r, p, x) {
      StoredAfterClose(b.trie, m, order, p, x);
      assert StoredOk(b, p, x);
      if x.client == h && x.kind == CLIENT { CloseTakesOut(b, h, order, p, x); }
    }
  }

  lemma CloseKeepsMap(b: Broker, h: nat, order: seq<string>, g: nat)
    requires Inv(b) && h in b.conns && b.conns[h].connected && IsOrder(order, b.conns[h].subMap.Keys) && g in b.conns
    ensures MapOk(CloseConn(b, h, order), g)
  {
    var r, m := CloseConn(b, h, order), b.conns[h].subMap;
    assert MapOk(b, g) && MapOk(b, h);
    forall u | u in r.conns[g].subMap ensures SubOk(r, g, u) {
      assert SubOk(b, g, u);
      var x := b.conns[g].subMap[u];
      StoredAfterClose(b.trie, m, order, Tokenize(x.topic).levels, x);
      if g != h {
        forall k | k in order ensures m[k] != x { assert SubOk(b, h, k); }
      }
    }
  }

  lemma CloseKeepsWill(b: Broker, h: nat, order: seq<string>, g: nat)
    requires Inv(b) && h in b.conns && b.conns[h].connected && IsOrder(order, b.conns[h].subMap.Keys)
    ensures WillOk(CloseConn(b, h, order), g)
  {
    assert WillOk(b, g) && WillOk(b, h);
    var will := b.conns[h].will;
    if g == h {
      TraceCloses(b.events, h, will);
    } else {
      TraceOfOther(b.events, h, will, g);
    }
  }

  /** `removeClient` deletes by id, yet what it deletes is the closing client itself. */
  lemma CloseKeepsRegistry(b: Broker, h: nat, order: seq<string>)
    requires Inv(b) && h in b.conns && b.conns[h].connected && IsOrder(order, b.conns[h].subMap.Keys)
    ensures RegistryOk(CloseConn(b, h, order))
    ensures var k := Key(b.conns[h].kind, b.conns[h].clientId); k in b.registry && b.registry[k] == h
  {}

  lemma CloseKeepsInv(b: Broker, h: nat, order: seq<string>)
    requires Inv(b) && h in b.conns && IsOrder(order, b.conns[h].subMap.Keys)
    ensures Inv(CloseConn(b, h, order)) && !CloseConn(b, h, order).conns[h].connected
  {
    if b.conns[h].connected {
      var r := CloseConn(b, h, order);
      CloseKeepsTrie(b, h, order);
      CloseKeepsRegistry(b, h, order);
      forall g | g in r.conns ensures MapOk(r, g) { CloseKeepsMap(b, h, order, g); }
      forall g ensures WillOk(r, g) { CloseKeepsWill(b, h, order, g); }
    }
  }

  /** A new connection under a free key. */
  lemma AddConnKeepsInv(b: Broker, h: nat, key: Key, will: Option<PublishPacket>)
    requires Inv(b) && h !in b.conns && key !in b.registry
    ensures Inv(AddConn(b, h, key, will))
  {
    var r := AddConn(b, h, key, will);
    forall p, x | Stored(r.trie, p, x) ensures StoredOk(r, p, x) { assert StoredOk(b, p, x); }
    forall g | g in r.conns ensures MapOk(r, g) {
      if g != h {
        assert MapOk(b, g);
        forall u | u in r.conns[g].subMap ensures SubOk(r, g, u) { assert SubOk(b, g, u); }
      }
    }
    forall g ensures WillOk(r, g) { AddConnKeepsWill(b, h, key, will, g); }
  }

  lemma AddConnKeepsWill(b: Broker, h: nat, key: Key, will: Option<PublishPacket>, g: nat)
    requires Inv(b) && h !in b.conns
    ensures WillOk(AddConn(b, h, key, will), g)
  {
    assert WillOk(b, g) && WillOk(b, h);
    TraceExtends(b.events, Opened(h, will.Some?), g);
    assert Opened(h, will.Some?) in AddConn(b, h, key, will).events;
  }

  lemma ConnectKeepsInv(b: Broker, h: nat, key: Key, will: Option<PublishPacket>, order: seq<string>)
    requires Inv(b) && Enabled(b, Accept(h, key, will, order))
    ensures Inv(Connect(b, h, key, will, order))
  {
    if key in b.registry {
      CloseKeepsInv(b, b.registry[key], order);
      AddConnKeepsInv(CloseConn(b, b.registry[key], order), h, key, will);
    } else {
      AddConnKeepsInv(b, h, key, will);
    }
  }

  lemma ReadDisconnectKeepsInv(b: Broker, h: nat)
    requires Inv(b) && h in b.conns
    ensures Inv(Do(b, ReadDisconnect(h)))
  {
    var r := Do(b, ReadDisconnect(h));
    forall p, x | Stored(r.trie, p, x) ensures StoredOk(r, p, x) { assert StoredOk(b, p, x); }
    forall g | g in r.conns ensures MapOk(r, g) {
      assert MapOk(b, g);
      forall u | u in r.conns[g].subMap ensures SubOk(r, g, u) { assert SubOk(b, g, u); }
    }
    forall g ensures WillOk(r, g) {
      assert WillOk(b, g);
      TraceExtends(b.events, DisconnectRead(h), g);
      assert DisconnectRead(h) in r.events;
    }
  }

  lemma StepKeepsInv(b: Broker, step: Step)
    requires Inv(b) && Enabled(b, step)
    ensures Inv(Do(b, step))
  {
    match step
    case Accept(h, key, will, order) => ConnectKeepsInv(b, h, key, will, order);
    case Dial(h, id) => AddConnKeepsInv(b, h, Key(REMOTE, id), None);
    case ClientSubscribe(h, items) => if b.conns[h].connected { SubscribeAllKeepsInv(b, h, items); }
    case ClientUnsubscribe(h, topics) => if b.conns[h].connected { UnsubscribeAllKeepsInv(b, h, topics); }
    case PeerSubscribe(h, topic, qos) =>
      if b.conns[h].connected && ParseShare(topic) != BadShare { AddSubKeepsInv(b, h, topic, qos); }
    case PeerUnsubscribe(h, topic, drop) => DropSubKeepsInv(b, h, topic);
    case ReadDisconnect(h) => ReadDisconnectKeepsInv(b, h);
    case Close(h, order) => CloseKeepsInv(b, h, order);
    case Retain(m) => RetainKeepsInv(b, R.AfterRetain(b.retained, m));
  }

  lemma RetainKeepsInv(b: Broker, retained: R.Trie)
    requires Inv(b)
    ensures Inv(b.(retained := retained))
  {
    var q := b.(retained := retained);
    forall p, x | Stored(b.trie, p, x) ensures StoredOk(q, p, x) { assert StoredOk(b, p, x); }
    forall g | g in b.conns ensures MapOk(q, g) {
      assert MapOk(b, g);
      forall u | u in b.conns[g].subMap ensures SubOk(q, g, u) { assert SubOk(b, g, u); }
    }
    forall g ensures WillOk(q, g) { assert WillOk(b, g); }
  }

  lemma {:induction false} RunKeepsInv(states: seq<Broker>, steps: seq<Step>, i: nat)
    requires IsRun(states, steps) && i <= |steps| && states[0] == START
    ensures Inv(states[i])
  {
    if i == 0 {
      forall p ensures At(EMPTY, p) == [] { AtEmpty(p); }
    } else {
      RunKeepsInv(states, steps, i - 1);
      StepKeepsInv(states[i - 1], steps[i - 1]);
    }
  }

  // ---------------------------------------------------------------- whole runs

  /** The path of the filter that a SUBSCRIBE topic stands for. */
  function FilterPath(t: string): Tokens {
    match ParseShare(t)
    case Group(_, filter) => Tokenize(filter)
    case _ => Tokenize(t)
  }

  /** In every reachable state the trie entries of a connected CLIENT are exactly the values of
      its `subMap`, one for each key, each at the path of its stripped topic; those of a closed
      CLIENT are none. */
  lemma TrieAgreesWithSubMap(states: seq<Broker>, steps: seq<Step>, i: nat, h: nat, p: seq<string>, s: Subscription)
    requires IsRun(states, steps) && i <= |steps| && states[0] == START
    requires h in states[i].conns && states[i].conns[h].kind == CLIENT
    ensures var b := states[i]; var m := b.conns[h].subMap;
      && (b.conns[h].connected ==>
            (Stored(b.trie, p, s) && s.client == h <==> exists t :: t in m && m[t] == s && FilterPath(t) == Tokens(p, true)))
      && (!b.conns[h].connected ==> !(Stored(b.trie, p, s) && s.client == h))
      && (forall t, u :: t in m && u in m && t != u ==> m[t] != m[u])
      && OnePerSubscriber(At(b.trie, p))
  {
    RunKeepsInv(states, steps, i);
    var b := states[i];
    var m := b.conns[h].subMap;
    assert MapOk(b, h);
    ShapeAt(b.trie, p);
    if Stored(b.trie, p, s) && s.client == h {
      assert StoredOk(b, p, s);
      var t :| t in m && m[t] == s;
      assert SubOk(b, h, t);
    }
    if b.conns[h].connected && exists t :: t in m && m[t] == s && FilterPath(t) == Tokens(p, true) {
      var t :| t in m && m[t] == s && FilterPath(t) == Tokens(p, true);
      assert SubOk(b, h, t);
    }
  }

  predicate SameConn(c: Conn, d: Conn) {
    c.kind == d.kind && c.clientId == d.clientId && c.connected == d.connected && c.will == d.will
  }

  lemma DropSubConns(b: Broker, h: nat, topic: string, g: nat)
    requires h in b.conns && g in b.conns
    ensures g in DropSub(b, h, topic).conns && SameConn(DropSub(b, h, topic).conns[g], b.conns[g])
  {}

  lemma AddSubConns(b: Broker, h: nat, topic: string, qos: nat, g: nat)
    requires h in b.conns && g in b.conns && ParseShare(topic) != BadShare
    ensures g in AddSub(b, h, topic, qos).conns && SameConn(AddSub(b, h, topic, qos).conns[g], b.conns[g])
  {}

  lemma SubscribeOneConns(b: Broker, h: nat, item: Item, g: nat)
    requires h in b.conns && g in b.conns
    ensures SameConn(SubscribeOne(b, h, item).conns[g], b.conns[g])
  {
    if item.allowed && ParseShare(item.topic) != BadShare {
      DropSubConns(b, h, item.topic, g);
      AddSubConns(DropSub(b, h, item.topic), h, item.topic, item.qos, g);
    }
  }

  lemma {:induction false} SubscribeAllConns(b: Broker, h: nat, items: seq<Item>, g: nat)
    requires h in b.conns && g in b.conns
    ensures SameConn(SubscribeAll(b, h, items).conns[g], b.conns[g])
  {
    if items != [] {
      SubscribeAllConns(b, h, items[..|items| - 1], g);
      SubscribeOneConns(SubscribeAll(b, h, items[..|items| - 1]), h, items[|items| - 1], g);
    }
  }

  lemma {:induction false} UnsubscribeAllConns(b: Broker, h: nat, topics: seq<string>, g: nat)
    requires h in b.conns && g in b.conns
    ensures SameConn(UnsubscribeAll(b, h, topics).conns[g], b.conns[g])
  {
    if topics != [] { UnsubscribeAllConns(b, h, topics[..|topics| - 1], g); }
  }

  lemma ClosedStep(b: Broker, step: Step, h: nat)
    requires Enabled(b, step) && h in b.conns && !b.conns[h].connected
    ensures h in Do(b, step).conns && !Do(b, step).conns[h].connected && Do(b, step).conns[h].kind == b.conns[h].kind
  {
    match step
    case ClientSubscribe(g, items) => SubscribeAllConns(b, g, items, h);
    case ClientUnsubscribe(g, topics) => UnsubscribeAllConns(b, g, topics, h);
    case _ =>
  }

  lemma {:induction false} ClosedStaysClosed(states: seq<Broker>, steps: seq<Step>, i: nat, j: nat, h: nat)
    requires IsRun(states, steps) && i <= j <= |steps| && h in states[i].conns && !states[i].conns[h].connected
    ensures h in states[j].conns && !states[j].conns[h].connected && states[j].conns[h].kind == states[i].conns[h].kind
    decreases j
  {
    if i < j {
      ClosedStaysClosed(states, steps, i, j - 1, h);
      ClosedStep(states[j - 1], steps[j - 1], h);
    }
  }

  /** Once a CLIENT is closed, no later state answers any topic with one of its subscriptions. */
  lemma ClosedIsNeverAnswered(states: seq<Broker>, steps: seq<Step>, i: nat, j: nat, h: nat, topic: seq<string>, s: Subscription)
    requires IsRun(states, steps) && i <= j <= |steps| && states[0] == START
    requires h in states[i].conns && states[i].conns[h].kind == CLIENT && !states[i].conns[h].connected
    ensures s.client == h ==> s !in Answer(states[j].trie, topic)
  {
    if s.client == h {
      ClosedStaysClosed(states, steps, i, j, h);
      forall p ensures !Holds(At(states[j].trie, p), s) {
        TrieAgreesWithSubMap(states, steps, j, h, p, s);
      }
      AnswerWithout(states[j].trie, topic, s);
    }
  }

  /** Takeover: in every reachable state each registry entry is a connected client with that
      id, every connected client is the registered one, and so what a Close removes from the
      registry is the closing client. */
  lemma RegistryIsExact(states: seq<Broker>, steps: seq<Step>, i: nat, k: Key, h: nat)
    requires IsRun(states, steps) && i <= |steps| && states[0] == START
    ensures var b := states[i];
      && (k in b.registry ==> b.registry[k] in b.conns && b.conns[b.registry[k]].connected
                              && b.conns[b.registry[k]].kind == k.kind && b.conns[b.registry[k]].clientId == k.id)
      && (h in b.conns && b.conns[h].connected && b.conns[h].kind == k.kind && b.conns[h].clientId == k.id ==>
            k in b.registry && b.registry[k] == h)
      && (i < |steps| && steps[i].Close? && k in b.registry && k !in states[i + 1].registry ==> b.registry[k] == steps[i].h)
  {
    RunKeepsInv(states, steps, i);
    var b := states[i];
    if i < |steps| && steps[i].Close? && k in b.registry {
      var c := steps[i].h;
      if b.conns[c].connected { CloseKeepsRegistry(b, c, steps[i].order); }
    }
  }

  /** In every run a client's will is published at most once, and never after its read loop has
      read a DISCONNECT, whatever closes it and however the steps interleave; and a closed
      client's will has been published exactly if it had one and closed before any DISCONNECT
      was read. */
  lemma WillIsExact(states: seq<Broker>, steps: seq<Step>, i: nat, h: nat)
    requires IsRun(states, steps) && i <= |steps| && states[0] == START
    ensures var es := states[i].events;
      && WillTrace(es, h)
      && forall j, k | 0 <= j < k < |es| && es[k] == WillPublished(h) :: es[j] != WillPublished(h) && es[j] != DisconnectRead(h)
  {
    RunKeepsInv(states, steps, i);
    assert WillOk(states[i], h);
    var es := states[i].events;
    forall j, k | 0 <= j < k < |es| && es[k] == WillPublished(h) ensures es[j] != WillPublished(h) && es[j] != DisconnectRead(h) {
      assert PublishedAfter(es, k - 1, h);
      assert j < k - 1 ==> es[j] in es[..k - 1];
      assert es[k - 1] == Closed(h);
      assert j > 0 ==> es[j - 1] != Closed(h);
    }
  }

  // ---------------------------------------------------------------- what a SUBSCRIBE or UNSUBSCRIBE achieves

  /** Whether a topic of a SUBSCRIBE packet is granted: this depends on the packet alone. */
  predicate Granted(item: Item) {
    item.allowed && ParseShare(item.topic) != BadShare && ValidQos(item.qos) && FilterPath(item.topic).ok
  }

  lemma AddOkIffGranted(b: Broker, h: nat, item: Item)
    requires h in b.conns && item.allowed && ParseShare(item.topic) != BadShare
    ensures AddOk(b, h, item.topic, item.qos) <==> Granted(item)
  {}

  /** One return code for each topic: its QoS if granted, 0x80 if not. */
  lemma {:induction false} CodesTellWhatIsGranted(b: Broker, h: nat, items: seq<Item>, i: nat)
    requires h in b.conns && i < |items|
    ensures Codes(b, h, items)[i] == if Granted(items[i]) then items[i].qos else QOS_FAILURE
  {
    var init, item := items[..|items| - 1], items[|items| - 1];
    if i < |init| {
      CodesTellWhatIsGranted(b, h, init, i);
    } else if item.allowed && ParseShare(item.topic) != BadShare {
      AddOkIffGranted(DropSub(SubscribeAll(b, h, init), h, item.topic), h, item);
    }
  }

  lemma SubscribeOneMap(b: Broker, h: nat, item: Item, t: string)
    requires h in b.conns
    ensures var m, n := b.conns[h].subMap, SubscribeOne(b, h, item).conns[h].subMap;
      && (t != item.topic ==> (t in n <==> t in m) && (t in m ==> n[t] == m[t]))
      && (Granted(item) ==> item.topic in n && StandsFor(item.topic, n[item.topic]) && n[item.topic].qos == item.qos)
      && (!item.allowed || ParseShare(item.topic) == BadShare ==> n == m)
      && (item.allowed && ParseShare(item.topic) != BadShare && !Granted(item) ==> item.topic !in n)
  {
    if item.allowed && ParseShare(item.topic) != BadShare {
      var c := DropSub(b, h, item.topic);
      AddOkIffGranted(c, h, item);
      NewSubFacts(c, h, item.topic, item.qos);
    }
  }

  /** The last occurrence of a topic among those the handler gets to the trie with. */
  ghost predicate LastTried(items: seq<Item>, t: string, i: nat) {
    && i < |items| && Tried(items[i], t)
    && forall j :: i < j < |items| ==> !Tried(items[j], t)
  }

  predicate Tried(item: Item, t: string) { item.topic == t && item.allowed && ParseShare(t) != BadShare }

  /** A topic that a SUBSCRIBE packet never tries is untouched. */
  lemma {:induction false} SubscribeLeaves(b: Broker, h: nat, items: seq<Item>, t: string)
    requires h in b.conns && forall j :: 0 <= j < |items| ==> !Tried(items[j], t)
    ensures var m, n := b.conns[h].subMap, SubscribeAll(b, h, items).conns[h].subMap;
      (t in n <==> t in m) && (t in m ==> n[t] == m[t])
  {
    if items != [] {
      var init := items[..|items| - 1];
      SubscribeLeaves(b, h, init, t);
      SubscribeOneMap(SubscribeAll(b, h, init), h, items[|items| - 1], t);
    }
  }

  /** After a SUBSCRIBE packet, a topic is subscribed with the QoS of its last try if that was
      granted, and is not subscribed if it was refused. */
  lemma {:induction false} SubscribeTakesEffect(b: Broker, h: nat, items: seq<Item>, t: string, i: nat)
    requires h in b.conns && LastTried(items, t, i)
    ensures var n := SubscribeAll(b, h, items).conns[h].subMap;
      if Granted(items[i]) then t in n && StandsFor(t, n[t]) && n[t].qos == items[i].qos else t !in n
  {
    var init, item := items[..|items| - 1], items[|items| - 1];
    SubscribeOneMap(SubscribeAll(b, h, init), h, item, t);
    if i < |init| {
      assert !Tried(items[|init|], t);
      assert LastTried(init, t, i);
      SubscribeTakesEffect(b, h, init, t, i);
    }
  }

  lemma {:induction false} UnsubscribeTakesEffect(b: Broker, h: nat, topics: seq<string>, t: string)
    requires h in b.conns
    ensures var m, n := b.conns[h].subMap, UnsubscribeAll(b, h, topics).conns[h].subMap;
      && (t in n <==> t in m && t !in topics) && (t in n ==> n[t] == m[t])
  {
    if topics != [] {
      var init := topics[..|topics| - 1];
      UnsubscribeTakesEffect(b, h, init, t);
      assert topics == init + [topics[|topics| - 1]];
    }
  }
}
