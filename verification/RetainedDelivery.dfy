/** Which retained messages a SUBSCRIBE writes to its client: the list they are collected in is
    never emptied, so those of earlier packets are written again. */
module RetainedDelivery {
  import opened Prelude
  import opened TopicLevels
  import opened Matching
  import opened Lifecycle
  import R = RetTrie
  import S = SubTrie

  /** What the granted topics of one packet find, in order. */
  function Gathered(items: seq<Item>): seq<PublishPacket> {
    if items == [] then []
    else Gathered(items[..|items| - 1]) + (if Granted(items[|items| - 1]) then items[|items| - 1].found else [])
  }

  /** The retained messages that `processClientSubscribe` writes; none if the client is closed
      or the SUBACK could not be written. */
  function Written(b: Broker, h: nat, items: seq<Item>, acked: bool): seq<PublishPacket>
    requires h in b.conns
  {
    if b.conns[h].connected && acked then SubscribeAll(b, h, items).conns[h].rmsgs else []
  }

  // ---------------------------------------------------------------- one packet

  lemma SubscribeOneCollects(b: Broker, h: nat, item: Item, g: nat)
    requires h in b.conns && g in b.conns
    ensures SubscribeOne(b, h, item).conns[g].rmsgs
         == b.conns[g].rmsgs + (if g == h && Granted(item) then item.found else [])
  {
    if item.allowed && ParseShare(item.topic) != BadShare {
      var d := DropSub(b, h, item.topic);
      AddOkIffGranted(d, h, item);
      assert d.conns[g].rmsgs == b.conns[g].rmsgs;
      assert AddSub(d, h, item.topic, item.qos).conns[g].rmsgs == d.conns[g].rmsgs;
    }
  }

  lemma {:induction false} SubscribeCollects(b: Broker, h: nat, items: seq<Item>, g: nat)
    requires h in b.conns && g in b.conns
    ensures SubscribeAll(b, h, items).conns[g].rmsgs == b.conns[g].rmsgs + (if g == h then Gathered(items) else [])
  {
    if items != [] {
      var init, item := items[..|items| - 1], items[|items| - 1];
      SubscribeCollects(b, h, init, g);
      SubscribeOneCollects(SubscribeAll(b, h, init), h, item, g);
    }
  }

  lemma {:induction false} UnsubscribeCollects(b: Broker, h: nat, topics: seq<string>, g: nat)
    requires h in b.conns && g in b.conns
    ensures UnsubscribeAll(b, h, topics).conns[g].rmsgs == b.conns[g].rmsgs
  {
    if topics != [] { UnsubscribeCollects(b, h, topics[..|topics| - 1], g); }
  }

  /** What a packet finds is retained and matches one of its granted filters. */
  lemma {:induction false} GatheredMatches(b: Broker, items: seq<Item>, m: PublishPacket)
    requires FoundOk(b, items) && m in Gathered(items)
    ensures exists i, p :: 0 <= i < |items| && FoundFor(b, items[i], p, m)
  {
    var init, item := items[..|items| - 1], items[|items| - 1];
    if m in Gathered(init) {
      assert FoundOk(b, init) by {
        forall i | 0 <= i < |init| && Granted(init[i])
          ensures R.Collects(b.retained, FilterPath(init[i].topic).levels, init[i].found)
        { assert init[i] == items[i]; }
      }
      GatheredMatches(b, init, m);
      var i, p :| 0 <= i < |init| && FoundFor(b, init[i], p, m);
      assert FoundFor(b, items[i], p, m);
    } else {
      var p := CollectedMatches(b, item, m);
      assert FoundFor(b, items[|items| - 1], p, m);
    }
  }

  /** The item is granted and the message is retained at a path that its filter matches. */
  ghost predicate FoundFor(b: Broker, item: Item, p: seq<string>, m: PublishPacket) {
    Granted(item) && R.At(b.retained, p) == Some(m) && Match(FilterPath(item.topic).levels, p)
  }

  lemma CollectedMatches(b: Broker, item: Item, m: PublishPacket) returns (p: seq<string>)
    requires Granted(item) && R.Collects(b.retained, FilterPath(item.topic).levels, item.found) && m in item.found
    ensures FoundFor(b, item, p, m)
  {
    var filter := FilterPath(item.topic).levels;
    var paths :| R.Enumerates(b.retained, filter, paths) && R.Lists(b.retained, paths, item.found);
    var i :| 0 <= i < |item.found| && item.found[i] == m;
    p := paths[i];
    assert p in paths;
    FilterPathOk(item.topic);
    R.FoundIffMatch(b.retained, filter, p);
  }

  lemma MatchCollected(b: Broker, item: Item, p: seq<string>, m: PublishPacket)
    requires FoundFor(b, item, p, m) && R.Collects(b.retained, FilterPath(item.topic).levels, item.found)
    ensures m in item.found
  {
    var filter := FilterPath(item.topic).levels;
    var paths :| R.Enumerates(b.retained, filter, paths) && R.Lists(b.retained, paths, item.found);
    FilterPathOk(item.topic);
    R.FoundIffMatch(b.retained, filter, p);
    assert p in paths;
    var i :| 0 <= i < |paths| && paths[i] == p;
    assert item.found[i] == m;
  }

  lemma {:induction false} GatheredHolds(items: seq<Item>, k: nat, m: PublishPacket)
    requires k < |items| && Granted(items[k]) && m in items[k].found
    ensures m in Gathered(items)
  {
    if k < |items| - 1 { GatheredHolds(items[..|items| - 1], k, m); }
  }

  lemma FilterPathOk(topic: string)
    ensures PathOk(FilterPath(topic).levels)
  {
    match ParseShare(topic)
    case Group(_, filter) => TokenizePathOk(filter);
    case _ => TokenizePathOk(topic);
  }

  // ---------------------------------------------------------------- whole runs

  /** What one step collects for a client. */
  ghost function Collected(b: Broker, step: Step, h: nat): seq<PublishPacket> {
    if step.ClientSubscribe? && step.h == h && h in b.conns && b.conns[h].connected then Gathered(step.items) else []
  }

  /** What the steps before `i` have found for a client. */
  ghost function Earlier(states: seq<Broker>, steps: seq<Step>, h: nat, i: nat): seq<PublishPacket>
    requires |states| == |steps| + 1 && i <= |steps|
  {
    if i == 0 then [] else Earlier(states, steps, h, i - 1) + Collected(states[i - 1], steps[i - 1], h)
  }

  lemma StepCollects(b: Broker, step: Step, h: nat)
    requires Enabled(b, step)
    ensures h in b.conns ==> h in Do(b, step).conns && Do(b, step).conns[h].rmsgs == b.conns[h].rmsgs + Collected(b, step, h)
    ensures h !in b.conns && h in Do(b, step).conns ==> Do(b, step).conns[h].rmsgs == []
  {
    if h in b.conns {
      match step
      case ClientSubscribe(g, items) => SubscribeCollects(b, g, items, h);
      case ClientUnsubscribe(g, topics) => UnsubscribeCollects(b, g, topics, h);
      case _ =>
    } else if h in Do(b, step).conns {
      OnlyConnectsAdd(b, step, h);
    }
  }

  lemma OnlyConnectsAdd(b: Broker, step: Step, h: nat)
    requires Enabled(b, step) && h !in b.conns && h in Do(b, step).conns
    ensures Do(b, step).conns[h].rmsgs == []
  {}

  lemma {:induction false} ListIsHistory(states: seq<Broker>, steps: seq<Step>, h: nat, i: nat)
    requires IsRun(states, steps) && i <= |steps| && states[0] == START
    ensures h in states[i].conns ==> states[i].conns[h].rmsgs == Earlier(states, steps, h, i)
    ensures h !in states[i].conns ==> Earlier(states, steps, h, i) == []
  {
    if i > 0 {
      ListIsHistory(states, steps, h, i - 1);
      StepCollects(states[i - 1], steps[i - 1], h);
    }
  }

  /** A packet gathers exactly the retained messages that its granted filters match. */
  ghost predicate OwnMatches(b: Broker, items: seq<Item>) {
    forall m :: m in Gathered(items) <==> exists k, p :: 0 <= k < |items| && FoundFor(b, items[k], p, m)
  }

  lemma GatheredAreMatches(b: Broker, items: seq<Item>)
    requires FoundOk(b, items)
    ensures OwnMatches(b, items)
  {
    forall m | m in Gathered(items) ensures exists k, p :: 0 <= k < |items| && FoundFor(b, items[k], p, m) {
      GatheredMatches(b, items, m);
    }
    forall k, p, m | 0 <= k < |items| && FoundFor(b, items[k], p, m) ensures m in Gathered(items) {
      MatchCollected(b, items[k], p, m);
      GatheredHolds(items, k, m);
    }
  }

  /** What a SUBSCRIBE writes, in a single state. */
  lemma WrittenIs(b: Broker, h: nat, items: seq<Item>)
    requires h in b.conns && b.conns[h].connected
    ensures Written(b, h, items, true) == b.conns[h].rmsgs + Gathered(items)
    ensures Written(b, h, items, true) == Gathered(items) <==> b.conns[h].rmsgs == []
  {
    SubscribeCollects(b, h, items, h);
    assert |Written(b, h, items, true)| == |b.conns[h].rmsgs| + |Gathered(items)|;
  }

  lemma SubscribeFinds(states: seq<Broker>, steps: seq<Step>, i: nat, h: nat, items: seq<Item>)
    requires IsRun(states, steps) && i < |steps| && steps[i] == ClientSubscribe(h, items)
    ensures h in states[i].conns && (states[i].conns[h].connected ==> FoundOk(states[i], items))
  {
    assert Enabled(states[i], steps[i]);
  }

  /** In every run, a SUBSCRIBE of a connected client writes what all its earlier SUBSCRIBEs
      found, then what its own granted filters match. This is its own matches alone exactly if
      no earlier SUBSCRIBE of the connection found a retained message. */
  lemma SubscribeWritesHistory(states: seq<Broker>, steps: seq<Step>, i: nat, h: nat, items: seq<Item>)
    requires IsRun(states, steps) && i < |steps| && states[0] == START
    requires steps[i] == ClientSubscribe(h, items) && states[i].conns[h].connected
    ensures Written(states[i], h, items, true) == Earlier(states, steps, h, i) + Gathered(items)
    ensures Written(states[i], h, items, true) == Gathered(items) <==> Earlier(states, steps, h, i) == []
    ensures OwnMatches(states[i], items)
  {
    SubscribeFinds(states, steps, i, h, items);
    ListIsHistory(states, steps, h, i);
    WrittenIs(states[i], h, items);
    GatheredAreMatches(states[i], items);
  }

  // ---------------------------------------------------------------- an instance

  const NEWCOMER := Key(CLIENT, "")

  /** The broker after retaining `m` and accepting a client. */
  ghost function SetUp(m: PublishPacket): Broker { Do(Do(START, Retain(m)), Accept(0, NEWCOMER, None, [])) }

  lemma SetUpState(m: PublishPacket)
    requires m.topicName == "a" && m.payload != ""
    ensures SetUp(m).conns == map[0 := Conn(CLIENT, "", true, map[], None, [])]
    ensures SetUp(m).retained == R.Insert(R.EMPTY, ["a"], true, m)
  {
    OneLevel("a");
  }

  /** A SUBSCRIBE to one topic that is granted and finds what the retained messages allow. */
  lemma OneTopic(b: Broker, h: nat, item: Item)
    requires h in b.conns && b.conns[h].kind == CLIENT && b.conns[h].connected && Granted(item)
    requires R.Collects(b.retained, FilterPath(item.topic).levels, item.found)
    ensures Enabled(b, ClientSubscribe(h, [item])) && Gathered([item]) == item.found
    ensures var r := Do(b, ClientSubscribe(h, [item]));
      && h in r.conns && r.conns[h].kind == CLIENT && r.conns[h].connected && r.retained == b.retained
      && r.conns[h].rmsgs == b.conns[h].rmsgs + item.found == Written(b, h, [item], true)
  {
    assert [item][..0] == [] && Gathered([]) == [];
    SubscribeCollects(b, h, [item], h);
    SubscribeAllConns(b, h, [item], h);
    SubscribeKeepsRetained(b, h, [item]);
  }

  /** After a SUBSCRIBE to `a`, under which `m` is retained, a SUBSCRIBE to `b`, under which
      nothing is, writes `m` again. */
  lemma WrittenAgain(m: PublishPacket)
    requires m.topicName == "a" && m.payload != ""
    ensures var a, b := ClientSubscribe(0, [Item("a", 0, true, [m])]), ClientSubscribe(0, [Item("b", 0, true, [])]);
      && Enabled(START, Retain(m)) && Enabled(Do(START, Retain(m)), Accept(0, NEWCOMER, None, []))
      && Enabled(SetUp(m), a) && Enabled(Do(SetUp(m), a), b)
      && 0 in Do(SetUp(m), a).conns
      && Gathered(b.items) == [] && Written(Do(SetUp(m), a), 0, b.items, true) == [m]
  {
    SetUpState(m);
    OneLevel("a");
    OneLevel("b");
    RetainedAlone(SetUp(m).retained, m);
    OneTopic(SetUp(m), 0, Item("a", 0, true, [m]));
    OneTopic(Do(SetUp(m), ClientSubscribe(0, [Item("a", 0, true, [m])])), 0, Item("b", 0, true, []));
  }

  lemma OneLevel(t: string)
    requires |t| == 1 && t[0] != '/' && t[0] != '#' && t[0] != '+' && t[0] != '$'
    ensures Tokenize(t) == Tokens([t], true) && ParseShare(t) == Plain && FilterPath(t) == Tokens([t], true)
  {
    HeadWhole(t);
    assert Tokenize("") == Tokens([], true);
  }

  lemma RetainedAlone(t: R.Trie, m: PublishPacket)
    requires t == R.Insert(R.EMPTY, ["a"], true, m)
    ensures R.Collects(t, ["a"], [m]) && R.Collects(t, ["b"], [])
  {
    forall x ensures R.At(t, x) == if x == ["a"] then Some(m) else None {
      R.InsertAt(R.EMPTY, ["a"], true, m, x);
      R.AtEmpty(x);
    }
    assert "a"[0] != "b"[0] && "a" != "#" && "a" != "+" && "b" != "#" && "b" != "+";
    forall p ensures R.Found(t, ["a"], p) <==> p == ["a"] {
      R.FoundIffMatch(t, ["a"], p);
    }
    forall p ensures !R.Found(t, ["b"], p) {
      R.FoundIffMatch(t, ["b"], p);
    }
    assert R.Enumerates(t, ["a"], [["a"]]) && R.Lists(t, [["a"]], [m]);
    assert R.Enumerates(t, ["b"], []) && R.Lists(t, [], []);
  }

  lemma {:induction false} SubscribeKeepsRetained(b: Broker, h: nat, items: seq<Item>)
    requires h in b.conns
    ensures SubscribeAll(b, h, items).retained == b.retained
  {
    if items != [] { SubscribeKeepsRetained(b, h, items[..|items| - 1]); }
  }
}
