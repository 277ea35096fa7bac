/** Everything together: the broker with its topic index and connections, and the outbound
    machines of all clients, under one clock. A publication is followed from the lookup to the
    packets written and written again. */
module EndToEnd {
  import opened Prelude
  import opened TopicLevels
  import opened SubTrie
  import L = Lifecycle
  import opened FanOut
  import O = Outbound
  import RD = RetainedDelivery
  import R = RetTrie
  import BR = BrokerRuns

  // ---------------------------------------------------------------- serving a publication

  /** `publish` for each call in turn, on the outbound state of the subscription's client. */
  function Serve(outs: map<nat, O.State>, calls: seq<Subscription>, packet: PublishPacket): (r: map<nat, O.State>)
    ensures r.Keys == outs.Keys
  {
    if calls == [] then outs
    else
      var mid := Serve(outs, calls[..|calls| - 1], packet);
      var h := calls[|calls| - 1].client;
      if h in mid then mid[h := O.Deliver(mid[h], packet)] else mid
  }

  /** A packet written to a client directly, without the inflight table. */
  datatype Mail = Mail(to: nat, packet: PublishPacket)

  function Post(outs: map<nat, O.State>, mail: seq<Mail>): (r: map<nat, O.State>)
    ensures r.Keys == outs.Keys
  {
    if mail == [] then outs
    else
      var mid, last := Post(outs, mail[..|mail| - 1]), mail[|mail| - 1];
      if last.to in mid then mid[last.to := O.Write(mid[last.to], O.Sent(last.packet))] else mid
  }

  /** A will for each subscription in turn; retained messages for one client. */
  function Wills(told: seq<Subscription>, will: PublishPacket): seq<Mail> {
    seq(|told|, i requires 0 <= i < |told| => Mail(told[i].client, will))
  }

  function ToOne(h: nat, packets: seq<PublishPacket>): seq<Mail> {
    seq(|packets|, i requires 0 <= i < |packets| => Mail(h, packets[i]))
  }

  function Sents(packets: seq<PublishPacket>): seq<O.Event> {
    seq(|packets|, i requires 0 <= i < |packets| => O.Sent(packets[i]))
  }

  function Copies(packet: PublishPacket, k: nat): seq<O.Event> { seq(k, _ => O.Sent(packet)) }

  /** A live client is written one copy per call, and keeps the packet inflight if its QoS asks
      for an acknowledgement. */
  lemma {:induction false} ServeWrites(outs: map<nat, O.State>, calls: seq<Subscription>, packet: PublishPacket, h: nat)
    requires h in outs && outs[h].live && ValidQos(packet.qos)
    ensures var r := Serve(outs, calls, packet)[h];
      r.now == outs[h].now && WrittenTimes(outs[h], r, packet, |For(calls, h)|)
  {
    if calls != [] {
      var init, s := calls[..|calls| - 1], calls[|calls| - 1];
      ServeWrites(outs, init, packet, h);
      var k := |For(init, h)|;
      if s.client == h {
        assert Copies(packet, k + 1) == Copies(packet, k) + [O.Sent(packet)];
      }
    }
  }

  /** Serving others leaves a client alone. */
  lemma {:induction false} ServeOthers(outs: map<nat, O.State>, calls: seq<Subscription>, packet: PublishPacket, h: nat)
    requires h in outs && For(calls, h) == []
    ensures Serve(outs, calls, packet)[h] == outs[h]
  {
    if calls != [] { ServeOthers(outs, calls[..|calls| - 1], packet, h); }
  }

  lemma {:induction false} ServeKeeps(outs: map<nat, O.State>, calls: seq<Subscription>, packet: PublishPacket, h: nat)
    requires h in outs && O.Inv(outs[h])
    ensures var r := Serve(outs, calls, packet)[h]; O.Inv(r) && r.now == outs[h].now && r.live == outs[h].live
  {
    if calls != [] {
      ServeKeeps(outs, calls[..|calls| - 1], packet, h);
      O.DeliverKeepsInv(Serve(outs, calls[..|calls| - 1], packet)[h], packet);
    }
  }

  lemma WriteKeepsInv(s: O.State, packet: PublishPacket)
    requires O.Inv(s)
    ensures O.Inv(O.Write(s, O.Sent(packet)))
  {
    var r := O.Write(s, O.Sent(packet));
    forall id | id in r.inflight ensures O.ElemOk(r, id) { assert O.ElemOk(s, id); }
  }

  lemma {:induction false} PostKeeps(outs: map<nat, O.State>, mail: seq<Mail>, h: nat)
    requires h in outs && O.Inv(outs[h])
    ensures var r := Post(outs, mail)[h];
      O.Inv(r) && r.now == outs[h].now && r.live == outs[h].live && r.inflight == outs[h].inflight && outs[h].log <= r.log
  {
    if mail != [] {
      PostKeeps(outs, mail[..|mail| - 1], h);
      WriteKeepsInv(Post(outs, mail[..|mail| - 1])[h], mail[|mail| - 1].packet);
    }
  }

  /** What is posted to one live client is written to it in order. */
  lemma {:induction false} PostWrites(outs: map<nat, O.State>, h: nat, packets: seq<PublishPacket>)
    requires h in outs && outs[h].live
    ensures Post(outs, ToOne(h, packets))[h] == outs[h].(log := outs[h].log + Sents(packets))
  {
    if packets != [] {
      var init, last := packets[..|packets| - 1], packets[|packets| - 1];
      PostWrites(outs, h, init);
      assert ToOne(h, packets)[..|packets| - 1] == ToOne(h, init);
      assert Sents(packets) == Sents(init) + [O.Sent(last)];
    }
  }

  // ---------------------------------------------------------------- joint runs

  /** The broker, the outbound state of every client object, and the clock. */
  datatype Joint = Joint(broker: L.Broker, outs: map<nat, O.State>, now: nat)

  datatype Step =
    | Life(life: L.Step, told: seq<Subscription>, acked: bool)
    | Publication(from: Kind, packet: PublishPacket, answer: seq<Subscription>, pick: nat)
    | Ack(h: nat, ack: O.Step)
    | Fire(h: nat, due: nat, order: seq<nat>)
    | Tick(ns: nat)

  /** What a lifecycle step writes directly: the will of a client that it closes, or, once the
      SUBACK is out, the retained messages. */
  ghost function MailOf(b: L.Broker, l: L.Step, told: seq<Subscription>, acked: bool): seq<Mail>
    requires L.Enabled(b, l)
  {
    if L.WillOfClosed(b, l).Some? then Wills(told, L.WillOfClosed(b, l).value)
    else if l.ClientSubscribe? then ToOne(l.h, RD.Written(b, l.h, l.items, acked))
    else []
  }

  function Start(now: nat): Joint { Joint(L.START, map[], now) }

  /** The lookup of a publication's subscribers succeeds. */
  predicate Looked(b: L.Broker, packet: PublishPacket) {
    var k := Tokenize(packet.topicName);
    ValidQos(packet.qos) && !AnswerFails(b.trie, k.levels, k.ok)
  }

  /** The calls that a publication makes. */
  function CallsOf(b: L.Broker, step: Step): seq<Subscription>
    requires step.Publication?
  {
    if Looked(b, step.packet) then Calls(step.answer, step.from, step.pick) else []
  }

  ghost predicate Enabled(s: Joint, step: Step) {
    match step
    case Life(l, told, _) => L.Enabled(s.broker, l) && Told(L.Do(s.broker, l).trie, L.WillOfClosed(s.broker, l), told)
    case Publication(_, packet, answer, _) =>
      Looked(s.broker, packet) ==> multiset(answer) == Answer(s.broker.trie, Tokenize(packet.topicName).levels)
    case Ack(h, o) => h in s.outs && (o.Puback? || o.Pubrec? || o.Pubcomp?)
    case Fire(h, due, order) => h in s.outs && O.Enabled(s.outs[h], O.Fire(due, order))
    case Tick(ns) => forall h :: h in s.outs ==> O.Enabled(s.outs[h], O.Tick(ns))
  }

  /** New connections get an outbound state, closed ones stop. */
  ghost function Follow(outs: map<nat, O.State>, before: L.Broker, after: L.Broker, now: nat): map<nat, O.State> {
    map h | h in after.conns ::
      if h !in outs then O.Init(now)
      else if h in before.conns && before.conns[h].connected && !after.conns[h].connected then outs[h].(live := false)
      else outs[h]
  }

  ghost function Do(s: Joint, step: Step): Joint
    requires Enabled(s, step)
  {
    match step
    case Life(l, told, acked) =>
      var b := L.Do(s.broker, l);
      Joint(b, Post(Follow(s.outs, s.broker, b, s.now), MailOf(s.broker, l, told, acked)), s.now)
    case Publication(_, packet, _, _) =>
      Joint(if packet.retain then L.Do(s.broker, L.Retain(packet)) else s.broker, Serve(s.outs, CallsOf(s.broker, step), packet), s.now)
    case Ack(h, o) => s.(outs := s.outs[h := O.Do(s.outs[h], o)])
    case Fire(h, due, order) => s.(outs := s.outs[h := O.Do(s.outs[h], O.Fire(due, order))])
    case Tick(ns) => Joint(s.broker, map h | h in s.outs :: s.outs[h].(now := s.now + ns), s.now + ns)
  }

  /** `states` is a run of `steps`: one state more than steps. */
  ghost predicate IsRun(states: seq<Joint>, steps: seq<Step>) {
    && |states| == |steps| + 1
    && forall i {:trigger Nth(i)} :: Nth(i) && 0 <= i < |steps| ==> Enabled(states[i], steps[i]) && states[i + 1] == Do(states[i], steps[i])
  }

  lemma StepOf(states: seq<Joint>, steps: seq<Step>, i: nat)
    requires IsRun(states, steps) && i < |steps|
    ensures Enabled(states[i], steps[i]) && states[i + 1] == Do(states[i], steps[i])
  {
    assert Nth(i);
  }

  // ---------------------------------------------------------------- the joint invariant

  /** A client object's outbound state is consistent, on the common clock, and live exactly
      while the client is connected. */
  ghost predicate OutOk(s: Joint, h: nat)
    requires h in s.outs && h in s.broker.conns
  {
    O.Inv(s.outs[h]) && s.outs[h].now == s.now && (s.outs[h].live <==> s.broker.conns[h].connected)
  }

  ghost predicate Inv(s: Joint) {
    && L.Inv(s.broker) && s.outs.Keys == s.broker.conns.Keys
    && forall h :: h in s.outs ==> OutOk(s, h)
  }

  lemma InitInv(now: nat)
    ensures O.Inv(O.Init(now))
  {}

  lemma CloseKeepsInv(s: O.State)
    requires O.Inv(s)
    ensures O.Inv(s.(live := false))
  {
    assert O.Inv(O.Do(s, O.Close)) by { O.StepKeepsInv(s, O.Close); }
  }

  /** Lifecycle steps add connected clients, close clients, and never reopen one. */
  lemma ConnsFollow(b: L.Broker, l: L.Step, h: nat)
    requires L.Enabled(b, l)
    ensures h in b.conns ==> h in L.Do(b, l).conns
    ensures h in b.conns && !b.conns[h].connected ==> !L.Do(b, l).conns[h].connected
    ensures h !in b.conns && h in L.Do(b, l).conns ==> L.Do(b, l).conns[h].connected
  {
    if h in b.conns && !b.conns[h].connected { L.ClosedStep(b, l, h); }
  }

  lemma FollowOk(s: Joint, l: L.Step, h: nat)
    requires Inv(s) && L.Enabled(s.broker, l) && h in L.Do(s.broker, l).conns
    ensures var r := Follow(s.outs, s.broker, L.Do(s.broker, l), s.now);
      O.Inv(r[h]) && r[h].now == s.now && (r[h].live <==> L.Do(s.broker, l).conns[h].connected)
  {
    ConnsFollow(s.broker, l, h);
    InitInv(s.now);
    if h in s.outs {
      assert OutOk(s, h);
      CloseKeepsInv(s.outs[h]);
    }
  }

  lemma LifeKeepsInv(s: Joint, step: Step)
    requires Inv(s) && step.Life? && Enabled(s, step)
    ensures Inv(Do(s, step))
  {
    var r := Do(s, step);
    L.StepKeepsInv(s.broker, step.life);
    forall h | h in r.outs ensures OutOk(r, h) { LifeKeepsOne(s, step, h); }
  }

  lemma LifeKeepsOne(s: Joint, step: Step, h: nat)
    requires Inv(s) && step.Life? && Enabled(s, step) && h in Do(s, step).outs
    ensures OutOk(Do(s, step), h)
  {
    FollowOk(s, step.life, h);
    PostKeeps(Follow(s.outs, s.broker, L.Do(s.broker, step.life), s.now), MailOf(s.broker, step.life, step.told, step.acked), h);
  }

  lemma PublicationKeepsInv(s: Joint, step: Step)
    requires Inv(s) && step.Publication? && Enabled(s, step)
    ensures Inv(Do(s, step))
  {
    var r := Do(s, step);
    L.StepKeepsInv(s.broker, L.Retain(step.packet));
    forall h | h in r.outs ensures OutOk(r, h) {
      assert OutOk(s, h);
      ServeKeeps(s.outs, CallsOf(s.broker, step), step.packet, h);
    }
  }

  /** Handlers of acknowledgements and timer callbacks keep the clock and the connection. */
  lemma OutStepKeeps(o: O.State, step: O.Step)
    requires O.Inv(o) && O.Enabled(o, step) && (step.Puback? || step.Pubrec? || step.Pubcomp? || step.Fire?)
    ensures var r := O.Do(o, step); O.Inv(r) && r.now == o.now && r.live == o.live
  {
    O.StepKeepsInv(o, step);
    if step.Fire? { O.RetryAllKeeps(O.Fired(o, step.due), step.order); }
  }

  lemma OneOutKeepsInv(s: Joint, h: nat, step: O.Step)
    requires Inv(s) && h in s.outs && O.Enabled(s.outs[h], step) && (step.Puback? || step.Pubrec? || step.Pubcomp? || step.Fire?)
    ensures Inv(s.(outs := s.outs[h := O.Do(s.outs[h], step)]))
  {
    var r := s.(outs := s.outs[h := O.Do(s.outs[h], step)]);
    assert OutOk(s, h);
    OutStepKeeps(s.outs[h], step);
    forall g | g in r.outs ensures OutOk(r, g) { if g != h { assert OutOk(s, g); } }
  }

  lemma TickKeepsOne(s: Joint, ns: nat, h: nat)
    requires Enabled(s, Tick(ns)) && h in s.outs && h in s.broker.conns && OutOk(s, h)
    ensures OutOk(Do(s, Tick(ns)), h)
  {
    O.TickKeepsInv(s.outs[h], ns);
  }

  lemma TickKeepsInv(s: Joint, ns: nat)
    requires Inv(s) && Enabled(s, Tick(ns))
    ensures Inv(Do(s, Tick(ns)))
  {
    var r := Do(s, Tick(ns));
    forall h | h in r.outs ensures OutOk(r, h) {
      assert OutOk(s, h);
      TickKeepsOne(s, ns, h);
    }
  }

  lemma StepKeepsInv(s: Joint, step: Step)
    requires Inv(s) && Enabled(s, step)
    ensures Inv(Do(s, step))
  {
    match step
    case Life(_, _, _) => LifeKeepsInv(s, step);
    case Publication(_, _, _, _) => PublicationKeepsInv(s, step);
    case Ack(h, o) => OneOutKeepsInv(s, h, o);
    case Fire(h, due, order) => OneOutKeepsInv(s, h, O.Fire(due, order));
    case Tick(ns) => TickKeepsInv(s, ns);
  }

  /** In every state of a joint run each client object's outbound machine is consistent and is
      live exactly while the client is connected. */
  lemma {:induction false} RunKeepsInv(states: seq<Joint>, steps: seq<Step>, now: nat, i: nat)
    requires IsRun(states, steps) && i <= |steps| && states[0] == Start(now)
    ensures Inv(states[i])
  {
    if i == 0 {
      L.RunKeepsInv([L.START], [], 0);
    } else {
      RunKeepsInv(states, steps, now, i - 1);
      StepOf(states, steps, i - 1);
      NextKeepsInv(states[i - 1], steps[i - 1]);
    }
  }

  lemma NextKeepsInv(s: Joint, step: Step)
    ensures Inv(s) && Enabled(s, step) ==> Inv(Do(s, step))
  {
    if Inv(s) && Enabled(s, step) { StepKeepsInv(s, step); }
  }

  // ---------------------------------------------------------------- one publication

  lemma ForAppend(calls: seq<Subscription>, s: Subscription, h: nat)
    ensures For(calls + [s], h) == For(calls, h) + (if s.client == h then [s] else [])
  {
    assert (calls + [s])[..|calls + [s]| - 1] == calls;
  }

  /** Whether the shared draw falls on a client. */
  function Drawn(answer: seq<Subscription>, from: Kind, pick: nat, h: nat): nat {
    var calls, direct := Calls(answer, from, pick), Chosen(answer, from, false);
    if |calls| > |direct| && calls[|direct|].client == h then 1 else 0
  }

  /** How many of the calls are for one client. */
  lemma CallsForClient(b: L.Broker, h: nat, topic: seq<string>, answer: seq<Subscription>, from: Kind, pick: nat)
    requires L.Inv(b) && h in b.conns && b.conns[h].kind == CLIENT && b.conns[h].connected
    requires multiset(answer) == Answer(b.trie, topic)
    ensures |For(Calls(answer, from, pick), h)| == |MatchingKeys(b.conns[h].subMap, topic)| + Drawn(answer, from, pick, h)
  {
    var calls, direct := Calls(answer, from, pick), Chosen(answer, from, false);
    CopiesAreMatchingKeys(b, h, answer, from, topic);
    if |calls| > |direct| {
      assert calls == direct + [calls[|direct|]];
      ForAppend(direct, calls[|direct|], h);
    } else {
      assert calls == direct;
    }
  }

  /** How often a publication is due to a client: once for each matching direct filter, and once
      more if the shared draw falls on it. */
  ghost function DueTo(b: L.Broker, step: Step, h: nat): nat
    requires step.Publication? && h in b.conns
  {
    |MatchingKeys(b.conns[h].subMap, Tokenize(step.packet.topicName).levels)| + Drawn(step.answer, step.from, step.pick, h)
  }

  /** The packet has been written `k` times, and is inflight if its QoS asks for it. */
  ghost predicate WrittenTimes(a: O.State, r: O.State, packet: PublishPacket, k: nat) {
    && r.log == a.log + Copies(packet, k) && r.live
    && (packet.qos > 0 && k > 0 ==> r.inflight == a.inflight[packet.messageId := O.Elem(O.Publish, packet, Unix(a.now))])
    && (packet.qos == 0 || k == 0 ==> r.inflight == a.inflight)
  }

  /** In every joint run, a publication to a well-formed topic writes the packet to a connected
      client as often as it is due; it is then inflight exactly if its QoS is 1 or 2 and it was
      written at all. */
  lemma PublicationReachesClient(states: seq<Joint>, steps: seq<Step>, now: nat, i: nat, h: nat)
    requires IsRun(states, steps) && i < |steps| && states[0] == Start(now)
    requires steps[i].Publication? && steps[i].packet.qos <= 2 && !Malformed(steps[i].packet.topicName)
    requires h in states[i].broker.conns && states[i].broker.conns[h].kind == CLIENT && states[i].broker.conns[h].connected
    ensures h in states[i].outs && h in states[i + 1].outs
    ensures WrittenTimes(states[i].outs[h], states[i + 1].outs[h], steps[i].packet, DueTo(states[i].broker, steps[i], h))
  {
    OneStep(states, steps, now, i);
    PublicationWrites(states[i], steps[i], h);
  }

  lemma PublicationWrites(s: Joint, step: Step, h: nat)
    requires step.Publication? && step.packet.qos <= 2 && !Malformed(step.packet.topicName)
    requires h in s.broker.conns && s.broker.conns[h].kind == CLIENT && s.broker.conns[h].connected
    ensures Inv(s) && Enabled(s, step) ==>
      h in s.outs && h in Do(s, step).outs && WrittenTimes(s.outs[h], Do(s, step).outs[h], step.packet, DueTo(s.broker, step, h))
  {
    if Inv(s) && Enabled(s, step) {
      assert h in s.outs && s.outs[h].live by { assert OutOk(s, h); }
      CallsCount(s.broker, step, h);
      ServeWrites(s.outs, CallsOf(s.broker, step), step.packet, h);
    }
  }

  lemma CallsCount(b: L.Broker, step: Step, h: nat)
    requires step.Publication? && step.packet.qos <= 2 && !Malformed(step.packet.topicName)
    requires Looked(b, step.packet) ==> multiset(step.answer) == Answer(b.trie, Tokenize(step.packet.topicName).levels)
    requires h in b.conns && b.conns[h].kind == CLIENT && b.conns[h].connected
    ensures L.Inv(b) ==> |For(CallsOf(b, step), h)| == DueTo(b, step, h)
  {
    var topic := Tokenize(step.packet.topicName).levels;
    TokenizeFailsIffMalformed(step.packet.topicName);
    AnswerNeverFails(b.trie, topic);
    if L.Inv(b) { CallsForClient(b, h, topic, step.answer, step.from, step.pick); }
  }

  /** A publication with an unknown QoS reaches nobody, and one from another broker is not
      written to any router. */
  lemma PublicationIsWithheld(states: seq<Joint>, steps: seq<Step>, now: nat, i: nat, h: nat)
    requires IsRun(states, steps) && i < |steps| && states[0] == Start(now)
    requires steps[i].Publication? && h in states[i].broker.conns
    requires steps[i].packet.qos > 2 || (steps[i].from != CLIENT && states[i].broker.conns[h].kind == ROUTER)
    ensures h in states[i].outs && h in states[i + 1].outs && states[i + 1].outs[h] == states[i].outs[h]
  {
    OneStep(states, steps, now, i);
    NoCallFor(states[i].broker, steps[i], h);
    ServeOthers(states[i].outs, CallsOf(states[i].broker, steps[i]), steps[i].packet, h);
  }

  lemma NoCallFor(b: L.Broker, step: Step, h: nat)
    requires L.Inv(b) && step.Publication? && h in b.conns
    requires Looked(b, step.packet) ==> multiset(step.answer) == Answer(b.trie, Tokenize(step.packet.topicName).levels)
    requires step.packet.qos > 2 || (step.from != CLIENT && b.conns[h].kind == ROUTER)
    ensures For(CallsOf(b, step), h) == []
  {
    var topic := Tokenize(step.packet.topicName).levels;
    if Looked(b, step.packet) { RouterIsSkipped(b, h, step.answer, topic, step.from, step.pick); }
  }

  /** What is retained at a path before and after a publication. */
  ghost predicate RetainedBy(a: R.Trie, b: R.Trie, packet: PublishPacket, x: seq<string>) {
    var p := Tokenize(packet.topicName).levels;
    if !packet.retain || Malformed(packet.topicName) then R.At(b, x) == R.At(a, x)
    else if packet.payload != "" then R.At(b, x) == if x == p then Some(packet) else R.At(a, x)
    else R.At(b, x) == if x == p || (R.HasNode(a, p) && R.Doomed(a, p, x)) then None else R.At(a, x)
  }

  /** A publication that asks for it is retained under its topic and nowhere else, or clears the
      topic, with what that loses, if its payload is empty; any other publication, and one to a
      malformed topic, leaves the retained messages alone. */
  lemma PublicationIsRetained(states: seq<Joint>, steps: seq<Step>, i: nat, x: seq<string>)
    requires IsRun(states, steps) && i < |steps| && steps[i].Publication?
    ensures RetainedBy(states[i].broker.retained, states[i + 1].broker.retained, steps[i].packet, x)
  {
    StepOf(states, steps, i);
    RetainStep(states[i], steps[i], x);
  }

  lemma RetainStep(s: Joint, step: Step, x: seq<string>)
    requires step.Publication?
    ensures Enabled(s, step) ==> RetainedBy(s.broker.retained, Do(s, step).broker.retained, step.packet, x)
  {
    if step.packet.retain { RetainEffect(s.broker.retained, step.packet, x); }
  }

  lemma RetainEffect(a: R.Trie, packet: PublishPacket, x: seq<string>)
    requires packet.retain
    ensures RetainedBy(a, R.AfterRetain(a, packet), packet, x)
  {
    var k := Tokenize(packet.topicName);
    TokenizeFailsIffMalformed(packet.topicName);
    R.InsertAt(a, k.levels, k.ok, packet, x);
    R.RemoveSucceeds(a, k.levels, k.ok);
    if R.Remove(a, k.levels, k.ok).Some? {
      R.RemoveAt(a, k.levels, k.ok, x);
    } else if k.ok {
      NothingWithoutNode(a, k.levels);
    }
  }

  lemma {:induction false} NothingWithoutNode(t: R.Trie, p: seq<string>)
    requires !R.HasNode(t, p)
    ensures R.At(t, p) == None
    decreases |p|
  {
    if p[0] in t.kids { NothingWithoutNode(t.kids[p[0]], p[1..]); } else { R.AtEmpty(p[1..]); }
  }

  /** In every joint run, a SUBSCRIBE whose SUBACK is written brings its connected client the
      list of its retained messages so far and then what its own granted filters match; without
      the SUBACK nothing is written. */
  lemma SubscribeReachesClient(states: seq<Joint>, steps: seq<Step>, now: nat, i: nat, h: nat)
    requires IsRun(states, steps) && i < |steps| && states[0] == Start(now)
    requires steps[i].Life? && steps[i].life.ClientSubscribe? && steps[i].life.h == h
    requires h in states[i].broker.conns && states[i].broker.conns[h].connected
    ensures h in states[i].outs && h in states[i + 1].outs
    ensures var a, r := states[i].outs[h], states[i + 1].outs[h];
      if steps[i].acked
      then r == a.(log := a.log + Sents(states[i].broker.conns[h].rmsgs + RD.Gathered(steps[i].life.items)))
      else r == a
    ensures RD.OwnMatches(states[i].broker, steps[i].life.items)
  {
    OneStep(states, steps, now, i);
    SubscribeWrites(states[i], steps[i]);
  }

  lemma SubscribeWrites(s: Joint, step: Step)
    requires Inv(s) && Enabled(s, step) && step.Life? && step.life.ClientSubscribe? && s.broker.conns[step.life.h].connected
    ensures var h, r := step.life.h, Do(s, step);
      && h in s.outs && h in r.outs
      && r.outs[h] == if step.acked then s.outs[h].(log := s.outs[h].log + Sents(s.broker.conns[h].rmsgs + RD.Gathered(step.life.items))) else s.outs[h]
    ensures RD.OwnMatches(s.broker, step.life.items)
  {
    var h, items, b := step.life.h, step.life.items, L.Do(s.broker, step.life);
    assert OutOk(s, h);
    L.SubscribeAllConns(s.broker, h, items, h);
    RD.WrittenIs(s.broker, h, items);
    RD.GatheredAreMatches(s.broker, items);
    PostWrites(Follow(s.outs, s.broker, b, s.now), h, RD.Written(s.broker, h, items, step.acked));
  }

  // ---------------------------------------------------------------- a will

  /** What the wills written to one live client add to its log. */
  lemma {:induction false} WillsWrite(outs: map<nat, O.State>, told: seq<Subscription>, will: PublishPacket, g: nat)
    requires g in outs && outs[g].live
    ensures Post(outs, Wills(told, will))[g] == outs[g].(log := outs[g].log + Copies(will, |For(told, g)|))
  {
    if told != [] {
      var init, last := told[..|told| - 1], told[|told| - 1];
      WillsWrite(outs, init, will, g);
      assert Wills(told, will)[..|told| - 1] == Wills(init, will);
      var k := |For(init, g)|;
      if last.client == g { assert Copies(will, k + 1) == Copies(will, k) + [O.Sent(will)]; }
    }
  }

  lemma WillStep(s: Joint, step: Step, h: nat)
    requires Enabled(s, step) && h in s.broker.conns
    ensures h in Do(s, step).broker.conns
    ensures Do(s, step).broker.conns[h].will
         == if step.Life? && step.life == L.ReadDisconnect(h) then None else s.broker.conns[h].will
  {
    if step.Life? { BR.WillStep(s.broker, step.life, h); }
  }

  lemma {:induction false} WillKept(states: seq<Joint>, steps: seq<Step>, h: nat, i: nat, j: nat)
    requires IsRun(states, steps) && i <= j <= |steps| && h in states[i].broker.conns
    requires forall m :: i <= m < j ==> !(steps[m].Life? && steps[m].life == L.ReadDisconnect(h))
    ensures h in states[j].broker.conns && states[j].broker.conns[h].will == states[i].broker.conns[h].will
    decreases j
  {
    if i < j {
      WillKept(states, steps, h, i, j - 1);
      StepOf(states, steps, j - 1);
      WillStep(states[j - 1], steps[j - 1], h);
    }
  }

  /** In every joint run, when a client that connected with a will is closed, by Close or by
      takeover, and no DISCONNECT was read in between, every other connected client is written
      that very packet once for each of its filters that match the will's topic. */
  lemma WillReachesClient(states: seq<Joint>, steps: seq<Step>, now: nat, h: nat, i: nat, j: nat, g: nat)
    requires IsRun(states, steps) && states[0] == Start(now) && i < j < |steps|
    requires steps[i].Life? && steps[i].life.Accept? && steps[i].life.h == h && steps[i].life.will.Some?
    requires steps[i].life.will.value.qos <= 2 && !Malformed(steps[i].life.will.value.topicName)
    requires forall m :: i < m < j ==> !(steps[m].Life? && steps[m].life == L.ReadDisconnect(h))
    requires h in states[j].broker.conns && states[j].broker.conns[h].connected
    requires h in states[j + 1].broker.conns && !states[j + 1].broker.conns[h].connected
    requires g in states[j].broker.conns && g in states[j + 1].broker.conns
    requires states[j + 1].broker.conns[g].kind == CLIENT && states[j + 1].broker.conns[g].connected
    ensures g in states[j].outs && g in states[j + 1].outs
    ensures var will, a := steps[i].life.will.value, states[j].outs[g];
      var k := |AnsweredKeys(states[j + 1].broker.conns[g].subMap, Tokenize(will.topicName).levels)|;
      states[j + 1].outs[g] == a.(log := a.log + Copies(will, k))
  {
    StepOf(states, steps, i);
    assert states[i + 1].broker.conns[h].will == steps[i].life.will;
    WillKept(states, steps, h, i + 1, j);
    OneStep(states, steps, now, j);
    RunKeepsInv(states, steps, now, j + 1);
    WillWritten(states[j], steps[j], h, g);
  }

  lemma WillWritten(s: Joint, step: Step, h: nat, g: nat)
    requires Inv(s) && Enabled(s, step) && Inv(Do(s, step))
    requires h in s.broker.conns && s.broker.conns[h].connected && s.broker.conns[h].will.Some?
    requires s.broker.conns[h].will.value.qos <= 2 && !Malformed(s.broker.conns[h].will.value.topicName)
    requires h in Do(s, step).broker.conns && !Do(s, step).broker.conns[h].connected
    requires g in s.outs && g in Do(s, step).broker.conns && Do(s, step).broker.conns[g].kind == CLIENT && Do(s, step).broker.conns[g].connected
    ensures g in Do(s, step).outs
    ensures var will, a := s.broker.conns[h].will.value, s.outs[g];
      var k := |AnsweredKeys(Do(s, step).broker.conns[g].subMap, Tokenize(will.topicName).levels)|;
      Do(s, step).outs[g] == a.(log := a.log + Copies(will, k))
  {
    var r, will := Do(s, step), s.broker.conns[h].will.value;
    WillIsPosted(s, step, h);
    OccurrencesAreMatchingKeys(r.broker, g, step.told, Tokenize(will.topicName).levels);
    OthersFollow(s, step, g);
    WillsWrite(Follow(s.outs, s.broker, r.broker, s.now), step.told, will, g);
  }

  lemma WillIsPosted(s: Joint, step: Step, h: nat)
    requires Enabled(s, step) && h in s.broker.conns && s.broker.conns[h].connected && s.broker.conns[h].will.Some?
    requires s.broker.conns[h].will.value.qos <= 2 && !Malformed(s.broker.conns[h].will.value.topicName)
    requires h in Do(s, step).broker.conns && !Do(s, step).broker.conns[h].connected
    ensures step.Life?
    ensures var r, will := Do(s, step), s.broker.conns[h].will.value;
      && multiset(step.told) == Answer(r.broker.trie, Tokenize(will.topicName).levels)
      && r.outs == Post(Follow(s.outs, s.broker, r.broker, s.now), Wills(step.told, will))
  {
    var will := s.broker.conns[h].will.value;
    assert step.Life?;
    BR.ClosedByOneOfTwo(s.broker, step.life, h);
    assert L.WillOfClosed(s.broker, step.life) == Some(will);
    TokenizeFailsIffMalformed(will.topicName);
    AnswerNeverFails(Do(s, step).broker.trie, Tokenize(will.topicName).levels);
  }

  /** A client that stays connected keeps its outbound state, but for what is posted to it. */
  lemma OthersFollow(s: Joint, step: Step, g: nat)
    requires Inv(s) && step.Life? && Enabled(s, step) && g in s.outs
    requires g in Do(s, step).broker.conns && Do(s, step).broker.conns[g].connected
    ensures var outs := Follow(s.outs, s.broker, Do(s, step).broker, s.now); g in outs && outs[g] == s.outs[g] && outs[g].live
  {
    ConnsFollow(s.broker, step.life, g);
    assert OutOk(s, g);
  }

  /** Nothing written, nothing inflight, no timer. */
  predicate Blank(o: O.State) { o.live && o.inflight == map[] && o.log == [] && o.pending == multiset{} && !o.timerSet }

  /** A new connection starts with a blank outbound state, even if it takes over an id and the
      will of the old connection is published at that moment. */
  lemma NewClientIsFresh(states: seq<Joint>, steps: seq<Step>, now: nat, i: nat, h: nat)
    requires IsRun(states, steps) && states[0] == Start(now) && i < |steps|
    requires h !in states[i].broker.conns && h in states[i + 1].broker.conns
    ensures h in states[i + 1].outs && Blank(states[i + 1].outs[h])
  {
    OneStep(states, steps, now, i);
    FreshAfter(states[i], steps[i], h);
  }

  lemma FreshAfter(s: Joint, step: Step, h: nat)
    ensures Inv(s) && Enabled(s, step) && h !in s.broker.conns && h in Do(s, step).broker.conns ==>
      h in Do(s, step).outs && Blank(Do(s, step).outs[h])
  {
    if Inv(s) && Enabled(s, step) && h !in s.broker.conns && h in Do(s, step).broker.conns {
      assert step.Life?;
      NewByConnecting(s.broker, step.life, h);
      NobodyNewIsTold(s.broker, step.life, step.told, h);
      BlankIfUntold(s, step, h);
    }
  }

  lemma BlankIfUntold(s: Joint, step: Step, h: nat)
    requires step.Life? && (step.life.Accept? || step.life.Dial?) && h !in s.outs && For(step.told, h) == []
    ensures Enabled(s, step) && h in Do(s, step).broker.conns ==> h in Do(s, step).outs && Blank(Do(s, step).outs[h])
  {
    if Enabled(s, step) && h in Do(s, step).broker.conns {
      var will, outs := L.WillOfClosed(s.broker, step.life), Follow(s.outs, s.broker, L.Do(s.broker, step.life), s.now);
      if will.Some? { WillsWrite(outs, step.told, will.value, h); }
    }
  }

  lemma NewByConnecting(b: L.Broker, l: L.Step, h: nat)
    requires L.Enabled(b, l) && h !in b.conns && h in L.Do(b, l).conns
    ensures l.Accept? || l.Dial?
  {}

  lemma NobodyNewIsTold(b: L.Broker, l: L.Step, told: seq<Subscription>, h: nat)
    requires L.Enabled(b, l) && h !in b.conns && Told(L.Do(b, l).trie, L.WillOfClosed(b, l), told)
    ensures L.Inv(b) && h in L.Do(b, l).conns ==> For(told, h) == []
  {
    if L.Inv(b) && h in L.Do(b, l).conns {
      forall x | x in told ensures x.client != h { NewIsNotAnswered(b, l, told, h, x); }
      NoneFor(told, h);
    }
  }

  lemma NewIsNotAnswered(b: L.Broker, l: L.Step, told: seq<Subscription>, h: nat, x: Subscription)
    requires L.Inv(b) && L.Enabled(b, l) && h !in b.conns && h in L.Do(b, l).conns
    requires Told(L.Do(b, l).trie, L.WillOfClosed(b, l), told) && x in told
    ensures x.client != h
  {
    L.StepKeepsInv(b, l);
    NewByConnecting(b, l, h);
    assert x in multiset(told);
    AnsweredOnce(L.Do(b, l), x, Tokenize(L.WillOfClosed(b, l).value.topicName).levels);
    BR.StepOrphan(b, l, h, Tokenize(x.topic).levels, x);
  }

  // ---------------------------------------------------------------- until it is acknowledged

  /** The step acknowledges the id to the client's machine, or delivers another packet under it. */
  predicate Touches(s: Joint, step: Step, h: nat, id: nat) {
    match step
    case Ack(g, o) => g == h && O.Acknowledges(o, id)
    case Publication(_, packet, _, _) =>
      packet.messageId == id && (packet.qos == 1 || packet.qos == 2) && For(CallsOf(s.broker, step), h) != []
    case _ => false
  }

  lemma {:induction false} ServePersists(outs: map<nat, O.State>, calls: seq<Subscription>, packet: PublishPacket, h: nat, id: nat)
    requires h in outs && O.Inv(outs[h]) && outs[h].live && id in outs[h].inflight
    requires !(packet.messageId == id && (packet.qos == 1 || packet.qos == 2))
    ensures O.Persists(outs[h], Serve(outs, calls, packet)[h], id)
  {
    if calls != [] {
      var init := calls[..|calls| - 1];
      ServePersists(outs, init, packet, h, id);
      ServeKeeps(outs, init, packet, h);
      var mid := Serve(outs, init, packet)[h];
      if calls[|calls| - 1].client == h {
        O.QuietStep(mid, O.Delivery(packet), id);
        O.PersistsTwice(outs[h], mid, O.Deliver(mid, packet), id);
      }
    }
  }

  lemma LifePersists(s: Joint, step: Step, h: nat, id: nat)
    requires Inv(s) && step.Life? && Enabled(s, step) && h in s.outs && s.outs[h].live && id in s.outs[h].inflight
    requires h in Do(s, step).outs && Do(s, step).outs[h].live
    ensures O.Persists(s.outs[h], Do(s, step).outs[h], id)
  {
    assert OutOk(s, h);
    FollowOk(s, step.life, h);
    PostKeeps(Follow(s.outs, s.broker, L.Do(s.broker, step.life), s.now), MailOf(s.broker, step.life, step.told, step.acked), h);
  }

  lemma PublicationPersists(s: Joint, step: Step, h: nat, id: nat)
    requires step.Publication? && Enabled(s, step) && h in s.outs && O.Inv(s.outs[h]) && s.outs[h].live && id in s.outs[h].inflight
    requires !Touches(s, step, h, id)
    ensures O.Persists(s.outs[h], Do(s, step).outs[h], id)
  {
    var calls := CallsOf(s.broker, step);
    if For(calls, h) == [] {
      ServeOthers(s.outs, calls, step.packet, h);
    } else {
      ServePersists(s.outs, calls, step.packet, h, id);
    }
  }

  lemma StepPersists(s: Joint, step: Step, h: nat, id: nat)
    requires Inv(s) && Enabled(s, step) && h in s.outs && s.outs[h].live && id in s.outs[h].inflight
    requires !Touches(s, step, h, id) && h in Do(s, step).outs && Do(s, step).outs[h].live
    ensures O.Persists(s.outs[h], Do(s, step).outs[h], id)
  {
    assert OutOk(s, h);
    match step
    case Life(_, _, _) => LifePersists(s, step, h, id);
    case Publication(_, _, _, _) => PublicationPersists(s, step, h, id);
    case Ack(g, o) => if g == h { O.QuietStep(s.outs[h], o, id); }
    case Fire(g, due, order) => if g == h { O.QuietStep(s.outs[h], O.Fire(due, order), id); }
    case Tick(ns) =>
  }

  lemma StillThere(s: Joint, step: Step, h: nat)
    requires Enabled(s, step) && h in s.broker.conns
    ensures h in Do(s, step).broker.conns
    ensures Do(s, step).broker.conns[h].connected ==> s.broker.conns[h].connected
  {
    if step.Life? { ConnsFollow(s.broker, step.life, h); }
  }

  /** One step of a run, with the invariant. */
  lemma OneStep(states: seq<Joint>, steps: seq<Step>, now: nat, k: nat)
    requires IsRun(states, steps) && states[0] == Start(now) && k < |steps|
    ensures Inv(states[k]) && Enabled(states[k], steps[k]) && states[k + 1] == Do(states[k], steps[k])
  {
    RunKeepsInv(states, steps, now, k);
    StepOf(states, steps, k);
  }

  /** While the client is connected, what it had inflight under the id in `a` has persisted. */
  ghost predicate Holding(a: O.State, s: Joint, h: nat, id: nat)
    requires id in a.inflight
  {
    && h in s.broker.conns && h in s.outs
    && (s.broker.conns[h].connected ==> O.Persists(a, s.outs[h], id))
  }

  lemma HoldingStep(a: O.State, s: Joint, step: Step, h: nat, id: nat)
    requires id in a.inflight && Holding(a, s, h, id)
    ensures Inv(s) && Enabled(s, step) && !Touches(s, step, h, id) ==> Holding(a, Do(s, step), h, id)
  {
    if Inv(s) && Enabled(s, step) && !Touches(s, step, h, id) {
      var r := Do(s, step);
      StillThere(s, step, h);
      assert h in r.outs && (r.outs[h].live <==> r.broker.conns[h].connected) by {
        StepKeepsInv(s, step);
        assert OutOk(r, h);
      }
      if r.broker.conns[h].connected {
        assert OutOk(s, h);
        StepPersists(s, step, h, id);
        O.PersistsTwice(a, s.outs[h], r.outs[h], id);
      }
    }
  }

  ghost predicate Untouched(states: seq<Joint>, steps: seq<Step>, h: nat, id: nat, m: nat, n: nat)
    requires m <= n <= |steps| && |states| == |steps| + 1
  {
    forall k {:trigger Nth(k)} :: Nth(k) && m <= k < n ==> !Touches(states[k], steps[k], h, id)
  }

  lemma {:induction false} RunPersists(states: seq<Joint>, steps: seq<Step>, now: nat, a: O.State, h: nat, id: nat, m: nat, n: nat)
    requires IsRun(states, steps) && states[0] == Start(now) && m <= n <= |steps|
    requires id in a.inflight && Holding(a, states[m], h, id)
    requires Untouched(states, steps, h, id, m, n)
    ensures Holding(a, states[n], h, id)
    decreases n
  {
    if m < n {
      RunPersists(states, steps, now, a, h, id, m, n - 1);
      OneStep(states, steps, now, n - 1);
      assert Nth(n - 1);
      HoldingStep(a, states[n - 1], steps[n - 1], h, id);
    }
  }

  lemma {:induction false} ConnsStay(states: seq<Joint>, steps: seq<Step>, h: nat, m: nat, n: nat)
    requires IsRun(states, steps) && m <= n <= |steps| && h in states[m].broker.conns
    ensures h in states[n].broker.conns
    decreases n
  {
    if m < n {
      ConnsStay(states, steps, h, m, n - 1);
      StepOf(states, steps, n - 1);
      StillThere(states[n - 1], steps[n - 1], h);
    }
  }

  /** End to end: when 40 s have passed since a publication with QoS 1 or 2 was written to a
      connected client, it has been acknowledged, displaced by another packet under the same
      message id, lost to the closing of the client, or written again by the timer, as it was,
      at an age from 20 to 39 s. */
  lemma PublicationIsAcknowledgedOrResent(states: seq<Joint>, steps: seq<Step>, now: nat, i: nat, j: nat, h: nat)
    requires IsRun(states, steps) && states[0] == Start(now) && i < j <= |steps|
    requires steps[i].Publication? && (steps[i].packet.qos == 1 || steps[i].packet.qos == 2)
    requires h in states[i].broker.conns && states[i].broker.conns[h].connected
    requires For(CallsOf(states[i].broker, steps[i]), h) != []
    requires Unix(states[j].now) >= Unix(states[i].now) + 40
    ensures h in states[i + 1].outs && h in states[j].outs && h in states[j].broker.conns
    ensures var packet := steps[i].packet;
      || (exists k :: i < k < j && Touches(states[k], steps[k], h, packet.messageId))
      || !states[j].broker.conns[h].connected
      || O.ResentAfter(states[j].outs[h].log, |states[i + 1].outs[h].log|, packet.messageId, O.Elem(O.Publish, packet, Unix(states[i].now)))
  {
    var packet := steps[i].packet;
    assert Entered(states[i], states[i + 1], packet, h) by {
      OneStep(states, steps, now, i);
      PublicationEnters(states[i], steps[i], h);
    }
    EnteredOutcome(states, steps, now, i, j, h, packet);
  }

  lemma EnteredOutcome(states: seq<Joint>, steps: seq<Step>, now: nat, i: nat, j: nat, h: nat, packet: PublishPacket)
    requires IsRun(states, steps) && states[0] == Start(now) && i < j <= |steps| && Entered(states[i], states[i + 1], packet, h)
    requires Unix(states[j].now) >= Unix(states[i].now) + 40
    ensures h in states[i + 1].outs && h in states[j].outs && h in states[j].broker.conns
    ensures
      || (exists k :: i < k < j && Touches(states[k], steps[k], h, packet.messageId))
      || !states[j].broker.conns[h].connected
      || O.ResentAfter(states[j].outs[h].log, |states[i + 1].outs[h].log|, packet.messageId, O.Elem(O.Publish, packet, Unix(states[i].now)))
  {
    EnteredIsThere(states, steps, now, i, j, h, packet);
    if states[j].broker.conns[h].connected && Untouched(states, steps, h, packet.messageId, i + 1, j) {
      EnteredIsResent(states, steps, now, i, j, h, packet);
    }
  }

  lemma EnteredIsThere(states: seq<Joint>, steps: seq<Step>, now: nat, i: nat, j: nat, h: nat, packet: PublishPacket)
    requires IsRun(states, steps) && states[0] == Start(now) && i < j <= |steps| && Entered(states[i], states[i + 1], packet, h)
    ensures h in states[j].outs && h in states[j].broker.conns
  {
    ConnsStay(states, steps, h, i + 1, j);
    RunKeepsInv(states, steps, now, j);
  }

  lemma EnteredIsResent(states: seq<Joint>, steps: seq<Step>, now: nat, i: nat, j: nat, h: nat, packet: PublishPacket)
    requires IsRun(states, steps) && states[0] == Start(now) && i < j <= |steps| && Entered(states[i], states[i + 1], packet, h)
    requires h in states[j].outs && h in states[j].broker.conns && states[j].broker.conns[h].connected
    requires Untouched(states, steps, h, packet.messageId, i + 1, j)
    requires Unix(states[j].now) >= Unix(states[i].now) + 40
    ensures O.ResentAfter(states[j].outs[h].log, |states[i + 1].outs[h].log|, packet.messageId, O.Elem(O.Publish, packet, Unix(states[i].now)))
  {
    RunPersists(states, steps, now, states[i + 1].outs[h], h, packet.messageId, i + 1, j);
    RunKeepsInv(states, steps, now, j);
    AgedIsResent(states[i + 1].outs[h], states[j], h, packet.messageId);
  }

  lemma PublicationEnters(s: Joint, step: Step, h: nat)
    requires step.Publication? && (step.packet.qos == 1 || step.packet.qos == 2)
    requires h in s.broker.conns && s.broker.conns[h].connected && For(CallsOf(s.broker, step), h) != []
    ensures Inv(s) && Enabled(s, step) ==> Entered(s, Do(s, step), step.packet, h)
  {
    if Inv(s) && Enabled(s, step) {
      assert OutOk(s, h);
      StillThere(s, step, h);
      ServeWrites(s.outs, CallsOf(s.broker, step), step.packet, h);
    }
  }

  /** The client has the packet inflight since the step, which `Holding` follows from there. */
  ghost predicate Entered(s: Joint, r: Joint, packet: PublishPacket, h: nat) {
    && h in r.outs && h in r.broker.conns && packet.messageId in r.outs[h].inflight
    && r.outs[h].inflight[packet.messageId] == O.Elem(O.Publish, packet, Unix(s.now))
    && Holding(r.outs[h], r, h, packet.messageId)
  }

  lemma AgedIsResent(a: O.State, s: Joint, h: nat, id: nat)
    requires id in a.inflight && Unix(s.now) >= a.inflight[id].timestamp + 40
    ensures Inv(s) && Holding(a, s, h, id) && s.broker.conns[h].connected ==>
      O.ResentAfter(s.outs[h].log, |a.log|, id, a.inflight[id])
  {
    if Inv(s) && Holding(a, s, h, id) && s.broker.conns[h].connected {
      assert OutOk(s, h);
      O.AgeBound(s.outs[h], id);
    }
  }
}
