/** Outbound QoS 1 and 2 of one client: the inflight table, its acknowledgements, and the
    self-rearming retry timer, over every interleaving of handlers, timer callbacks and time. */
module Outbound {
  import opened Prelude

  const RETRY_INTERVAL := 20

  datatype Status = Publish | Pubrel

  datatype Elem = Elem(status: Status, packet: PublishPacket, timestamp: nat)

  /** Packets written to a live connection. */
  datatype Event =
    | Sent(packet: PublishPacket)
    | SentPubrel(id: nat)
    | Resent(id: nat, status: Status, packet: PublishPacket, age: int)

  /** `live`: the connection has not been closed. `timerSet`: the `retryTimer` field is not
      nil. `pending`: when the timers that have been started and not yet fired are due. */
  datatype State = State(
    now: nat, live: bool, inflight: map<nat, Elem>, timerSet: bool, pending: multiset<nat>, log: seq<Event>)

  // ---------------------------------------------------------------- the operations of the source

  function Write(s: State, e: Event): State {
    if s.live then s.(log := s.log + [e]) else s
  }

  /** `ensureRetryTimer`. */
  function Ensure(s: State, seconds: nat): State {
    if s.timerSet then s
    else s.(timerSet := true, pending := s.pending + multiset{s.now + seconds * NS})
  }

  /** `publish`. */
  function Deliver(s: State, p: PublishPacket): State {
    if p.qos == 0 then Write(s, Sent(p))
    else if p.qos == 1 || p.qos == 2 then
      var t := s.(inflight := s.inflight[p.messageId := Elem(Publish, p, Unix(s.now))]);
      Ensure(Write(t, Sent(p)), RETRY_INTERVAL)
    else s
  }

  /** PUBREC: the element, if any, moves to Pubrel; a PUBREL is written in any case. */
  function HandlePubrec(s: State, id: nat): State {
    var t := if id in s.inflight && s.inflight[id].status == Publish then
               s.(inflight := s.inflight[id := s.inflight[id].(status := Pubrel, timestamp := Unix(s.now))])
             else s;
    Write(t, SentPubrel(id))
  }

  /** PUBACK and PUBCOMP. */
  function Forget(s: State, id: nat): State { s.(inflight := s.inflight - {id}) }

  /** One round of the loop in `retryDelivery`. */
  function RetryOne(s: State, id: nat): State
    requires id in s.inflight
  {
    var e := s.inflight[id];
    var age := Unix(s.now) - e.timestamp;
    if age >= RETRY_INTERVAL then
      Write(s, Resent(id, e.status, e.packet, age)).(inflight := s.inflight[id := e.(timestamp := Unix(s.now))])
    else
      Ensure(s, RETRY_INTERVAL - (if age < 0 then 0 else age))
  }

  /** The loop in `retryDelivery`, over the elements in the order of one map iteration. */
  function RetryAll(s: State, order: seq<nat>): (r: State)
    requires forall id :: id in order ==> id in s.inflight
    ensures r.inflight.Keys == s.inflight.Keys
  {
    if order == [] then s else RetryOne(RetryAll(s, order[..|order| - 1]), order[|order| - 1])
  }

  /** `retryDelivery`. */
  function RetryDelivery(s: State, order: seq<nat>): State
    requires forall id :: id in order ==> id in s.inflight
  {
    var t := s.(timerSet := false);
    if !s.live || s.inflight == map[] then t else Ensure(RetryAll(t, order), RETRY_INTERVAL)
  }

  // ---------------------------------------------------------------- runs

  datatype Step =
    | Delivery(packet: PublishPacket)
    | Puback(id: nat) | Pubrec(id: nat) | Pubcomp(id: nat)
    | Close
    | Fire(due: nat, order: seq<nat>)
    | Tick(ns: nat)

  /** Timers fire when they are due: time does not pass a pending one. */
  ghost predicate Enabled(s: State, step: Step) {
    match step
    case Fire(due, order) => due in s.pending && due <= s.now && IsOrder(order, s.inflight.Keys)
    case Tick(ns) => forall d :: d in s.pending ==> s.now + ns <= d
    case _ => true
  }

  ghost function Do(s: State, step: Step): State
    requires Enabled(s, step)
  {
    match step
    case Delivery(p) => Deliver(s, p)
    case Puback(id) => Forget(s, id)
    case Pubrec(id) => HandlePubrec(s, id)
    case Pubcomp(id) => Forget(s, id)
    case Close => s.(live := false)
    case Fire(due, order) => RetryDelivery(s.(pending := s.pending - multiset{due}), order)
    case Tick(ns) => s.(now := s.now + ns)
  }

  /** `states` is a run of `steps`: one state more than steps. */
  ghost predicate IsRun(states: seq<State>, steps: seq<Step>) {
    && |states| == |steps| + 1
    && forall i {:trigger Nth(i)} :: Nth(i) && 0 <= i < |steps| ==> Enabled(states[i], steps[i]) && states[i + 1] == Do(states[i], steps[i])
  }

  lemma StepOf(states: seq<State>, steps: seq<Step>, i: nat)
    requires IsRun(states, steps) && i < |steps|
    ensures Enabled(states[i], steps[i]) && states[i + 1] == Do(states[i], steps[i])
  {
    assert Nth(i);
  }

  function Init(now: nat): State { State(now, true, map[], false, multiset{}, []) }

  // ---------------------------------------------------------------- the invariant

  ghost predicate ElemOk(s: State, id: nat)
    requires id in s.inflight
  {
    var e := s.inflight[id];
    e.packet.messageId == id && (e.packet.qos == 1 || e.packet.qos == 2) && e.timestamp <= Unix(s.now)
  }

  /** One timer, armed at most 20 s ahead, early enough for every element of a live client. */
  ghost predicate TimerOk(s: State) {
    && |s.pending| == (if s.timerSet then 1 else 0)
    && (s.live && s.inflight != map[] ==> s.timerSet)
    && (forall d :: d in s.pending ==> s.now <= d <= s.now + RETRY_INTERVAL * NS)
    && (s.live ==> forall d, id :: d in s.pending && id in s.inflight ==> Unix(d) - s.inflight[id].timestamp <= 39)
  }

  ghost predicate EventOk(e: Event) { e.Resent? ==> 20 <= e.age <= 39 && e.packet.messageId == e.id }

  ghost predicate Inv(s: State) {
    && (forall id :: id in s.inflight ==> ElemOk(s, id))
    && TimerOk(s)
    && (forall i :: 0 <= i < |s.log| ==> EventOk(s.log[i]))
  }

  // ---------------------------------------------------------------- what a timer callback does

  function Refreshed(e: Elem, now: nat): Elem {
    if Unix(now) - e.timestamp >= RETRY_INTERVAL then e.(timestamp := Unix(now)) else e
  }

  lemma {:induction false} RetryAllKeeps(s: State, order: seq<nat>)
    requires forall id :: id in order ==> id in s.inflight
    ensures RetryAll(s, order).now == s.now && RetryAll(s, order).live == s.live
  {
    if order != [] { RetryAllKeeps(s, order[..|order| - 1]); }
  }

  /** The loop, in any order: every element aged 20 s or more is refreshed, the others are
      left as they are. */
  lemma {:induction false} RetryAllRefreshes(s: State, order: seq<nat>)
    requires NoDuplicates(order) && forall id :: id in order ==> id in s.inflight
    ensures forall id :: id in s.inflight ==>
      RetryAll(s, order).inflight[id] == if id in order then Refreshed(s.inflight[id], s.now) else s.inflight[id]
  {
    if order != [] {
      var init, id := order[..|order| - 1], order[|order| - 1];
      assert order == init + [id];
      RetryAllRefreshes(s, init);
      RetryAllKeeps(s, init);
      assert id !in init;
      assert forall x :: x in order <==> x in init || x == id;
    }
  }

  predicate Aged(s: State, id: nat)
    requires id in s.inflight
  {
    Unix(s.now) - s.inflight[id].timestamp >= RETRY_INTERVAL
  }

  /** The first element in the order of iteration that is not yet due. */
  function FirstUnaged(s: State, order: seq<nat>): Option<nat>
    requires forall id :: id in order ==> id in s.inflight
  {
    if order == [] then None
    else
      var r, id := FirstUnaged(s, order[..|order| - 1]), order[|order| - 1];
      if r.Some? then r else if Aged(s, id) then None else Some(id)
  }

  lemma {:induction false} FirstUnagedIs(s: State, order: seq<nat>)
    requires forall id :: id in order ==> id in s.inflight
    ensures var r := FirstUnaged(s, order); r.Some? ==> r.value in order && !Aged(s, r.value)
  {
    if order != [] { FirstUnagedIs(s, order[..|order| - 1]); }
  }

  /** Seconds until an element is due. */
  function Wait(s: State, id: nat): int
    requires id in s.inflight
  {
    var age := Unix(s.now) - s.inflight[id].timestamp;
    RETRY_INTERVAL - (if age < 0 then 0 else age)
  }

  lemma RetryOneArms(s: State, id: nat)
    requires id in s.inflight
    ensures var r := RetryOne(s, id);
      if s.timerSet || Aged(s, id) then r.timerSet == s.timerSet && r.pending == s.pending
      else r.timerSet && r.pending == s.pending + multiset{s.now + Wait(s, id) * NS}
  {}

  /** The loop starts one timer, for that element, if there is one. */
  ghost predicate Armed(s: State, r: State, first: Option<nat>)
    requires first.Some? ==> first.value in s.inflight
  {
    && r.timerSet == first.Some?
    && r.pending == if first.Some? then s.pending + multiset{s.now + Wait(s, first.value) * NS} else s.pending
  }

  lemma {:induction false} RetryAllArms(s: State, order: seq<nat>)
    requires !s.timerSet && NoDuplicates(order) && forall id :: id in order ==> id in s.inflight
    ensures FirstUnaged(s, order).Some? ==> FirstUnaged(s, order).value in s.inflight && !Aged(s, FirstUnaged(s, order).value)
    ensures Armed(s, RetryAll(s, order), FirstUnaged(s, order))
  {
    FirstUnagedIs(s, order);
    if order != [] {
      var init, id := order[..|order| - 1], order[|order| - 1];
      RetryAllArms(s, init);
      RetryAllKeeps(s, init);
      RetryAllRefreshes(s, init);
      assert id in order && id !in init;
      ArmsNext(s, RetryAll(s, init), FirstUnaged(s, init), id);
    }
  }

  lemma ArmsNext(s: State, mid: State, first: Option<nat>, id: nat)
    requires first.Some? ==> first.value in s.inflight
    requires Armed(s, mid, first) && id in s.inflight && id in mid.inflight && mid.inflight[id] == s.inflight[id] && mid.now == s.now
    ensures Armed(s, RetryOne(mid, id), if first.Some? then first else if Aged(s, id) then None else Some(id))
  {
    RetryOneArms(mid, id);
  }

  /** When the next callback is due after one on a live client with something inflight. */
  function NextDue(s: State, order: seq<nat>): int
    requires forall id :: id in order ==> id in s.inflight
  {
    var first := FirstUnaged(s, order);
    FirstUnagedIs(s, order);
    s.now + (if first.Some? then Wait(s, first.value) else RETRY_INTERVAL) * NS
  }

  /** The packets that the loop writes: one for every aged element, in the order of iteration. */
  function Resends(s: State, order: seq<nat>): seq<Event>
    requires forall id :: id in order ==> id in s.inflight
  {
    if order == [] then []
    else
      var id := order[|order| - 1];
      var e := s.inflight[id];
      Resends(s, order[..|order| - 1])
      + (if Aged(s, id) then [Resent(id, e.status, e.packet, Unix(s.now) - e.timestamp)] else [])
  }

  lemma RetryOneWrites(s: State, id: nat)
    requires s.live && id in s.inflight
    ensures var e := s.inflight[id];
      RetryOne(s, id).log == s.log + if Aged(s, id) then [Resent(id, e.status, e.packet, Unix(s.now) - e.timestamp)] else []
  {}

  lemma {:induction false} RetryAllWrites(s: State, order: seq<nat>)
    requires s.live && NoDuplicates(order) && forall id :: id in order ==> id in s.inflight
    ensures RetryAll(s, order).log == s.log + Resends(s, order)
  {
    if order != [] {
      var init, id := order[..|order| - 1], order[|order| - 1];
      var mid := RetryAll(s, init);
      RetryAllWrites(s, init);
      RetryAllKeeps(s, init);
      RetryAllRefreshes(s, init);
      assert id in order && id !in init;
      assert mid.inflight[id] == s.inflight[id];
      RetryOneWrites(mid, id);
    }
  }

  function CountResent(log: seq<Event>, id: nat): nat {
    if log == [] then 0
    else CountResent(log[..|log| - 1], id) + (if log[|log| - 1].Resent? && log[|log| - 1].id == id then 1 else 0)
  }

  /** Each aged element is written once, the others not at all. */
  lemma {:induction false} ResendsOnce(s: State, order: seq<nat>, id: nat)
    requires NoDuplicates(order) && forall x :: x in order ==> x in s.inflight
    ensures CountResent(Resends(s, order), id) == if id in order && Aged(s, id) then 1 else 0
  {
    if order != [] {
      var init, last := order[..|order| - 1], order[|order| - 1];
      assert order == init + [last] && last !in init;
      assert id in order <==> id in init || id == last;
      ResendsOnce(s, init, id);
      var e := s.inflight[last];
      assert !Aged(s, last) ==> Resends(s, order) == Resends(s, init);
      CountMore(Resends(s, init), Resent(last, e.status, e.packet, Unix(s.now) - e.timestamp), id);
    }
  }

  lemma CountMore(log: seq<Event>, ev: Event, id: nat)
    ensures CountResent(log + [ev], id) == CountResent(log, id) + (if ev.Resent? && ev.id == id then 1 else 0)
  {
    assert (log + [ev])[..|log + [ev]| - 1] == log;
  }

  lemma {:induction false} ResendsAges(s: State, order: seq<nat>)
    requires forall id :: id in order ==> id in s.inflight && ElemOk(s, id) && Unix(s.now) - s.inflight[id].timestamp <= 39
    ensures forall i :: 0 <= i < |Resends(s, order)| ==> EventOk(Resends(s, order)[i])
    ensures forall e :: e in Resends(s, order) ==>
      e.Resent? && e.id in order && e.status == s.inflight[e.id].status && e.packet == s.inflight[e.id].packet
  {
    if order != [] {
      ResendsAges(s, order[..|order| - 1]);
      assert order[|order| - 1] in order;
    }
  }

  /** The state in which the loop of a timer callback starts. */
  function Fired(s: State, due: nat): State { s.(pending := s.pending - multiset{due}, timerSet := false) }

  /** After a timer callback that found something inflight, one timer runs: for the first
      element of its iteration that was not yet due, or for the full interval if all were. */
  lemma FireRearms(s: State, due: nat, order: seq<nat>)
    requires s.live && s.inflight != map[] && Enabled(s, Fire(due, order))
    ensures var r := Do(s, Fire(due, order));
      r.timerSet && r.pending == s.pending - multiset{due} + multiset{NextDue(Fired(s, due), order)}
  {
    var t := Fired(s, due);
    assert Do(s, Fire(due, order)) == Ensure(RetryAll(t, order), RETRY_INTERVAL);
    LoopThenEnsure(t, order);
  }

  lemma LoopThenEnsure(t: State, order: seq<nat>)
    requires !t.timerSet && NoDuplicates(order) && forall id :: id in order ==> id in t.inflight
    ensures var r := Ensure(RetryAll(t, order), RETRY_INTERVAL);
      r.timerSet && r.pending == t.pending + multiset{NextDue(t, order)}
  {
    RetryAllArms(t, order);
    RetryAllKeeps(t, order);
    EnsureArmed(t, RetryAll(t, order), FirstUnaged(t, order));
  }

  lemma EnsureArmed(t: State, u: State, first: Option<nat>)
    requires first.Some? ==> first.value in t.inflight
    requires Armed(t, u, first) && u.now == t.now
    ensures var r := Ensure(u, RETRY_INTERVAL);
      r.timerSet && r.pending == t.pending + multiset{t.now + (if first.Some? then Wait(t, first.value) else RETRY_INTERVAL) * NS}
  {}

  /** What a timer callback writes and which timestamps it changes, said without the loop. */
  lemma FireEffect(s: State, due: nat, order: seq<nat>)
    requires s.live && Enabled(s, Fire(due, order))
    ensures var r := Do(s, Fire(due, order));
      && r.live && r.now == s.now && r.inflight.Keys == s.inflight.Keys
      && r.log == s.log + Resends(Fired(s, due), order)
      && forall id :: id in s.inflight ==> r.inflight[id] == Refreshed(s.inflight[id], s.now)
  {
    var t := Fired(s, due);
    if s.inflight == map[] {
      OrderLength(order, s.inflight.Keys);
    } else {
      RetryAllKeeps(t, order);
      RetryAllWrites(t, order);
      RetryAllRefreshes(t, order);
    }
  }

  lemma AgeBound(s: State, id: nat)
    requires Inv(s) && s.live && id in s.inflight
    ensures 0 <= Unix(s.now) - s.inflight[id].timestamp <= 39
  {}

  /** When the timer fires on a live client, exactly the elements aged 20 s or more are
      written again, once each, and their age is at most 39 s. */
  lemma FireResendsTheAged(s: State, due: nat, order: seq<nat>, id: nat)
    requires Inv(s) && s.live && Enabled(s, Fire(due, order)) && id in s.inflight
    ensures s.log <= Do(s, Fire(due, order)).log
    ensures CountResent(Do(s, Fire(due, order)).log[|s.log|..], id) == if Aged(s, id) then 1 else 0
    ensures Unix(s.now) - s.inflight[id].timestamp <= 39
    ensures id in Do(s, Fire(due, order)).inflight
    ensures Do(s, Fire(due, order)).inflight[id] == Refreshed(s.inflight[id], s.now)
  {
    FireEffect(s, due, order);
    AgeBound(s, id);
    ResendsOnce(Fired(s, due), order, id);
    assert id in order;
    assert Do(s, Fire(due, order)).log[|s.log|..] == Resends(Fired(s, due), order);
  }

  // ---------------------------------------------------------------- every step keeps the invariant

  /** Entering or refreshing an element now keeps the timer early enough. */
  lemma FreshElemKeepsTimer(s: State, id: nat, e: Elem)
    requires TimerOk(s) && s.timerSet && e.timestamp == Unix(s.now)
    ensures TimerOk(s.(inflight := s.inflight[id := e]))
  {
    var r := s.(inflight := s.inflight[id := e]);
    forall d, x | d in r.pending && x in r.inflight && r.live ensures Unix(d) - r.inflight[x].timestamp <= 39 {
      if x == id { assert d <= s.now + RETRY_INTERVAL * NS; }
    }
  }

  /** Arming the timer of a client without one. */
  lemma EnsureKeepsTimer(s: State)
    requires TimerOk(s)
    ensures TimerOk(Ensure(s, RETRY_INTERVAL)) && Ensure(s, RETRY_INTERVAL).timerSet
  {
    if !s.timerSet { assert s.pending == multiset{}; }
  }

  lemma DeliverKeepsInv(s: State, p: PublishPacket)
    requires Inv(s)
    ensures Inv(Deliver(s, p))
  {
    if p.qos == 1 || p.qos == 2 {
      DeliverKeepsTimer(s, p);
      DeliverKeepsElems(s, p);
    }
  }

  lemma DeliverKeepsTimer(s: State, p: PublishPacket)
    requires TimerOk(s) && (p.qos == 1 || p.qos == 2)
    ensures TimerOk(Deliver(s, p))
  {
    var r, e := Deliver(s, p), Elem(Publish, p, Unix(s.now));
    var a := Ensure(s, RETRY_INTERVAL);
    EnsureKeepsTimer(s);
    FreshElemKeepsTimer(a, p.messageId, e);
    assert r == a.(inflight := s.inflight[p.messageId := e], log := r.log);
    TimerIgnoresLog(a.(inflight := s.inflight[p.messageId := e]), r.log);
  }

  lemma TimerIgnoresLog(s: State, log: seq<Event>)
    requires TimerOk(s)
    ensures TimerOk(s.(log := log))
  {}

  lemma DeliverKeepsElems(s: State, p: PublishPacket)
    requires Inv(s) && (p.qos == 1 || p.qos == 2)
    ensures var r := Deliver(s, p);
      (forall id :: id in r.inflight ==> ElemOk(r, id)) && forall i :: 0 <= i < |r.log| ==> EventOk(r.log[i])
  {
    var r := Deliver(s, p);
    forall id | id in r.inflight ensures ElemOk(r, id) {
      if id != p.messageId { assert ElemOk(s, id); }
    }
  }

  lemma ForgetKeepsInv(s: State, id: nat)
    requires Inv(s)
    ensures Inv(Forget(s, id))
  {
    var r := Forget(s, id);
    assert r.inflight != map[] ==> s.inflight != map[];
    forall x | x in r.inflight ensures ElemOk(r, x) { assert ElemOk(s, x); }
  }

  lemma PubrecKeepsInv(s: State, id: nat)
    requires Inv(s)
    ensures Inv(HandlePubrec(s, id))
  {
    var r := HandlePubrec(s, id);
    assert r.pending == s.pending && r.inflight.Keys == s.inflight.Keys;
    forall x | x in r.inflight ensures ElemOk(r, x) { assert ElemOk(s, x); }
    forall d, x | d in r.pending && x in r.inflight && r.live ensures Unix(d) - r.inflight[x].timestamp <= 39 {
      assert d <= s.now + RETRY_INTERVAL * NS;
    }
  }

  lemma TickKeepsInv(s: State, ns: nat)
    requires Inv(s) && Enabled(s, Tick(ns))
    ensures Inv(Do(s, Tick(ns)))
  {}

  /** What the loop leaves behind: no element older than 19 s and at most one timer. */
  ghost predicate AfterLoop(u: State) {
    && (forall id :: id in u.inflight ==> ElemOk(u, id) && u.inflight[id].timestamp + 19 >= Unix(u.now))
    && (if u.timerSet then |u.pending| == 1 else u.pending == multiset{})
    && (forall d :: d in u.pending ==> u.now <= d <= u.now + RETRY_INTERVAL * NS)
  }

  lemma LoopLeaves(t: State, order: seq<nat>)
    requires IsOrder(order, t.inflight.Keys) && !t.timerSet && t.pending == multiset{}
    requires forall id :: id in t.inflight ==> ElemOk(t, id)
    ensures AfterLoop(RetryAll(t, order))
  {
    var u := RetryAll(t, order);
    RetryAllKeeps(t, order);
    RetryAllRefreshes(t, order);
    RetryAllArms(t, order);
    FirstUnagedIs(t, order);
    forall id | id in u.inflight ensures ElemOk(u, id) && u.inflight[id].timestamp + 19 >= Unix(u.now) {
      assert id in order && ElemOk(t, id);
    }
  }

  lemma LoopWritesOk(t: State, order: seq<nat>)
    requires t.live && IsOrder(order, t.inflight.Keys)
    requires forall id :: id in t.inflight ==> ElemOk(t, id) && Unix(t.now) - t.inflight[id].timestamp <= 39
    requires forall i :: 0 <= i < |t.log| ==> EventOk(t.log[i])
    ensures forall i :: 0 <= i < |RetryAll(t, order).log| ==> EventOk(RetryAll(t, order).log[i])
  {
    RetryAllWrites(t, order);
    ResendsAges(t, order);
  }

  lemma FireKeepsInv(s: State, due: nat, order: seq<nat>)
    requires Inv(s) && Enabled(s, Fire(due, order))
    ensures Inv(Do(s, Fire(due, order)))
  {
    var t := Fired(s, due);
    assert t.pending == multiset{} by { SingleTimer(s.pending, due); }
    forall id | id in t.inflight ensures ElemOk(t, id) { assert ElemOk(s, id); }
    if s.live && s.inflight != map[] {
      forall id | id in t.inflight ensures Unix(t.now) - t.inflight[id].timestamp <= 39 { AgeBound(s, id); }
      LoopLeaves(t, order);
      LoopWritesOk(t, order);
      EnsureKeepsInv(RetryAll(t, order));
    } else {
      assert Do(s, Fire(due, order)) == t;
    }
  }

  lemma EnsureKeepsInv(u: State)
    requires AfterLoop(u) && forall i :: 0 <= i < |u.log| ==> EventOk(u.log[i])
    ensures Inv(Ensure(u, RETRY_INTERVAL))
  {}

  lemma SingleTimer(pending: multiset<nat>, due: nat)
    requires |pending| <= 1 && due in pending
    ensures pending == multiset{due} && pending - multiset{due} == multiset{}
  {
    assert |pending - multiset{due}| == 0;
  }

  lemma StepKeepsInv(s: State, step: Step)
    requires Inv(s) && Enabled(s, step)
    ensures Inv(Do(s, step))
  {
    match step
    case Delivery(p) => DeliverKeepsInv(s, p);
    case Puback(id) => ForgetKeepsInv(s, id);
    case Pubrec(id) => PubrecKeepsInv(s, id);
    case Pubcomp(id) => ForgetKeepsInv(s, id);
    case Close =>
    case Fire(due, order) => FireKeepsInv(s, due, order);
    case Tick(ns) => TickKeepsInv(s, ns);
  }

  lemma {:induction false} RunKeepsInv(states: seq<State>, steps: seq<Step>, i: nat)
    requires IsRun(states, steps) && i <= |steps| && Inv(states[0])
    ensures Inv(states[i])
  {
    if i > 0 {
      RunKeepsInv(states, steps, i - 1);
      StepOf(states, steps, i - 1);
      StepKeepsInv(states[i - 1], steps[i - 1]);
    }
  }

  // ---------------------------------------------------------------- whole runs

  /** In every reachable state of a live client: one armed timer, due within 20 s, if anything
      is inflight; no element is older than 39 s; and every resend so far was at an age from 20 to 39 s. */
  lemma RetryIsTimely(states: seq<State>, steps: seq<Step>, now: nat, i: nat)
    requires IsRun(states, steps) && states[0] == Init(now) && i <= |steps|
    ensures var s := states[i];
      && (s.live && s.inflight != map[] ==> |s.pending| == 1 && forall d :: d in s.pending ==> s.now <= d <= s.now + 20 * NS)
      && (forall id :: id in s.inflight ==> s.inflight[id].packet.messageId == id)
      && (s.live ==> forall id :: id in s.inflight ==> 0 <= Unix(s.now) - s.inflight[id].timestamp <= 39)
      && (forall j :: 0 <= j < |s.log| && s.log[j].Resent? ==> 20 <= s.log[j].age <= 39)
  {
    RunKeepsInv(states, steps, i);
    var s := states[i];
    forall id | id in s.inflight ensures s.inflight[id].packet.messageId == id { assert ElemOk(s, id); }
    forall id | id in s.inflight && s.live ensures 0 <= Unix(s.now) - s.inflight[id].timestamp <= 39 {
      AgeBound(s, id);
    }
    forall j | 0 <= j < |s.log| && s.log[j].Resent? ensures 20 <= s.log[j].age <= 39 {
      assert EventOk(s.log[j]);
    }
  }

  /** Time never gets stuck: either it can pass, or a timer callback can run. */
  lemma NeverStuck(s: State, order: seq<nat>)
    requires Inv(s) && IsOrder(order, s.inflight.Keys)
    ensures Enabled(s, Tick(1)) || Enabled(s, Fire(s.now, order))
  {}

  /** A step that neither acknowledges nor re-publishes the id nor closes the client. */
  predicate Quiet(step: Step, id: nat) {
    match step
    case Delivery(p) => !(p.messageId == id && (p.qos == 1 || p.qos == 2))
    case Puback(x) => x != id
    case Pubrec(x) => x != id
    case Pubcomp(x) => x != id
    case Close => false
    case _ => true
  }

  /** The timer wrote the element again, at an age from 20 to 39 s, since `from`. */
  ghost predicate ResentAfter(log: seq<Event>, from: nat, id: nat, e: Elem) {
    exists j :: from <= j < |log| && IsResend(log[j], id, e) && 20 <= log[j].age <= 39
  }

  predicate IsResend(ev: Event, id: nat, e: Elem) {
    ev.Resent? && ev.id == id && ev.packet == e.packet && ev.status == e.status
  }

  /** A write that belongs to the exchange of a packet. */
  predicate About(ev: Event, p: PublishPacket) {
    match ev
    case Sent(q) => q == p
    case SentPubrel(id) => id == p.messageId
    case Resent(id, _, _, _) => id == p.messageId
  }

  /** A client and one of its elements live on: the same status and packet, and if the
      timestamp moved, the timer has written the element again. */
  ghost predicate Persists(s: State, r: State, id: nat)
    requires id in s.inflight
  {
    var e := s.inflight[id];
    && r.live && id in r.inflight && r.inflight[id].status == e.status && r.inflight[id].packet == e.packet
    && s.log <= r.log
    && (r.inflight[id].timestamp == e.timestamp || ResentAfter(r.log, |s.log|, id, e))
  }

  /** And everything written about it meanwhile is such a resend. */
  ghost predicate Kept(s: State, r: State, id: nat)
    requires id in s.inflight
  {
    && Persists(s, r, id)
    && (forall j :: |s.log| <= j < |r.log| && About(r.log[j], s.inflight[id].packet) ==> IsResend(r.log[j], id, s.inflight[id]))
  }

  lemma QuietStep(s: State, step: Step, id: nat)
    requires Inv(s) && s.live && id in s.inflight && Enabled(s, step) && Quiet(step, id)
    ensures Kept(s, Do(s, step), id)
  {
    assert ElemOk(s, id);
    if step.Fire? { QuietFire(s, step.due, step.order, id); }
  }

  lemma FireWritesAbout(s: State, due: nat, order: seq<nat>, id: nat, ev: Event)
    requires Inv(s) && s.live && id in s.inflight && Enabled(s, Fire(due, order))
    requires ev in Resends(Fired(s, due), order) && About(ev, s.inflight[id].packet)
    ensures IsResend(ev, id, s.inflight[id])
  {
    FiredAges(s, due, order);
    assert ElemOk(s, id);
  }

  lemma QuietFire(s: State, due: nat, order: seq<nat>, id: nat)
    requires Inv(s) && s.live && id in s.inflight && Enabled(s, Fire(due, order))
    ensures Kept(s, Do(s, Fire(due, order)), id)
  {
    FireEffect(s, due, order);
    var e, more := s.inflight[id], Resends(Fired(s, due), order);
    forall j | 0 <= j < |more| && About(more[j], e.packet) ensures IsResend(more[j], id, e) {
      FireWritesAbout(s, due, order, id, more[j]);
    }
    if Aged(s, id) {
      AgedIsWritten(s, due, order, id);
    }
    KeptByLog(s, Do(s, Fire(due, order)), id, more);
  }

  lemma KeptByLog(s: State, r: State, id: nat, more: seq<Event>)
    requires id in s.inflight && r.live && id in r.inflight && r.log == s.log + more
    requires r.inflight[id] == Refreshed(s.inflight[id], s.now)
    requires forall j :: 0 <= j < |more| && About(more[j], s.inflight[id].packet) ==> IsResend(more[j], id, s.inflight[id])
    requires Aged(s, id) ==> exists j :: 0 <= j < |more| && IsResend(more[j], id, s.inflight[id]) && 20 <= more[j].age <= 39
    ensures Kept(s, r, id)
  {
    var e := s.inflight[id];
    assert forall j :: |s.log| <= j < |r.log| ==> r.log[j] == more[j - |s.log|];
    if Aged(s, id) {
      var j :| 0 <= j < |more| && IsResend(more[j], id, e) && 20 <= more[j].age <= 39;
      assert r.log[|s.log| + j] == more[j];
    }
  }

  lemma AgedIsWritten(s: State, due: nat, order: seq<nat>, id: nat)
    requires Inv(s) && s.live && id in s.inflight && Enabled(s, Fire(due, order)) && Aged(s, id)
    ensures var more := Resends(Fired(s, due), order);
      exists j :: 0 <= j < |more| && IsResend(more[j], id, s.inflight[id]) && 20 <= more[j].age <= 39
  {
    var more := Resends(Fired(s, due), order);
    FiredAges(s, due, order);
    assert id in order;
    ResendsOnce(Fired(s, due), order, id);
    CountedIsThere(more, id);
    var j :| 0 <= j < |more| && more[j].Resent? && more[j].id == id;
    assert more[j] in more && EventOk(more[j]);
  }

  lemma FiredAges(s: State, due: nat, order: seq<nat>)
    requires Inv(s) && s.live && Enabled(s, Fire(due, order))
    ensures var more := Resends(Fired(s, due), order);
      && (forall i :: 0 <= i < |more| ==> EventOk(more[i]))
      && (forall e :: e in more ==> e.Resent? && e.id in s.inflight && e.status == s.inflight[e.id].status && e.packet == s.inflight[e.id].packet)
  {
    var t := Fired(s, due);
    forall x | x in order ensures ElemOk(t, x) && Unix(t.now) - t.inflight[x].timestamp <= 39 {
      assert ElemOk(s, x);
      AgeBound(s, x);
    }
    ResendsAges(t, order);
  }

  lemma PersistsTwice(s: State, m: State, r: State, id: nat)
    requires id in s.inflight && Persists(s, m, id) && Persists(m, r, id)
    ensures Persists(s, r, id)
  {
    var e := s.inflight[id];
    if ResentAfter(m.log, |s.log|, id, e) {
      var j :| |s.log| <= j < |m.log| && IsResend(m.log[j], id, e) && 20 <= m.log[j].age <= 39;
      assert r.log[j] == m.log[j];
    } else if ResentAfter(r.log, |m.log|, id, m.inflight[id]) {
      var j :| |m.log| <= j < |r.log| && IsResend(r.log[j], id, m.inflight[id]) && 20 <= r.log[j].age <= 39;
      assert |s.log| <= j && IsResend(r.log[j], id, e);
    }
  }

  lemma KeptTwice(s: State, m: State, r: State, id: nat)
    requires id in s.inflight && Kept(s, m, id) && Kept(m, r, id)
    ensures Kept(s, r, id)
  {
    PersistsTwice(s, m, r, id);
    var e := s.inflight[id];
    forall j | |s.log| <= j < |r.log| && About(r.log[j], e.packet) ensures IsResend(r.log[j], id, e) {
      if j < |m.log| { assert r.log[j] == m.log[j]; }
    }
  }

  lemma {:induction false} CountedIsThere(log: seq<Event>, id: nat)
    requires CountResent(log, id) > 0
    ensures exists j :: 0 <= j < |log| && log[j].Resent? && log[j].id == id
  {
    if !(log[|log| - 1].Resent? && log[|log| - 1].id == id) {
      CountedIsThere(log[..|log| - 1], id);
    }
  }

  lemma {:induction false} QuietRun(states: seq<State>, steps: seq<Step>, id: nat, m: nat, n: nat)
    requires IsRun(states, steps) && m <= n <= |steps| && Inv(states[m]) && states[m].live && id in states[m].inflight
    requires forall k :: m <= k < n ==> Quiet(steps[k], id)
    ensures Inv(states[n]) && Kept(states[m], states[n], id)
    decreases n
  {
    if m < n {
      QuietRun(states, steps, id, m, n - 1);
      StepOf(states, steps, n - 1);
      QuietStepFrom(states[m], states[n - 1], steps[n - 1], id);
    }
  }

  lemma QuietStepFrom(a: State, s: State, step: Step, id: nat)
    requires Inv(s) && id in a.inflight && Kept(a, s, id) && Enabled(s, step) && Quiet(step, id)
    ensures Inv(Do(s, step)) && Kept(a, Do(s, step), id)
  {
    QuietStep(s, step, id);
    StepKeepsInv(s, step);
    KeptTwice(a, s, Do(s, step), id);
  }

  /** Whatever else happens, an element that stays unacknowledged on a live client has been
      written again as it is by the time it would be 40 s old, at an age from 20 to 39 s. */
  lemma UnacknowledgedIsResent(states: seq<State>, steps: seq<Step>, id: nat)
    requires IsRun(states, steps) && Inv(states[0]) && states[0].live && id in states[0].inflight
    requires forall k :: 0 <= k < |steps| ==> Quiet(steps[k], id)
    requires Unix(states[|steps|].now) >= states[0].inflight[id].timestamp + 40
    ensures ResentAfter(states[|steps|].log, |states[0].log|, id, states[0].inflight[id])
  {
    QuietRun(states, steps, id, 0, |steps|);
    AgeBound(states[|steps|], id);
  }

  /** Nothing is outstanding as a PUBLISH under the id. */
  predicate Acknowledged(s: State, id: nat) { id in s.inflight ==> s.inflight[id].status == Pubrel }

  predicate Republishes(step: Step, id: nat) {
    step.Delivery? && step.packet.messageId == id && (step.packet.qos == 1 || step.packet.qos == 2)
  }

  /** Between two publications under an id, its element keeps its packet and its status moves
      from Publish to Pubrel at most, and only by a PUBREC. */
  lemma StatusMovesForward(s: State, step: Step, id: nat)
    requires Enabled(s, step) && !Republishes(step, id) && id in Do(s, step).inflight
    ensures id in s.inflight
    ensures var e, f := s.inflight[id], Do(s, step).inflight[id];
      e.packet == f.packet && (e.status == f.status || (step == Pubrec(id) && e.status == Publish && f.status == Pubrel))
  {
    if step.Fire? && s.live { FireEffect(s, step.due, step.order); }
  }

  lemma HandlersAcknowledge(s: State, id: nat)
    ensures Acknowledged(Forget(s, id), id) && Acknowledged(HandlePubrec(s, id), id)
  {}

  lemma AcknowledgedStep(s: State, step: Step, id: nat)
    requires Inv(s) && Acknowledged(s, id) && Enabled(s, step) && !Republishes(step, id)
    ensures var r := Do(s, step);
      && Acknowledged(r, id) && s.log <= r.log
      && forall j :: |s.log| <= j < |r.log| && r.log[j].Resent? && r.log[j].id == id ==> r.log[j].status == Pubrel
  {
    if step.Fire? && s.live { AcknowledgedFire(s, step.due, step.order, id); }
  }

  lemma AcknowledgedFire(s: State, due: nat, order: seq<nat>, id: nat)
    requires Inv(s) && s.live && Acknowledged(s, id) && Enabled(s, Fire(due, order))
    ensures var r := Do(s, Fire(due, order));
      && Acknowledged(r, id) && s.log <= r.log
      && forall j :: |s.log| <= j < |r.log| && r.log[j].Resent? && r.log[j].id == id ==> r.log[j].status == Pubrel
  {
    FireEffect(s, due, order);
    FiredAges(s, due, order);
    var r, more := Do(s, Fire(due, order)), Resends(Fired(s, due), order);
    assert forall j :: |s.log| <= j < |r.log| ==> r.log[j] in more;
  }

  lemma {:induction false} AcknowledgedStays(states: seq<State>, steps: seq<Step>, id: nat, m: nat, n: nat)
    requires IsRun(states, steps) && m <= n <= |steps| && Inv(states[m]) && Acknowledged(states[m], id)
    requires forall k :: m <= k < n ==> !Republishes(steps[k], id)
    ensures var a, b := states[m], states[n];
      && Inv(b) && Acknowledged(b, id) && a.log <= b.log
      && forall j :: |a.log| <= j < |b.log| && b.log[j].Resent? && b.log[j].id == id ==> b.log[j].status == Pubrel
    decreases n
  {
    if m < n {
      AcknowledgedStays(states, steps, id, m, n - 1);
      StepOf(states, steps, n - 1);
      AcknowledgedStep(states[n - 1], steps[n - 1], id);
      StepKeepsInv(states[n - 1], steps[n - 1]);
      var a, c, b := states[m], states[n - 1], states[n];
      forall j | |a.log| <= j < |b.log| && b.log[j].Resent? && b.log[j].id == id ensures b.log[j].status == Pubrel {
        if j < |c.log| { assert b.log[j] == c.log[j]; }
      }
    }
  }

  predicate Acknowledges(step: Step, id: nat) { step == Puback(id) || step == Pubrec(id) || step == Pubcomp(id) }

  /** From the handling of a PUBACK, PUBREC or PUBCOMP on, and until a new publication reuses
      the id, the timer never writes that PUBLISH again. */
  lemma AcknowledgedIsNeverResent(states: seq<State>, steps: seq<Step>, id: nat)
    requires IsRun(states, steps) && Inv(states[0]) && steps != [] && Acknowledges(steps[0], id)
    requires forall k :: 1 <= k < |steps| ==> !Republishes(steps[k], id)
    ensures var a, b := states[0], states[|steps|];
      && Acknowledged(b, id) && a.log <= b.log
      && forall j :: |a.log| <= j < |b.log| && b.log[j].Resent? && b.log[j].id == id ==> b.log[j].status == Pubrel
  {
    HandlersAcknowledge(states[0], id);
    StepOf(states, steps, 0);
    StepKeepsInv(states[0], steps[0]);
    AcknowledgedStays(states, steps, id, 1, |steps|);
    var a, m, b := states[0], states[1], states[|steps|];
    assert forall j :: |a.log| <= j < |m.log| ==> m.log[j] == SentPubrel(id);
    assert forall j :: 0 <= j < |m.log| ==> b.log[j] == m.log[j];
  }

  // ---------------------------------------------------------------- a whole exchange

  /** The first and the last step of an exchange, and the PUBREC in between; nothing else in
      between concerns the id or closes the client. */
  ghost predicate IsExchange(steps: seq<Step>, p: PublishPacket, r: nat) {
    && 0 < r < |steps| - 1 && p.qos == 2
    && steps[0] == Delivery(p) && steps[r] == Pubrec(p.messageId) && steps[|steps| - 1] == Pubcomp(p.messageId)
    && forall k :: 0 < k < |steps| - 1 && k != r ==> Quiet(steps[k], p.messageId)
  }

  /** Outbound QoS 2, with any other deliveries, acknowledgements, timer callbacks and time in
      between: everything written about the packet is first the PUBLISH, then only resends of
      it, then from the PUBREC on the PUBREL, then only resends of that; afterwards nothing is
      inflight under the id. */
  lemma ExchangeIsInOrder(states: seq<State>, steps: seq<Step>, p: PublishPacket, r: nat)
    requires IsRun(states, steps) && IsExchange(steps, p, r) && Inv(states[0]) && states[0].live
    ensures var id, log, a, m := p.messageId, states[|steps|].log, |states[0].log|, |states[r].log|;
      && states[0].log <= log && a < m < |log|
      && log[a] == Sent(p) && log[m] == SentPubrel(id)
      && (forall j :: a < j < m && About(log[j], p) ==> log[j].Resent? && log[j].status == Publish && log[j].packet == p)
      && (forall j :: m < j < |log| && About(log[j], p) ==> log[j].Resent? && log[j].status == Pubrel)
      && id !in states[|steps|].inflight
  {
    var id, last := p.messageId, |steps| - 1;
    FirstHalf(states, steps, p, r);
    SecondHalf(states, steps, id, r);
    ExchangeLog(states[0].log, states[1].log, states[r].log, states[r + 1].log, states[last].log, p, states[1].inflight[id], states[r + 1].inflight[id]);
  }

  lemma FirstHalf(states: seq<State>, steps: seq<Step>, p: PublishPacket, r: nat)
    requires IsRun(states, steps) && IsExchange(steps, p, r) && Inv(states[0]) && states[0].live
    ensures var a, b := states[1], states[r];
      && a.log == states[0].log + [Sent(p)] && p.messageId in a.inflight
      && a.inflight[p.messageId].status == Publish && a.inflight[p.messageId].packet == p
      && Inv(b) && Kept(a, b, p.messageId)
  {
    ExchangeStarts(states[0], p);
    StepOf(states, steps, 0);
    QuietRun(states, steps, p.messageId, 1, r);
  }

  lemma SecondHalf(states: seq<State>, steps: seq<Step>, id: nat, r: nat)
    requires IsRun(states, steps) && r + 1 < |steps| && steps[r] == Pubrec(id) && steps[|steps| - 1] == Pubcomp(id)
    requires forall k :: r < k < |steps| - 1 ==> Quiet(steps[k], id)
    requires Inv(states[r]) && states[r].live && id in states[r].inflight && states[r].inflight[id].status == Publish
    ensures var a, b := states[r + 1], states[|steps| - 1];
      && a.log == states[r].log + [SentPubrel(id)] && id in a.inflight && a.inflight[id].status == Pubrel
      && a.inflight[id].packet == states[r].inflight[id].packet && Kept(a, b, id)
    ensures states[|steps|].log == states[|steps| - 1].log && id !in states[|steps|].inflight
  {
    ExchangeTurns(states[r], id);
    StepOf(states, steps, r);
    StepOf(states, steps, |steps| - 1);
    QuietRun(states, steps, id, r + 1, |steps| - 1);
  }

  lemma ExchangeStarts(s: State, p: PublishPacket)
    requires Inv(s) && s.live && p.qos == 2
    ensures var r := Do(s, Delivery(p));
      && Inv(r) && r.live && p.messageId in r.inflight && r.inflight[p.messageId].status == Publish && r.inflight[p.messageId].packet == p
      && r.log == s.log + [Sent(p)]
  {
    StepKeepsInv(s, Delivery(p));
  }

  lemma ExchangeTurns(s: State, id: nat)
    requires Inv(s) && s.live && id in s.inflight && s.inflight[id].status == Publish
    ensures var r := Do(s, Pubrec(id));
      && Inv(r) && r.live && id in r.inflight && r.inflight[id].status == Pubrel && r.inflight[id].packet == s.inflight[id].packet
      && r.log == s.log + [SentPubrel(id)]
  {
    StepKeepsInv(s, Pubrec(id));
  }

  lemma ExchangeLog(a: seq<Event>, b: seq<Event>, c: seq<Event>, d: seq<Event>, log: seq<Event>, p: PublishPacket, e: Elem, f: Elem)
    requires b == a + [Sent(p)] && b <= c && d == c + [SentPubrel(p.messageId)] && d <= log
    requires e.status == Publish && e.packet == p && f.status == Pubrel
    requires forall j :: |b| <= j < |c| && About(c[j], p) ==> IsResend(c[j], p.messageId, e)
    requires forall j :: |d| <= j < |log| && About(log[j], p) ==> IsResend(log[j], p.messageId, f)
    ensures a <= log && |a| < |c| < |log| && log[|a|] == Sent(p) && log[|c|] == SentPubrel(p.messageId)
    ensures forall j :: |a| < j < |c| && About(log[j], p) ==> log[j].Resent? && log[j].status == Publish && log[j].packet == p
    ensures forall j :: |c| < j < |log| && About(log[j], p) ==> log[j].Resent? && log[j].status == Pubrel
  {
    assert forall j :: 0 <= j < |c| ==> log[j] == d[j] == c[j];
    assert log[|c|] == d[|c|];
    assert log[|a|] == c[|a|] == b[|a|];
  }

  // ---------------------------------------------------------------- ages, over whole runs

  predicate ResendOf(ev: Event, id: nat) { ev.Resent? && ev.id == id }

  /** The steps from which the age of an element counts: its publication, the PUBREC that
      moves it to Pubrel, and every callback that writes it again. */
  ghost predicate Restarts(s: State, step: Step, r: State, id: nat) {
    match step
    case Delivery(p) => p.messageId == id && (p.qos == 1 || p.qos == 2)
    case Pubrec(x) => x == id && id in s.inflight && s.inflight[id].status == Publish
    case Fire(_, _) => exists j :: |s.log| <= j < |r.log| && ResendOf(r.log[j], id)
    case _ => false
  }

  /** The last such step before `i`, or -1. */
  ghost function LastRestart(states: seq<State>, steps: seq<Step>, id: nat, i: nat): (k: int)
    requires |states| == |steps| + 1 && i <= |steps|
    ensures -1 <= k < i
    ensures k >= 0 ==> Restarts(states[k], steps[k], states[k + 1], id)
    ensures forall m :: k < m < i ==> !Restarts(states[m], steps[m], states[m + 1], id)
  {
    if i == 0 then -1
    else if Restarts(states[i - 1], steps[i - 1], states[i], id) then i - 1
    else LastRestart(states, steps, id, i - 1)
  }

  /** A restart sets the timestamp to the Unix time of its step, anything else leaves it. */
  lemma RestartStep(s: State, step: Step, id: nat)
    requires Inv(s) && Enabled(s, step) && id in Do(s, step).inflight
    ensures var r := Do(s, step);
      if Restarts(s, step, r, id) then r.inflight[id].timestamp == Unix(s.now)
      else id in s.inflight && r.inflight[id].timestamp == s.inflight[id].timestamp
  {
    if step.Fire? && s.live { FireRestarts(s, step.due, step.order, id); }
  }

  lemma FireRestarts(s: State, due: nat, order: seq<nat>, id: nat)
    requires Inv(s) && s.live && Enabled(s, Fire(due, order)) && id in s.inflight
    ensures var r := Do(s, Fire(due, order));
      && (Restarts(s, Fire(due, order), r, id) <==> Aged(s, id))
      && id in r.inflight && r.inflight[id] == Refreshed(s.inflight[id], s.now)
  {
    FireEffect(s, due, order);
    WrittenIffAged(s, due, order, id);
    ExtendedLog(s.log, Resends(Fired(s, due), order), id);
  }

  lemma WrittenIffAged(s: State, due: nat, order: seq<nat>, id: nat)
    requires Inv(s) && s.live && Enabled(s, Fire(due, order)) && id in s.inflight
    ensures var more := Resends(Fired(s, due), order);
      (exists j :: 0 <= j < |more| && ResendOf(more[j], id)) <==> Aged(s, id)
  {
    var more := Resends(Fired(s, due), order);
    ResendsOnce(Fired(s, due), order, id);
    assert id in order;
    if Aged(s, id) { CountedIsThere(more, id); }
    if j :| 0 <= j < |more| && ResendOf(more[j], id) { ThereIsCounted(more, id, j); }
  }

  lemma ExtendedLog(log: seq<Event>, more: seq<Event>, id: nat)
    ensures (exists j :: |log| <= j < |log + more| && ResendOf((log + more)[j], id)) <==> exists j :: 0 <= j < |more| && ResendOf(more[j], id)
  {
    var r := log + more;
    if j :| 0 <= j < |more| && ResendOf(more[j], id) { assert r[|log| + j] == more[j]; }
  }

  lemma {:induction false} ThereIsCounted(log: seq<Event>, id: nat, j: nat)
    requires j < |log| && ResendOf(log[j], id)
    ensures CountResent(log, id) > 0
  {
    if j < |log| - 1 { ThereIsCounted(log[..|log| - 1], id, j); }
  }

  lemma {:induction false} TimestampIsRestart(states: seq<State>, steps: seq<Step>, now: nat, id: nat, i: nat)
    requires IsRun(states, steps) && states[0] == Init(now) && i <= |steps|
    ensures Inv(states[i])
    ensures id in states[i].inflight ==>
      var k := LastRestart(states, steps, id, i);
      k >= 0 && states[i].inflight[id].timestamp == Unix(states[k].now)
  {
    if i > 0 {
      TimestampIsRestart(states, steps, now, id, i - 1);
      StepOf(states, steps, i - 1);
      StepKeepsInv(states[i - 1], steps[i - 1]);
      if id in states[i].inflight { RestartStep(states[i - 1], steps[i - 1], id); }
    }
  }

  /** The events of a callback, one by one. */
  lemma {:induction false} ResendsAre(s: State, order: seq<nat>, ev: Event)
    requires (forall id :: id in order ==> id in s.inflight) && ev in Resends(s, order)
    ensures ev.Resent? && ev.id in s.inflight
    ensures var e := s.inflight[ev.id];
      ev == Resent(ev.id, e.status, e.packet, Unix(s.now) - e.timestamp) && Unix(s.now) - e.timestamp >= 20
  {
    var init := order[..|order| - 1];
    if ev in Resends(s, init) { ResendsAre(s, init, ev); } else { assert order[|order| - 1] in order; }
  }

  lemma StepResends(s: State, step: Step, ev: Event, j: nat)
    requires Inv(s) && Enabled(s, step) && |s.log| <= j < |Do(s, step).log| && Do(s, step).log[j] == ev && ev.Resent?
    ensures step.Fire? && s.live && ev.id in s.inflight
    ensures var e := s.inflight[ev.id];
      ev == Resent(ev.id, e.status, e.packet, Unix(s.now) - e.timestamp) && 20 <= Unix(s.now) - e.timestamp <= 39
  {
    if step.Fire? && s.live {
      FireResends(s, step.due, step.order, j);
      AgeBound(s, ev.id);
    }
  }

  lemma FireResends(s: State, due: nat, order: seq<nat>, j: nat)
    requires s.live && Enabled(s, Fire(due, order)) && |s.log| <= j < |Do(s, Fire(due, order)).log|
    ensures var ev := Do(s, Fire(due, order)).log[j];
      && ev.Resent? && ev.id in s.inflight
      && ev == Resent(ev.id, s.inflight[ev.id].status, s.inflight[ev.id].packet, Unix(s.now) - s.inflight[ev.id].timestamp)
      && ev.age >= 20
  {
    FireEffect(s, due, order);
    ResendsAre(Fired(s, due), order, Resends(Fired(s, due), order)[j - |s.log|]);
  }

  /** Whatever the timer writes in a run, it writes for an element of that moment, and its age
      is the Unix time since the last publication, PUBREC or resend that concerned the id: 20
      seconds at least, 39 at most. */
  lemma ResendAgeIsExact(states: seq<State>, steps: seq<Step>, now: nat, i: nat, j: nat)
    requires IsRun(states, steps) && states[0] == Init(now) && i < |steps|
    requires |states[i].log| <= j < |states[i + 1].log| && states[i + 1].log[j].Resent?
    ensures var ev := states[i + 1].log[j]; var k := LastRestart(states, steps, ev.id, i);
      && ev.id in states[i].inflight && ev.status == states[i].inflight[ev.id].status && ev.packet == states[i].inflight[ev.id].packet
      && k >= 0 && ev.age == Unix(states[i].now) - Unix(states[k].now) && 20 <= ev.age <= 39
  {
    var ev := states[i + 1].log[j];
    TimestampIsRestart(states, steps, now, ev.id, i);
    StepOf(states, steps, i);
    StepResends(states[i], steps[i], ev, j);
  }

  lemma {:induction false} NowMovesForward(states: seq<State>, steps: seq<Step>, m: nat, n: nat)
    requires IsRun(states, steps) && m <= n <= |steps|
    ensures states[m].now <= states[n].now
    decreases n
  {
    if m < n {
      NowMovesForward(states, steps, m, n - 1);
      StepOf(states, steps, n - 1);
      NowStep(states[n - 1], steps[n - 1]);
    }
  }

  lemma NowStep(s: State, step: Step)
    ensures Enabled(s, step) ==> s.now <= Do(s, step).now
  {
    if step.Fire? && Enabled(s, step) { RetryAllKeeps(Fired(s, step.due), step.order); }
  }

  /** A PUBREC restarts the clock: the PUBREL that it sends is not written again by the timer
      before 20 Unix seconds have passed since. */
  lemma PubrelWaits(states: seq<State>, steps: seq<Step>, now: nat, id: nat, r: nat, i: nat, j: nat)
    requires IsRun(states, steps) && states[0] == Init(now) && r < i < |steps|
    requires steps[r] == Pubrec(id) && id in states[r].inflight && states[r].inflight[id].status == Publish
    requires forall k :: r < k < i ==> !Republishes(steps[k], id)
    requires |states[i].log| <= j < |states[i + 1].log| && ResendOf(states[i + 1].log[j], id)
    ensures states[i + 1].log[j].status == Pubrel && Unix(states[i].now) >= Unix(states[r].now) + 20
  {
    ResendAgeIsExact(states, steps, now, i, j);
    var k := LastRestart(states, steps, id, i);
    assert Restarts(states[r], steps[r], states[r + 1], id);
    NowMovesForward(states, steps, r, k);
    TimestampIsRestart(states, steps, now, id, r + 1);
    HandlersAcknowledge(states[r], id);
    StepOf(states, steps, r);
    AcknowledgedStays(states, steps, id, r + 1, i);
  }

  /** Every PUBREC is answered on a live client. One for an element that is Pubrel already, or
      for an unknown id, changes nothing inflight: it does not restart the clock. */
  lemma DuplicatePubrecChangesNothing(s: State, id: nat)
    requires s.live && (id in s.inflight ==> s.inflight[id].status == Pubrel)
    ensures Do(s, Pubrec(id)) == s.(log := s.log + [SentPubrel(id)])
  {}

  /** A write under the id, as the receiver sees it. */
  predicate Concerns(ev: Event, id: nat) {
    match ev
    case Sent(p) => p.messageId == id && p.qos > 0
    case SentPubrel(x) => x == id
    case Resent(x, _, _, _) => x == id
  }

  lemma WriteIsRestart(s: State, step: Step, id: nat, j: nat)
    requires Inv(s) && Enabled(s, step) && |s.log| <= j < |Do(s, step).log| && Concerns(Do(s, step).log[j], id)
    ensures Restarts(s, step, Do(s, step), id) || step == Pubrec(id)
  {
    if step.Fire? && s.live {
      FireResends(s, step.due, step.order, j);
      assert ResendOf(Do(s, step).log[j], id);
    }
  }

  /** The timer writes nothing within 20 Unix seconds of a write under the same id, unless that
      write answered a duplicate PUBREC. */
  lemma ResendKeepsDistance(states: seq<State>, steps: seq<Step>, now: nat, id: nat, w: nat, l: nat, i: nat, j: nat)
    requires IsRun(states, steps) && states[0] == Init(now) && w < i < |steps|
    requires |states[w].log| <= l < |states[w + 1].log| && Concerns(states[w + 1].log[l], id)
    requires |states[i].log| <= j < |states[i + 1].log| && ResendOf(states[i + 1].log[j], id)
    ensures Unix(states[i].now) >= Unix(states[w].now) + 20
         || (steps[w] == Pubrec(id) && (id in states[w].inflight ==> states[w].inflight[id].status == Pubrel))
  {
    TimestampIsRestart(states, steps, now, id, w);
    StepOf(states, steps, w);
    WriteIsRestart(states[w], steps[w], id, l);
    if Restarts(states[w], steps[w], states[w + 1], id) {
      ResendAgeIsExact(states, steps, now, i, j);
      NowMovesForward(states, steps, w, LastRestart(states, steps, id, i));
    }
  }

  ghost predicate Wrote(a: State, b: State, id: nat) { exists l :: |a.log| <= l < |b.log| && Concerns(b.log[l], id) }

  /** A write under the id within 20 Unix seconds before a time. */
  ghost predicate WrittenLately(states: seq<State>, id: nat, w: nat, at: nat)
    requires w + 1 < |states|
  {
    Unix(at) < Unix(states[w].now) + 20 && Wrote(states[w], states[w + 1], id)
  }

  /** So when the timer writes for an id, something else was written under it within the last 20
      Unix seconds exactly if a PUBREC for it was handled within them. */
  lemma LateWriteIffPubrec(states: seq<State>, steps: seq<Step>, now: nat, id: nat, i: nat, j: nat)
    requires IsRun(states, steps) && states[0] == Init(now) && i < |steps|
    requires |states[i].log| <= j < |states[i + 1].log| && ResendOf(states[i + 1].log[j], id)
    ensures (exists w :: 0 <= w < i && WrittenLately(states, id, w, states[i].now)) <==>
            (exists w :: 0 <= w < i && steps[w] == Pubrec(id) && Unix(states[i].now) < Unix(states[w].now) + 20)
  {
    if w :| 0 <= w < i && WrittenLately(states, id, w, states[i].now) {
      var a, b := states[w], states[w + 1];
      var l :| |a.log| <= l < |b.log| && Concerns(b.log[l], id);
      ResendKeepsDistance(states, steps, now, id, w, l, i, j);
    }
    if w :| 0 <= w < i && steps[w] == Pubrec(id) && Unix(states[i].now) < Unix(states[w].now) + 20 {
      PubrecIsWritten(states, steps, now, id, w, i, j);
      assert WrittenLately(states, id, w, states[i].now);
    }
  }

  lemma PubrecIsWritten(states: seq<State>, steps: seq<Step>, now: nat, id: nat, w: nat, i: nat, j: nat)
    requires IsRun(states, steps) && states[0] == Init(now) && w < i < |steps| && steps[w] == Pubrec(id)
    requires |states[i].log| <= j < |states[i + 1].log| && ResendOf(states[i + 1].log[j], id)
    ensures Wrote(states[w], states[w + 1], id)
  {
    if !states[w].live {
      ClosedIsWrittenNothing(states, steps, w, i);
      ClosedIsWrittenNothing(states, steps, w, i + 1);
      assert false;
    }
    StepOf(states, steps, w);
    assert Concerns(states[w + 1].log[|states[w].log|], id);
  }

  /** An instance: a PUBREC at 0 s and again at 19 s, then the timer at 20 s. The PUBREL is
      written again one second after it was last written. */
  lemma PubrelSoonAfterDuplicate(p: PublishPacket)
    requires p.qos == 2
    ensures var id := p.messageId;
      var states, steps := DuplicateRun(p), [Delivery(p), Pubrec(id), Tick(19 * NS), Pubrec(id), Tick(NS), Fire(20 * NS, [id])];
      IsRun(states, steps) && states[6].log == [Sent(p), SentPubrel(id), SentPubrel(id), Resent(id, Pubrel, p, 20)]
  {
    DuplicateStarts(p);
    DuplicateRepeats(p);
    DuplicateFires(p);
    var id, states := p.messageId, DuplicateRun(p);
    var steps := [Delivery(p), Pubrec(id), Tick(19 * NS), Pubrec(id), Tick(NS), Fire(20 * NS, [id])];
    SixSteps(states, steps);
  }

  ghost predicate Goes(s: State, step: Step, r: State) { Enabled(s, step) && r == Do(s, step) }

  lemma SixSteps(states: seq<State>, steps: seq<Step>)
    requires |states| == 7 && |steps| == 6
    requires Goes(states[0], steps[0], states[1]) && Goes(states[1], steps[1], states[2]) && Goes(states[2], steps[2], states[3])
    requires Goes(states[3], steps[3], states[4]) && Goes(states[4], steps[4], states[5]) && Goes(states[5], steps[5], states[6])
    ensures IsRun(states, steps)
  {
    forall i | 0 <= i < 6 ensures Goes(states[i], steps[i], states[i + 1]) {
      assert i == 0 || i == 1 || i == 2 || i == 3 || i == 4 || i == 5;
    }
  }

  lemma DuplicateStarts(p: PublishPacket)
    requires p.qos == 2
    ensures var sent, rel := Sent(p), SentPubrel(p.messageId);
      && Do(Init(0), Delivery(p)) == One(p, 0, Publish, [sent])
      && Do(One(p, 0, Publish, [sent]), Pubrec(p.messageId)) == One(p, 0, Pubrel, [sent, rel])
  {}

  lemma DuplicateRepeats(p: PublishPacket)
    ensures var sent, rel := Sent(p), SentPubrel(p.messageId);
      && Enabled(One(p, 0, Pubrel, [sent, rel]), Tick(19 * NS)) && Enabled(One(p, 19 * NS, Pubrel, [sent, rel, rel]), Tick(NS))
      && Do(One(p, 19 * NS, Pubrel, [sent, rel]), Pubrec(p.messageId)) == One(p, 19 * NS, Pubrel, [sent, rel, rel])
  {}

  /** One element under the id, with the timer of its delivery pending. */
  function One(p: PublishPacket, now: nat, status: Status, log: seq<Event>): State {
    State(now, true, map[p.messageId := Elem(status, p, 0)], true, multiset{20 * NS}, log)
  }

  function Resending(p: PublishPacket, log: seq<Event>): State {
    State(20 * NS, true, map[p.messageId := Elem(Pubrel, p, 20)], true, multiset{40 * NS}, log)
  }

  function DuplicateRun(p: PublishPacket): seq<State> {
    var sent, rel := Sent(p), SentPubrel(p.messageId);
    [ Init(0),
      One(p, 0, Publish, [sent]),
      One(p, 0, Pubrel, [sent, rel]),
      One(p, 19 * NS, Pubrel, [sent, rel]),
      One(p, 19 * NS, Pubrel, [sent, rel, rel]),
      One(p, 20 * NS, Pubrel, [sent, rel, rel]),
      Resending(p, [sent, rel, rel, Resent(p.messageId, Pubrel, p, 20)]) ]
  }

  lemma DuplicateFires(p: PublishPacket)
    ensures var id, log := p.messageId, [Sent(p), SentPubrel(p.messageId), SentPubrel(p.messageId)];
      var s := One(p, 20 * NS, Pubrel, log);
      Enabled(s, Fire(20 * NS, [id])) && Do(s, Fire(20 * NS, [id])) == Resending(p, log + [Resent(id, Pubrel, p, 20)])
  {
    var id, log := p.messageId, [Sent(p), SentPubrel(p.messageId), SentPubrel(p.messageId)];
    var s := One(p, 20 * NS, Pubrel, log);
    assert s.inflight.Keys == {id} && IsOrder([id], {id});
    var t := Fired(s, 20 * NS);
    assert t.pending == multiset{};
    assert [id][..0] == [] && RetryAll(t, []) == t;
    assert RetryAll(t, [id]) == RetryOne(t, id);
    OneResent(t, p);
  }

  lemma OneResent(t: State, p: PublishPacket)
    requires t.live && t.now == 20 * NS && t.inflight == map[p.messageId := Elem(Pubrel, p, 0)]
    ensures RetryOne(t, p.messageId)
         == t.(log := t.log + [Resent(p.messageId, Pubrel, p, 20)], inflight := map[p.messageId := Elem(Pubrel, p, 20)])
  {}

  /** Once closed, a client is written nothing more. */
  lemma {:induction false} ClosedIsWrittenNothing(states: seq<State>, steps: seq<Step>, m: nat, n: nat)
    requires IsRun(states, steps) && m <= n <= |steps| && !states[m].live
    ensures !states[n].live && states[n].log == states[m].log
    decreases n
  {
    if m < n {
      ClosedIsWrittenNothing(states, steps, m, n - 1);
      StepOf(states, steps, n - 1);
    }
  }

  /** A delivery with QoS 1 or 2 leaves a timer running: the one that was, or a new one due in
      20 seconds. QoS 0 is only written, an unknown QoS has no effect. */
  lemma DeliveryArms(s: State, p: PublishPacket)
    requires TimerOk(s)
    ensures var r := Deliver(s, p);
      && (p.qos == 1 || p.qos == 2 ==>
            r.timerSet && r.pending == if s.pending == multiset{} then multiset{s.now + 20 * NS} else s.pending)
      && (p.qos == 0 ==> r == if s.live then s.(log := s.log + [Sent(p)]) else s)
      && (p.qos > 2 ==> r == s)
  {
    if s.timerSet { assert s.pending != multiset{}; } else { assert s.pending == multiset{}; }
  }

  lemma ForgottenStep(s: State, step: Step, id: nat)
    requires id !in s.inflight && Enabled(s, step) && !Republishes(step, id)
    ensures var r := Do(s, step);
      id !in r.inflight && s.log <= r.log && forall j :: |s.log| <= j < |r.log| ==> !ResendOf(r.log[j], id)
  {
    if step.Fire? && s.live { ForgottenFire(s, step.due, step.order, id); }
  }

  lemma ForgottenFire(s: State, due: nat, order: seq<nat>, id: nat)
    requires s.live && id !in s.inflight && Enabled(s, Fire(due, order))
    ensures var r := Do(s, Fire(due, order));
      id !in r.inflight && s.log <= r.log && forall j :: |s.log| <= j < |r.log| ==> !ResendOf(r.log[j], id)
  {
    FireEffect(s, due, order);
    var more := Resends(Fired(s, due), order);
    forall j | 0 <= j < |more| ensures !ResendOf(more[j], id) { ResendsAre(Fired(s, due), order, more[j]); }
  }

  lemma {:induction false} ForgottenStays(states: seq<State>, steps: seq<Step>, id: nat, m: nat, n: nat)
    requires IsRun(states, steps) && m <= n <= |steps| && id !in states[m].inflight
    requires forall k :: m <= k < n ==> !Republishes(steps[k], id)
    ensures id !in states[n].inflight && states[m].log <= states[n].log
    ensures forall j :: |states[m].log| <= j < |states[n].log| ==> !ResendOf(states[n].log[j], id)
    decreases n
  {
    if m < n {
      ForgottenStays(states, steps, id, m, n - 1);
      StepOf(states, steps, n - 1);
      ForgottenStep(states[n - 1], steps[n - 1], id);
      var c, b := states[n - 1], states[n];
      assert forall j :: 0 <= j < |c.log| ==> b.log[j] == c.log[j];
    }
  }

  /** A PUBACK or PUBCOMP ends the exchange of its id, whatever its status: until the id is
      published again nothing is inflight under it and the timer writes nothing for it. */
  lemma FinishedIsForgotten(states: seq<State>, steps: seq<Step>, id: nat)
    requires IsRun(states, steps) && steps != [] && (steps[0] == Puback(id) || steps[0] == Pubcomp(id))
    requires forall k :: 1 <= k < |steps| ==> !Republishes(steps[k], id)
    ensures var a, b := states[0], states[|steps|];
      id !in b.inflight && a.log <= b.log && forall j :: |a.log| <= j < |b.log| ==> !ResendOf(b.log[j], id)
  {
    StepOf(states, steps, 0);
    ForgottenStays(states, steps, id, 1, |steps|);
  }
}
