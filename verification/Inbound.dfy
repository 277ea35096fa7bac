/** Inbound QoS 2 of one client: the awaitingRel table with its expiry timers, over every
    interleaving of publications, releases, timer callbacks and time. */
module Inbound {
  import opened Prelude

  const AWAIT_REL_TIMEOUT := 20

  /** When, and with which timer, a packet id was entered into the table. */
  datatype Registration = Registration(at: nat, timer: nat)

  /** `awaiting` is the source's table of packet ids and Unix times, `timers` the runtime's
      pending timers by handle. The rest is history: what was delivered to subscribers, what
      was registered but not delivered because the PUBREC could not be written, what was
      released by PUBREL or expiry, and how each present entry was registered. */
  datatype State = State(
    now: nat, maxAwaiting: int, awaiting: map<nat, nat>, timers: map<nat, nat>, nextTimer: nat,
    delivered: multiset<nat>, lost: multiset<nat>, released: multiset<nat>, registered: map<nat, Registration>)

  function Init(now: nat, maxAwaiting: int): State {
    State(now, maxAwaiting, map[], map[], 0, multiset{}, multiset{}, multiset{}, map[])
  }

  // ---------------------------------------------------------------- the operations of the source

  predicate IsFull(s: State) { s.maxAwaiting != 0 && |s.awaiting| >= s.maxAwaiting }

  predicate Accepts(s: State, id: nat) { !IsFull(s) && id !in s.awaiting }

  function Register(s: State, id: nat): State {
    s.(awaiting := s.awaiting[id := Unix(s.now)],
       timers := s.timers[s.nextTimer := s.now + AWAIT_REL_TIMEOUT * NS],
       nextTimer := s.nextTimer + 1,
       registered := s.registered[id := Registration(s.now, s.nextTimer)])
  }

  /** A QoS 2 PUBLISH; `written` tells whether the PUBREC could be written. */
  function Arrive(s: State, id: nat, written: bool): State {
    if !Accepts(s, id) then s
    else
      var t := Register(s, id);
      if written then t.(delivered := t.delivered + multiset{id}) else t.(lost := t.lost + multiset{id})
  }

  /** A PUBREL. */
  function Release(s: State, id: nat): State {
    if id in s.awaiting then
      s.(awaiting := s.awaiting - {id}, released := s.released + multiset{id}, registered := s.registered - {id})
    else s
  }

  function Expired(s: State): set<nat> {
    set id | id in s.awaiting && Unix(s.now) - s.awaiting[id] >= AWAIT_REL_TIMEOUT
  }

  /** `expireAwaitingRel`: one timer's callback looks at the whole table. */
  function Expire(s: State): State {
    s.(awaiting := s.awaiting - Expired(s), released := s.released + multiset(Expired(s)),
       registered := s.registered - Expired(s))
  }

  // ---------------------------------------------------------------- runs

  datatype Step = Publication(id: nat, written: bool) | Pubrel(id: nat) | Fire(timer: nat) | Tick(ns: nat)

  /** Timers fire when they are due: time does not pass a pending one. */
  ghost predicate Enabled(s: State, step: Step) {
    match step
    case Fire(h) => h in s.timers && s.timers[h] <= s.now
    case Tick(ns) => forall h :: h in s.timers ==> s.now + ns <= s.timers[h]
    case _ => true
  }

  ghost function Do(s: State, step: Step): State
    requires Enabled(s, step)
  {
    match step
    case Publication(id, written) => Arrive(s, id, written)
    case Pubrel(id) => Release(s, id)
    case Fire(h) => Expire(s.(timers := s.timers - {h}))
    case Tick(ns) => s.(now := s.now + ns)
  }

  ghost predicate IsRun(states: seq<State>, steps: seq<Step>) {
    && |states| == |steps| + 1
    && forall i :: 0 <= i < |steps| ==> Enabled(states[i], steps[i]) && states[i + 1] == Do(states[i], steps[i])
  }

  // ---------------------------------------------------------------- the invariant

  /** The entry's own timer is pending and fires 20 s after the registration. */
  ghost predicate EntryOk(s: State, id: nat)
    requires id in s.awaiting && id in s.registered
  {
    var r := s.registered[id];
    && s.awaiting[id] == Unix(r.at) && r.at <= s.now
    && r.timer in s.timers && s.timers[r.timer] == r.at + AWAIT_REL_TIMEOUT * NS
  }

  ghost predicate TimersOk(s: State) {
    && (forall h :: h in s.timers ==> h < s.nextTimer && s.now <= s.timers[h])
    && (forall i, j :: i in s.registered && j in s.registered && i != j ==> s.registered[i].timer != s.registered[j].timer)
  }

  /** Every registration was delivered or lost, and has been released or is still waiting. */
  ghost predicate Balanced(s: State) {
    s.delivered + s.lost == s.released + multiset(s.awaiting.Keys)
  }

  ghost predicate Bounded(s: State) { s.maxAwaiting > 0 ==> |s.awaiting| <= s.maxAwaiting }

  ghost predicate Inv(s: State) {
    && s.registered.Keys == s.awaiting.Keys
    && (forall id :: id in s.awaiting ==> EntryOk(s, id))
    && TimersOk(s) && Balanced(s) && Bounded(s)
  }

  // ---------------------------------------------------------------- every step keeps the invariant

  lemma MultisetAdd(keys: set<nat>, id: nat)
    requires id !in keys
    ensures multiset(keys + {id}) == multiset(keys) + multiset{id}
  {}

  lemma MultisetSplit(keys: set<nat>, gone: set<nat>)
    requires gone <= keys
    ensures multiset(keys) == multiset(keys - gone) + multiset(gone)
  {}

  lemma BalanceArrive(s: State, id: nat, written: bool)
    requires Balanced(s)
    ensures Balanced(Arrive(s, id, written))
  {
    if Accepts(s, id) {
      MultisetAdd(s.awaiting.Keys, id);
      assert Register(s, id).awaiting.Keys == s.awaiting.Keys + {id};
      var one := multiset{id};
      assert s.delivered + one + s.lost == s.delivered + s.lost + one == s.delivered + (s.lost + one);
      assert s.released + (multiset(s.awaiting.Keys) + one) == s.released + multiset(s.awaiting.Keys) + one;
    }
  }

  lemma RegisterKeepsEntries(s: State, id: nat)
    requires Inv(s) && id !in s.awaiting
    ensures var r := Register(s, id);
      r.registered.Keys == r.awaiting.Keys && forall x :: x in r.awaiting ==> EntryOk(r, x)
  {}

  lemma RegisterKeepsTimers(s: State, id: nat)
    requires Inv(s) && id !in s.awaiting
    ensures TimersOk(Register(s, id))
  {}

  lemma RegisterKeepsBound(s: State, id: nat)
    requires Bounded(s) && Accepts(s, id)
    ensures Bounded(Register(s, id))
  {}

  lemma ArriveKeepsInv(s: State, id: nat, written: bool)
    requires Inv(s)
    ensures Inv(Arrive(s, id, written))
  {
    BalanceArrive(s, id, written);
    if Accepts(s, id) {
      RegisterKeepsEntries(s, id);
      RegisterKeepsTimers(s, id);
      RegisterKeepsBound(s, id);
      var r := Arrive(s, id, written);
      forall x | x in r.awaiting ensures EntryOk(r, x) { assert EntryOk(Register(s, id), x); }
    }
  }

  /** Dropping entries, and timers that none of the remaining entries owns. */
  lemma DropKeepsInv(s: State, gone: set<nat>, r: State)
    requires Inv(s) && gone <= s.awaiting.Keys
    requires r == s.(timers := r.timers, awaiting := s.awaiting - gone, released := s.released + multiset(gone), registered := s.registered - gone)
    requires r.timers.Keys <= s.timers.Keys && forall h :: h in r.timers ==> r.timers[h] == s.timers[h]
    requires forall id :: id in s.awaiting && id !in gone ==> s.registered[id].timer in r.timers
    ensures Inv(r)
  {
    MultisetSplit(s.awaiting.Keys, gone);
    assert r.awaiting.Keys == s.awaiting.Keys - gone;
    forall id | id in r.awaiting ensures EntryOk(r, id) { assert EntryOk(s, id); }
    assert |r.awaiting.Keys| <= |s.awaiting.Keys| by { Smaller(r.awaiting.Keys, s.awaiting.Keys); }
  }

  lemma Smaller(a: set<nat>, b: set<nat>)
    requires a <= b
    ensures |a| <= |b|
  {
    assert b == a + (b - a);
  }

  lemma ReleaseKeepsInv(s: State, id: nat)
    requires Inv(s)
    ensures Inv(Release(s, id))
  {
    if id in s.awaiting {
      assert multiset({id}) == multiset{id};
      DropKeepsInv(s, {id}, Release(s, id));
    }
  }

  /** When an entry's own timer fires, the entry is old enough to expire. */
  lemma OwnTimerExpires(s: State, id: nat)
    requires Inv(s) && id in s.awaiting && s.timers[s.registered[id].timer] <= s.now
    ensures id in Expired(s)
  {}

  lemma FireKeepsInv(s: State, h: nat)
    requires Inv(s) && Enabled(s, Fire(h))
    ensures Inv(Do(s, Fire(h)))
  {
    forall id | id in s.awaiting && id !in Expired(s) ensures s.registered[id].timer in s.timers - {h} {
      assert EntryOk(s, id);
      if s.registered[id].timer == h { OwnTimerExpires(s, id); }
    }
    DropKeepsInv(s, Expired(s), Do(s, Fire(h)));
  }

  lemma StepKeepsInv(s: State, step: Step)
    requires Inv(s) && Enabled(s, step)
    ensures Inv(Do(s, step))
  {
    match step
    case Publication(id, written) => ArriveKeepsInv(s, id, written);
    case Pubrel(id) => ReleaseKeepsInv(s, id);
    case Fire(h) => FireKeepsInv(s, h);
    case Tick(ns) =>
      var r := Do(s, step);
      forall id | id in r.awaiting ensures EntryOk(r, id) { assert EntryOk(s, id); }
  }

  lemma {:induction false} RunKeepsInv(states: seq<State>, steps: seq<Step>, i: nat)
    requires IsRun(states, steps) && i <= |steps| && Inv(states[0])
    ensures Inv(states[i])
  {
    if i > 0 {
      RunKeepsInv(states, steps, i - 1);
      StepKeepsInv(states[i - 1], steps[i - 1]);
    }
  }

  lemma InitInv(now: nat, maxAwaiting: int)
    ensures Inv(Init(now, maxAwaiting))
  {}

  // ---------------------------------------------------------------- whole runs

  /** In every reachable state a packet id was delivered at most once more than it was
      released, and only if it is waiting; exactly that often if no PUBREC write failed for
      it; and the table respects a positive bound. */
  lemma DeliveriesMatchReleases(states: seq<State>, steps: seq<Step>, now: nat, maxAwaiting: int, i: nat, id: nat)
    requires IsRun(states, steps) && states[0] == Init(now, maxAwaiting) && i <= |steps|
    ensures var s := states[i]; var waiting := if id in s.awaiting then 1 else 0;
      && s.delivered[id] + s.lost[id] == s.released[id] + waiting
      && s.delivered[id] <= s.released[id] + waiting
      && (s.lost[id] == 0 <==> s.delivered[id] == s.released[id] + waiting)
      && (s.maxAwaiting > 0 ==> |s.awaiting| <= s.maxAwaiting)
  {
    InitInv(now, maxAwaiting);
    RunKeepsInv(states, steps, i);
    var s := states[i];
    assert (s.delivered + s.lost)[id] == (s.released + multiset(s.awaiting.Keys))[id];
  }

  /** In every reachable state each entry has a pending timer of its own and is at most 20 s
      old; that timer's callback removes it; and no callback removes an entry whose real age
      is 19 s or less. */
  lemma EntriesExpireInTime(states: seq<State>, steps: seq<Step>, now: nat, maxAwaiting: int, i: nat, id: nat)
    requires IsRun(states, steps) && states[0] == Init(now, maxAwaiting) && i <= |steps|
    requires id in states[i].awaiting
    ensures var s := states[i];
      && id in s.registered && s.registered[id].timer in s.timers
      && (forall other :: other in s.registered && other != id ==> s.registered[other].timer != s.registered[id].timer)
      && s.registered[id].at <= s.now <= s.registered[id].at + 20 * NS
      && (i < |steps| && steps[i] == Fire(s.registered[id].timer) ==> id !in states[i + 1].awaiting)
      && (i < |steps| && steps[i].Fire? && id !in states[i + 1].awaiting ==> s.now - s.registered[id].at > 19 * NS)
  {
    InitInv(now, maxAwaiting);
    RunKeepsInv(states, steps, i);
    var s := states[i];
    assert EntryOk(s, id);
    if i < |steps| && steps[i] == Fire(s.registered[id].timer) {
      OwnTimerExpires(s, id);
    }
    if i < |steps| && steps[i].Fire? && id !in states[i + 1].awaiting {
      assert Unix(s.now) - Unix(s.registered[id].at) >= AWAIT_REL_TIMEOUT;
    }
  }

  // ---------------------------------------------------------------- exactly once

  /** The publication of a run's step finds its id free and room in the table. */
  ghost predicate Fresh(s: State, step: Step, id: nat) {
    step.Publication? && step.id == id && id !in s.awaiting && (s.maxAwaiting == 0 || |s.awaiting| < s.maxAwaiting)
  }

  /** What each step of a run does to the table and to the deliveries: a fresh publication is
      entered, and is delivered if its PUBREC was written and lost otherwise; any other
      publication has no effect; nothing else delivers or loses. */
  lemma DeliveryIsExact(states: seq<State>, steps: seq<Step>, i: nat)
    requires IsRun(states, steps) && i < |steps|
    ensures var s, r := states[i], states[i + 1];
      match steps[i]
      case Publication(id, written) =>
        if Fresh(s, steps[i], id)
        then && r.awaiting == s.awaiting[id := Unix(s.now)]
             && r.delivered == (if written then s.delivered + multiset{id} else s.delivered)
             && r.lost == (if written then s.lost else s.lost + multiset{id})
        else r == s
      case Pubrel(id) => r.awaiting == s.awaiting - {id} && r.delivered == s.delivered && r.lost == s.lost
      case _ => r.delivered == s.delivered && r.lost == s.lost
  {
    var s := states[i];
    if steps[i].Pubrel? && steps[i].id !in s.awaiting {
      assert s.awaiting - {steps[i].id} == s.awaiting;
    }
  }

  /** The steps before `n` that publish a fresh id with a written PUBREC. */
  ghost function Deliveries(states: seq<State>, steps: seq<Step>, id: nat, n: nat): nat
    requires |states| == |steps| + 1 && n <= |steps|
  {
    if n == 0 then 0
    else Deliveries(states, steps, id, n - 1) + (if Fresh(states[n - 1], steps[n - 1], id) && steps[n - 1].written then 1 else 0)
  }

  /** In every reachable state an id has been delivered once for each such publication. */
  lemma {:induction false} DeliveredAreCounted(states: seq<State>, steps: seq<Step>, now: nat, maxAwaiting: int, id: nat, n: nat)
    requires IsRun(states, steps) && states[0] == Init(now, maxAwaiting) && n <= |steps|
    ensures states[n].delivered[id] == Deliveries(states, steps, id, n)
  {
    if n > 0 {
      DeliveredAreCounted(states, steps, now, maxAwaiting, id, n - 1);
      DeliveryIsExact(states, steps, n - 1);
    }
  }

  lemma TimeMovesForward(s: State, step: Step)
    requires Enabled(s, step)
    ensures s.now <= Do(s, step).now && s.maxAwaiting == Do(s, step).maxAwaiting
  {}

  /** An entry stays until a PUBREL for its id or until 20 Unix seconds have passed. */
  lemma {:induction false} EntryStays(states: seq<State>, steps: seq<Step>, id: nat, at: nat, m: nat, n: nat)
    requires IsRun(states, steps) && m <= n <= |steps| && id in states[m].awaiting && states[m].awaiting[id] == at
    requires forall k :: m <= k < n ==> steps[k] != Pubrel(id)
    requires Unix(states[n].now) < at + 20
    ensures id in states[n].awaiting && states[n].awaiting[id] == at
    decreases n
  {
    if m < n {
      TimeMovesForward(states[n - 1], steps[n - 1]);
      EntryStays(states, steps, id, at, m, n - 1);
    }
  }

  /** Exactly once: after a fresh publication, and until a PUBREL for its id or until 20 Unix
      seconds have passed, publishing the id again has no effect. */
  lemma DuplicateIsNotDelivered(states: seq<State>, steps: seq<Step>, id: nat, m: nat, n: nat)
    requires IsRun(states, steps) && m < n < |steps| && Fresh(states[m], steps[m], id)
    requires forall k :: m < k < n ==> steps[k] != Pubrel(id)
    requires Unix(states[n].now) < Unix(states[m].now) + 20
    requires steps[n].Publication? && steps[n].id == id
    ensures states[n + 1] == states[n]
  {
    DeliveryIsExact(states, steps, m);
    EntryStays(states, steps, id, Unix(states[m].now), m + 1, n);
    DeliveryIsExact(states, steps, n);
  }

  lemma {:induction false} FreeStays(states: seq<State>, steps: seq<Step>, id: nat, m: nat, n: nat)
    requires IsRun(states, steps) && m <= n <= |steps| && id !in states[m].awaiting
    requires forall k :: m <= k < n ==> !(steps[k].Publication? && steps[k].id == id)
    ensures id !in states[n].awaiting
    decreases n
  {
    if m < n { FreeStays(states, steps, id, m, n - 1); }
  }

  /** A PUBREL frees its id: the next publication under it is entered if there is room, and is
      delivered if its PUBREC is written. */
  lemma ReleasedIsFreeAgain(states: seq<State>, steps: seq<Step>, id: nat, m: nat, n: nat)
    requires IsRun(states, steps) && m < n < |steps| && steps[m] == Pubrel(id)
    requires forall k :: m < k < n ==> !(steps[k].Publication? && steps[k].id == id)
    requires steps[n].Publication? && steps[n].id == id && (states[n].maxAwaiting == 0 || |states[n].awaiting| < states[n].maxAwaiting)
    ensures id in states[n + 1].awaiting
    ensures steps[n].written ==> states[n + 1].delivered == states[n].delivered + multiset{id}
  {
    DeliveryIsExact(states, steps, m);
    FreeStays(states, steps, id, m + 1, n);
    DeliveryIsExact(states, steps, n);
  }
}
