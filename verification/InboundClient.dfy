/** The part of a `client` object that receives QoS 2, changed in place by its handlers and by
    the expiry callback. Every method is proved against the step functions of `Inbound`. */
module InboundClients {
  import opened Prelude
  import opened Inbound

  class InboundClient {
    // the clock and the runtime's timers
    var now: nat
    var timers: map<nat, nat>
    var nextTimer: nat
    // the fields of the client
    var awaitingRel: map<nat, nat>
    var maxAwaitingRel: int
    // history
    var delivered: multiset<nat>
    var lost: multiset<nat>
    var released: multiset<nat>
    var registered: map<nat, Registration>

    function View(): State
      reads this
    { State(now, maxAwaitingRel, awaitingRel, timers, nextTimer, delivered, lost, released, registered) }

    constructor (start: nat, bound: int)
      ensures View() == Init(start, bound)
    {
      now, timers, nextTimer, awaitingRel, maxAwaitingRel := start, map[], 0, map[], bound;
      delivered, lost, released, registered := multiset{}, multiset{}, multiset{}, map[];
    }

    method IsAwaitingFull() returns (full: bool)
      ensures full == IsFull(View())
    {
      if maxAwaitingRel == 0 {
        return false;
      }
      if |awaitingRel| < maxAwaitingRel {
        return false;
      }
      return true;
    }

    /** `registerPublishPacketId`. */
    method RegisterPublishPacketId(id: nat) returns (ok: bool)
      modifies this
      ensures ok == Accepts(old(View()), id)
      ensures View() == if ok then Register(old(View()), id) else old(View())
    {
      var full := IsAwaitingFull();
      if full {
        return false;
      }
      if id in awaitingRel {
        return false;
      }
      awaitingRel := awaitingRel[id := Unix(now)];
      registered := registered[id := Registration(now, nextTimer)];
      timers, nextTimer := timers[nextTimer := now + AWAIT_REL_TIMEOUT * NS], nextTimer + 1;
      return true;
    }

    /** The QoS 2 branch of `processClientPublish`. */
    method ProcessQos2Publish(id: nat, written: bool)
      modifies this
      ensures View() == Do(old(View()), Publication(id, written))
    {
      var ok := RegisterPublishPacketId(id);
      if !ok {
        return;
      }
      if !written {
        lost := lost + multiset{id};
        return;
      }
      delivered := delivered + multiset{id};
    }

    /** `pubRel`. */
    method PubRel(id: nat) returns (ok: bool)
      modifies this
      ensures ok == (id in old(awaitingRel)) && View() == Do(old(View()), Pubrel(id))
    {
      if id in awaitingRel {
        awaitingRel, registered := awaitingRel - {id}, registered - {id};
        released := released + multiset{id};
        return true;
      }
      return false;
    }

    /** The timer callback `expireAwaitingRel`: it deletes while it iterates. */
    method ExpireAwaitingRel(timer: nat)
      requires timer in timers && timers[timer] <= now
      modifies this
      ensures View() == Do(old(View()), Fire(timer))
    {
      timers := timers - {timer};
      if |awaitingRel| == 0 {
        NothingExpires(View());
        return;
      }
      ExpireLoop();
    }

    method ExpireLoop()
      modifies this
      ensures View() == Expire(old(View()))
    {
      ghost var start, expired := View(), Expired(View());
      ghost var gone: set<nat> := {};
      var unixNow := Unix(now);
      var todo := awaitingRel.Keys;
      DropNothing(start);
      while todo != {}
        invariant todo <= start.awaiting.Keys && gone == expired - todo
        invariant View() == Drop(start, gone)
        decreases todo
      {
        var id :| id in todo;
        StillThere(start, gone, id);
        if unixNow - awaitingRel[id] >= AWAIT_REL_TIMEOUT {
          Delete(id);
          DropOneMore(start, gone, id);
          gone := gone + {id};
        }
        OneFewer(expired, todo, id);
        todo := todo - {id};
      }
      assert expired - {} == expired;
    }

    method Delete(id: nat)
      requires id in awaitingRel
      modifies this
      ensures View() == Drop(old(View()), {id})
    {
      assert multiset({id}) == multiset{id};
      awaitingRel, registered := awaitingRel - {id}, registered - {id};
      released := released + multiset{id};
    }
  }

  ghost function Drop(s: State, gone: set<nat>): State {
    s.(awaiting := s.awaiting - gone, released := s.released + multiset(gone), registered := s.registered - gone)
  }

  lemma StillThere(s: State, gone: set<nat>, id: nat)
    requires id in s.awaiting && id !in gone
    ensures id in Drop(s, gone).awaiting && Drop(s, gone).awaiting[id] == s.awaiting[id]
    ensures id in Expired(s) <==> Unix(s.now) - s.awaiting[id] >= AWAIT_REL_TIMEOUT
  {}

  lemma OneFewer(expired: set<nat>, todo: set<nat>, id: nat)
    requires id in todo
    ensures expired - (todo - {id}) == if id in expired then expired - todo + {id} else expired - todo
  {}

  lemma DropNothing(s: State)
    ensures Drop(s, {}) == s
  {}

  lemma NothingExpires(s: State)
    requires |s.awaiting| == 0
    ensures Expire(s) == s
  {}

  lemma DropOneMore(s: State, gone: set<nat>, id: nat)
    requires id !in gone
    ensures Drop(Drop(s, gone), {id}) == Drop(s, gone + {id})
  {}
}
