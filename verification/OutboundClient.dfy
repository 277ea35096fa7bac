/** The part of a `client` object that delivers QoS 1 and 2, changed in place by its handlers
    and its timer callback. Every method is proved against the step functions of `Outbound`. */
module OutboundClients {
  import opened Prelude
  import opened Outbound

  class OutboundClient {
    // the clock and the runtime's timers
    var now: nat
    var pending: multiset<nat>
    // the fields of the client
    var live: bool
    var inflight: map<nat, Elem>
    var retryTimer: bool
    // what has been written to the connection
    var log: seq<Event>

    function View(): State
      reads this
    { State(now, live, inflight, retryTimer, pending, log) }

    constructor (start: nat)
      ensures View() == Init(start)
    {
      now, pending, live, inflight, retryTimer, log := start, multiset{}, true, map[], false, [];
    }

    method WriterPacket(e: Event)
      modifies this`log
      ensures View() == Write(old(View()), e)
    {
      if !live {
        return;
      }
      log := log + [e];
    }

    /** `ensureRetryTimer`, with its optional interval in seconds. */
    method EnsureRetryTimer(interval: seq<nat>)
      modifies this`retryTimer, this`pending
      ensures View() == if |interval| > 1 then old(View())
                        else Ensure(old(View()), if |interval| == 1 then interval[0] else RETRY_INTERVAL)
    {
      if retryTimer {
        return;
      }
      if |interval| > 1 {
        return;
      }
      var seconds := RETRY_INTERVAL;
      if |interval| == 1 {
        seconds := interval[0];
      }
      retryTimer := true;
      pending := pending + multiset{now + seconds * NS};
    }

    /** `publish`, for a subscription of this client. */
    method PublishTo(packet: PublishPacket)
      modifies this
      ensures View() == Deliver(old(View()), packet)
    {
      if packet.qos == 0 {
        WriterPacket(Sent(packet));
      } else if packet.qos == 1 || packet.qos == 2 {
        inflight := inflight[packet.messageId := Elem(Publish, packet, Unix(now))];
        WriterPacket(Sent(packet));
        EnsureRetryTimer([]);
      }
    }

    method ProcessPuback(id: nat)
      modifies this`inflight
      ensures View() == Do(old(View()), Puback(id))
    {
      if id in inflight {
        inflight := inflight - {id};
      } else {
        assert inflight - {id} == inflight;
      }
    }

    method ProcessPubrec(id: nat)
      modifies this
      ensures View() == Do(old(View()), Pubrec(id))
    {
      if id in inflight {
        var elem := inflight[id];
        if elem.status == Publish {
          inflight := inflight[id := elem.(status := Pubrel, timestamp := Unix(now))];
        }
      }
      WriterPacket(SentPubrel(id));
    }

    method ProcessPubcomp(id: nat)
      modifies this`inflight
      ensures View() == Do(old(View()), Pubcomp(id))
    {
      inflight := inflight - {id};
    }

    /** The timer callback: it copies the elements out in the order of one map iteration and
        then goes through the copy. */
    method RetryDelivery(due: nat) returns (ghost order: seq<nat>)
      requires due in pending && due <= now
      modifies this
      ensures IsOrder(order, old(inflight).Keys) && View() == Do(old(View()), Fire(due, order))
    {
      pending := pending - multiset{due};
      retryTimer := false;
      var ids := CopyIds();
      order := ids;
      if !live || inflight == map[] {
        return;
      }
      RetryEach(ids);
      EnsureRetryTimer([]);
    }

    /** Its loop over the copy. */
    method RetryEach(ids: seq<nat>)
      requires forall id :: id in ids ==> id in inflight
      modifies this
      ensures View() == RetryAll(old(View()), ids)
    {
      ghost var start := View();
      var i := 0;
      while i < |ids|
        invariant 0 <= i <= |ids|
        invariant View() == RetryAll(start, ids[..i])
      {
        assert ids[i] in ids;
        assert ids[..i + 1][..|ids[..i + 1]| - 1] == ids[..i];
        RetryElem(ids[i]);
        i := i + 1;
      }
      assert ids[..i] == ids;
    }

    method CopyIds() returns (ids: seq<nat>)
      ensures IsOrder(ids, inflight.Keys)
    {
      ids := [];
      var todo := inflight.Keys;
      while todo != {}
        invariant todo <= inflight.Keys && IsOrder(ids, inflight.Keys - todo)
        decreases todo
      {
        var id :| id in todo;
        ids, todo := ids + [id], todo - {id};
      }
    }

    method RetryElem(id: nat)
      requires id in inflight
      modifies this
      ensures View() == RetryOne(old(View()), id)
    {
      var elem := inflight[id];
      var age := Unix(now) - elem.timestamp;
      if age >= RETRY_INTERVAL {
        if elem.status == Publish {
          WriterPacket(Resent(id, Publish, elem.packet, age));
        } else {
          WriterPacket(Resent(id, Pubrel, elem.packet, age));
        }
        inflight := inflight[id := elem.(timestamp := Unix(now))];
      } else {
        if age < 0 {
          age := 0;
        }
        EnsureRetryTimer([RETRY_INTERVAL - age]);
      }
    }
  }
}
