/** The values that the broker's components pass to each other. */
module Prelude {

  datatype Option<+T> = None | Some(value: T)

  /** An MQTT PUBLISH packet, as decoded by the packet library. */
  datatype PublishPacket = PublishPacket(
    topicName: string, payload: string, qos: nat, messageId: nat, retain: bool)

  /** Whose end of a network connection a `client` object stands for. */
  datatype Kind = CLIENT | ROUTER | REMOTE | CLUSTER

  /** A `*subscription`. The source compares subscriptions by address; `uid` stands for
      that address, so two subscriptions are equal only if they are the same allocation. */
  datatype Subscription = Subscription(
    uid: nat, client: nat, kind: Kind, topic: string, qos: nat, share: bool, groupName: string)

  const QOS_FAILURE := 0x80

  /** Nanoseconds in a second. */
  const NS := 1_000_000_000

  /** `time.Now().Unix()` at a time given in nanoseconds. */
  function Unix(ns: nat): nat { ns / NS }

  predicate ValidQos(qos: nat) { qos == 0 || qos == 1 || qos == 2 }

  /** Holds of every index; a proof names with it the step of a run that it looks at. */
  predicate Nth(i: int) { true }

  ghost predicate NoDuplicates<T(!new)>(s: seq<T>) {
    forall i, j :: 0 <= i < j < |s| ==> s[i] != s[j]
  }

  /** `order` visits every key of a map exactly once: one possible `range` loop over it. */
  ghost predicate IsOrder<T(!new)>(order: seq<T>, keys: set<T>) {
    NoDuplicates(order) && forall k :: k in order <==> k in keys
  }

  lemma PutTwice<K, V>(m: map<K, V>, k: K, a: V, b: V)
    ensures m[k := a][k := b] == m[k := b]
  {}

  lemma PutThenDrop<K, V>(m: map<K, V>, k: K, a: V)
    ensures m[k := a] - {k} == m - {k}
  {}

  lemma OrderInit<T(!new)>(order: seq<T>, keys: set<T>)
    requires IsOrder(order, keys) && order != []
    ensures order[|order| - 1] in keys
    ensures IsOrder(order[..|order| - 1], keys - {order[|order| - 1]})
  {}

  lemma {:induction false} OrderLength<T(!new)>(order: seq<T>, keys: set<T>)
    requires IsOrder(order, keys)
    ensures |order| == |keys|
    decreases |order|
  {
    if order == [] {
      assert keys == {};
    } else {
      OrderInit(order, keys);
      OrderLength(order[..|order| - 1], keys - {order[|order| - 1]});
    }
  }
}
