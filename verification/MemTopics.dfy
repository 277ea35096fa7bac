/** The topic index (`memTopics`): both tries behind one object. */
module MemTopics {
  import opened Prelude
  import opened TopicLevels
  import opened Matching
  import opened SubscriptionRuns
  import S = SubTrie
  import SN = SubNodes
  import R = RetTrie
  import RN = RetNodes

  class Topics {
    var sroot: SN.SubNode
    var rroot: RN.RetNode

    ghost var Repr: set<object>

    ghost predicate Valid()
      reads this, Repr
      ensures Valid() ==> this in Repr
    {
      && this in Repr && sroot in Repr && rroot in Repr
      && sroot.Repr <= Repr && rroot.Repr <= Repr
      && this !in sroot.Repr && this !in rroot.Repr && sroot.Repr !! rroot.Repr
      && sroot.Valid() && rroot.Valid()
    }

    /** The value of the subscription trie. */
    ghost function Subscriptions(): S.Trie
      reads this, sroot
    { sroot.tree }

    /** The value of the retained-message trie. */
    ghost function RetainedMessages(): R.Trie
      reads this, rroot
    { rroot.tree }

    constructor ()
      ensures Valid() && fresh(Repr)
      ensures Subscriptions() == S.EMPTY && RetainedMessages() == R.EMPTY
    {
      sroot := new SN.SubNode();
      rroot := new RN.RetNode();
      new;
      Repr := {this} + sroot.Repr + rroot.Repr;
    }

    method Subscribe(topic: string, qos: nat, sub: Option<Subscription>) returns (code: nat, ok: bool)
      requires Valid()
      modifies Repr
      ensures Valid() && fresh(Repr - old(Repr))
      ensures var c := SubscriptionRuns.Subscribe(topic, qos, sub);
        ok == TrieCallOk(old(Subscriptions()), c) && Subscriptions() == TrieCall(old(Subscriptions()), c)
      ensures code == (if ok then qos else QOS_FAILURE) && RetainedMessages() == old(RetainedMessages())
    {
      if !ValidQos(qos) || sub.None? {
        return QOS_FAILURE, false;
      }
      ok := sroot.Insert(topic, qos, sub.value);
      Repr := Repr + sroot.Repr;
      code := if ok then qos else QOS_FAILURE;
    }

    method Unsubscribe(topic: string, sub: Option<Subscription>) returns (ok: bool)
      requires Valid()
      modifies Repr
      ensures Valid() && Repr == old(Repr)
      ensures var c := SubscriptionRuns.Unsubscribe(topic, sub);
        ok == TrieCallOk(old(Subscriptions()), c) && Subscriptions() == TrieCall(old(Subscriptions()), c)
      ensures RetainedMessages() == old(RetainedMessages())
    {
      ok := sroot.Remove(topic, sub);
    }

    /** Refused only for an unknown QoS or when a visited node lies at a malformed level. */
    method Subscribers(topic: string, qos: nat) returns (ok: bool, subs: seq<Subscription>, qoss: seq<nat>)
      requires Valid()
      ensures ok <==> ValidQos(qos) && !S.AnswerFails(Subscriptions(), Tokenize(topic).levels, Tokenize(topic).ok)
      ensures ValidQos(qos) && !Malformed(topic) ==> ok
      ensures ok ==> multiset(subs) == S.Answer(Subscriptions(), Tokenize(topic).levels)
      ensures SN.Parallel(qoss, qos, |subs|)
    {
      if !ValidQos(qos) {
        return false, [], [];
      }
      TokenizeFailsIffMalformed(topic);
      if !Malformed(topic) { S.AnswerNeverFails(sroot.tree, Tokenize(topic).levels); }
      ok, subs, qoss := sroot.Match(topic, qos, [], []);
    }

    /** An empty payload clears the retained message of the topic. */
    method Retain(m: PublishPacket) returns (ok: bool)
      requires Valid()
      modifies Repr
      ensures Valid() && fresh(Repr - old(Repr)) && Subscriptions() == old(Subscriptions())
      ensures ok == R.RetainOk(old(RetainedMessages()), m)
      ensures RetainedMessages() == R.AfterRetain(old(RetainedMessages()), m)
    {
      if |m.payload| == 0 {
        ok := rroot.Remove(m.topicName);
      } else {
        ok := rroot.Insert(m.topicName, m);
        Repr := Repr + rroot.Repr;
      }
    }

    /** Appends the retained messages that match a filter: for a well-formed filter those of
        exactly the matching topics, each once. */
    method Retained(filter: string, msgs: seq<PublishPacket>) returns (ok: bool, out: seq<PublishPacket>, ghost paths: seq<seq<string>>)
      requires Valid()
      ensures ok <==> !R.FindFails(RetainedMessages(), Tokenize(filter).levels, Tokenize(filter).ok)
      ensures ok ==> msgs <= out && R.Lists(RetainedMessages(), paths, out[|msgs|..])
      ensures ok ==> R.Enumerates(RetainedMessages(), Tokenize(filter).levels, paths)
      ensures !Malformed(filter) ==> ok
      ensures !Malformed(filter) ==>
        forall p :: p in paths <==> R.At(RetainedMessages(), p).Some? && Match(Tokenize(filter).levels, p)
    {
      ghost var t, levels := rroot.tree, Tokenize(filter).levels;
      TokenizeFailsIffMalformed(filter);
      TokenizePathOk(filter);
      if !Malformed(filter) { R.FindNeverFails(t, levels); }
      var got;
      ok, got, paths := rroot.Match(filter);
      forall p ensures R.Found(t, levels, p) <==> R.At(t, p).Some? && Match(levels, p) {
        R.FoundIffMatch(t, levels, p);
      }
      out := msgs + got;
      assert out[|msgs|..] == got;
    }
  }

  /** A filter finds a retained topic iff a publication to that topic reaches a subscription
      with that filter, whatever else the two tries hold. */
  lemma RetainedIffReached(rt: R.Trie, st: S.Trie, filter: string, topic: string, m: PublishPacket, s: Subscription)
    requires !Malformed(filter) && !Malformed(topic) && m.topicName == topic && m.payload != ""
    requires forall x :: !S.Holds(S.At(st, x), s)
    ensures var f, p := Tokenize(filter).levels, Tokenize(topic).levels;
      R.Found(R.AfterRetain(rt, m), f, p) <==> s in S.Answer(S.Insert(st, f, true, s, m.qos), p)
  {
    var f, p := Tokenize(filter).levels, Tokenize(topic).levels;
    TokenizeFailsIffMalformed(filter);
    TokenizeFailsIffMalformed(topic);
    TokenizePathOk(filter);
    R.InsertAt(rt, p, true, m, p);
    R.FoundIffMatch(R.AfterRetain(rt, m), f, p);
    var u := S.Insert(st, f, true, s, m.qos);
    forall x ensures S.At(u, x) == if x == f then S.Upsert(S.At(st, f), s, m.qos) else S.At(st, x) {
      S.InsertAt(st, f, true, s, m.qos, x);
    }
    assert S.SameBut(st, u, f);
    S.AnswerChange(st, u, f, p);
    S.UpsertEffect(S.At(st, f), s, m.qos);
    S.AnswerWithout(st, p, s);
    assert !S.Holds(S.At(st, f), s);
    S.BagMember(S.At(st, f), s);
    var b := Match(f, p);
    assert (S.Answer(st, p) + S.If(b, S.Bag(S.At(u, f))))[s] == (S.Answer(u, p) + S.If(b, S.Bag(S.At(st, f))))[s];
  }
}
