/** Which `publish` calls one publication makes (`ProcessPublishMessage`), in every reachable
    state of the broker. */
module FanOut {
  import opened Prelude
  import opened TopicLevels
  import opened Matching
  import opened SubTrie
  import opened Lifecycle

  /** A publication that came in from another broker is not passed on to routers. */
  predicate Eligible(s: Subscription, from: Kind) { s.kind == ROUTER ==> from == CLIENT }

  /** The subscriptions served in the loop, and those set aside for the shared draw. */
  function Chosen(answer: seq<Subscription>, from: Kind, share: bool): seq<Subscription> {
    if answer == [] then []
    else
      var s := answer[|answer| - 1];
      Chosen(answer[..|answer| - 1], from, share) + (if Eligible(s, from) && s.share == share then [s] else [])
  }

  /** All calls: every direct subscription, then one of the shared ones, at random. */
  function Calls(answer: seq<Subscription>, from: Kind, pick: nat): seq<Subscription> {
    var shared := Chosen(answer, from, true);
    Chosen(answer, from, false) + (if shared == [] then [] else [shared[pick % |shared|]])
  }

  /** The subscriptions that a will is written to (`PublishMessage`): one answer of the trie in
      some order, or none if there is no will or the lookup fails. */
  ghost predicate Told(t: Trie, will: Option<PublishPacket>, told: seq<Subscription>) {
    if will.None? then told == []
    else
      var k := Tokenize(will.value.topicName);
      if ValidQos(will.value.qos) && !AnswerFails(t, k.levels, k.ok) then multiset(told) == Answer(t, k.levels) else told == []
  }

  // ---------------------------------------------------------------- counting

  lemma {:induction false} ChosenCount(answer: seq<Subscription>, from: Kind, share: bool, s: Subscription)
    ensures multiset(Chosen(answer, from, share))[s] == if Eligible(s, from) && s.share == share then multiset(answer)[s] else 0
  {
    if answer != [] {
      var init, last := answer[..|answer| - 1], answer[|answer| - 1];
      assert answer == init + [last];
      ChosenCount(init, from, share, s);
    }
  }

  /** The subscription is in the trie and matches the topic, and is not a router's unless the
      publication came from a client. */
  ghost predicate Due(b: Broker, s: Subscription, from: Kind, topic: seq<string>) {
    && Stored(b.trie, Tokenize(s.topic).levels, s) && Match(Tokenize(s.topic).levels, topic)
    && (from == CLIENT || s.kind == CLIENT || s.kind == REMOTE || s.kind == CLUSTER)
  }

  lemma AnsweredOnce(b: Broker, s: Subscription, topic: seq<string>)
    requires Inv(b)
    ensures var p := Tokenize(s.topic).levels;
      Answer(b.trie, topic)[s] == if Stored(b.trie, p, s) && Match(p, topic) then 1 else 0
  {
    var p := Tokenize(s.topic).levels;
    forall x | Stored(b.trie, x, s) ensures x == p { assert StoredOk(b, x, s); }
    if Stored(b.trie, p, s) {
      TokenizePathOk(s.topic);
      ShapeAt(b.trie, p);
      forall x | x != p ensures !Holds(At(b.trie, x), s) { assert !Stored(b.trie, x, s); }
      AnswerMultiplicity(b.trie, p, s, topic);
    } else {
      forall x ensures !Holds(At(b.trie, x), s) { assert !Stored(b.trie, x, s); }
      AnswerWithout(b.trie, topic, s);
    }
  }

  /** Each due subscription is chosen once, any other never. */
  lemma ChosenOnce(b: Broker, answer: seq<Subscription>, from: Kind, share: bool, topic: seq<string>, s: Subscription)
    requires Inv(b) && multiset(answer) == Answer(b.trie, topic)
    ensures multiset(Chosen(answer, from, share))[s] == if Due(b, s, from, topic) && s.share == share then 1 else 0
  {
    ChosenCount(answer, from, share, s);
    AnsweredOnce(b, s, topic);
  }

  lemma DrawnOne(b: Broker, answer: seq<Subscription>, from: Kind, topic: seq<string>)
    requires Inv(b) && multiset(answer) == Answer(b.trie, topic)
    ensures forall s :: s in Chosen(answer, from, true) <==> Due(b, s, from, topic) && s.share
  {
    forall s ensures s in Chosen(answer, from, true) <==> Due(b, s, from, topic) && s.share {
      ChosenOnce(b, answer, from, true, topic, s);
      assert s in Chosen(answer, from, true) <==> s in multiset(Chosen(answer, from, true));
    }
  }

  // ---------------------------------------------------------------- copies per client

  function For(calls: seq<Subscription>, h: nat): seq<Subscription> {
    if calls == [] then []
    else For(calls[..|calls| - 1], h) + (if calls[|calls| - 1].client == h then [calls[|calls| - 1]] else [])
  }

  lemma {:induction false} ForCount(calls: seq<Subscription>, h: nat, s: Subscription)
    ensures multiset(For(calls, h))[s] == if s.client == h then multiset(calls)[s] else 0
  {
    if calls != [] {
      var init, last := calls[..|calls| - 1], calls[|calls| - 1];
      assert calls == init + [last];
      ForCount(init, h, s);
    }
  }

  lemma OnceMeansNoDuplicates(list: seq<Subscription>)
    requires forall s :: multiset(list)[s] <= 1
    ensures NoDuplicates(list)
  {
    forall i, j | 0 <= i < j < |list| ensures list[i] != list[j] {
      var front, back := list[..j], list[j..];
      assert list == front + back;
      assert front[i] in front && back[0] in back;
      assert multiset(list)[list[j]] == multiset(front)[list[j]] + multiset(back)[list[j]];
      assert list[i] in multiset(front) && list[j] in multiset(back);
    }
  }

  /** The filters of a client that match a topic and are not shared. */
  ghost function MatchingKeys(m: map<string, Subscription>, topic: seq<string>): set<string> {
    set t | t in m && !m[t].share && Match(Tokenize(m[t].topic).levels, topic)
  }

  ghost function Image(m: map<string, Subscription>, keys: set<string>): set<Subscription>
    requires keys <= m.Keys
  {
    set t | t in keys :: m[t]
  }

  lemma {:induction false} ImageSize(m: map<string, Subscription>, keys: set<string>)
    requires keys <= m.Keys && forall t, u :: t in m && u in m && t != u ==> m[t] != m[u]
    ensures |Image(m, keys)| == |keys|
    decreases |keys|
  {
    if keys == {} {
      assert Image(m, keys) == {};
    } else {
      var t :| t in keys;
      ImageSize(m, keys - {t});
      assert Image(m, keys) == Image(m, keys - {t}) + {m[t]};
      assert m[t] !in Image(m, keys - {t});
    }
  }

  lemma CopiesAreMatchingKeys(b: Broker, h: nat, answer: seq<Subscription>, from: Kind, topic: seq<string>)
    requires Inv(b) && h in b.conns && b.conns[h].kind == CLIENT && b.conns[h].connected
    requires multiset(answer) == Answer(b.trie, topic)
    ensures |For(Chosen(answer, from, false), h)| == |MatchingKeys(b.conns[h].subMap, topic)|
  {
    var m := b.conns[h].subMap;
    var keys := MatchingKeys(m, topic);
    var copies := For(Chosen(answer, from, false), h);
    assert MapOk(b, h);
    forall s ensures multiset(copies)[s] == if s in Image(m, keys) then 1 else 0 {
      ForCount(Chosen(answer, from, false), h, s);
      ChosenOnce(b, answer, from, false, topic, s);
      CopyIffMatchingKey(b, h, from, topic, s);
    }
    OnceMeansNoDuplicates(copies);
    forall s ensures s in copies <==> s in Image(m, keys) {
      assert s in copies <==> s in multiset(copies);
    }
    OrderLength(copies, Image(m, keys));
    ImageSize(m, keys);
  }

  lemma CopyIffMatchingKey(b: Broker, h: nat, from: Kind, topic: seq<string>, s: Subscription)
    requires Inv(b) && h in b.conns && b.conns[h].kind == CLIENT && b.conns[h].connected
    ensures s.client == h && Due(b, s, from, topic) && !s.share <==>
            s in Image(b.conns[h].subMap, MatchingKeys(b.conns[h].subMap, topic))
  {}

  // ---------------------------------------------------------------- every reachable state

  /** In every reachable state, for every topic, any order of the answer and any random draw:
      a stored, matching, direct subscription of a router is called once if the publication
      came from a client and not at all otherwise, and one of any other kind is called once;
      if some shared subscription is due by the same rule, exactly one such is called besides,
      whatever its group; nothing else is called. */
  lemma PublishIsExact(states: seq<Broker>, steps: seq<Step>, i: nat, topic: seq<string>, answer: seq<Subscription>,
                       from: Kind, pick: nat, s: Subscription)
    requires IsRun(states, steps) && i <= |steps| && states[0] == START
    requires multiset(answer) == Answer(states[i].trie, topic)
    ensures var b, direct, calls := states[i], Chosen(answer, from, false), Calls(answer, from, pick);
      var path := Tokenize(s.topic).levels;
      && direct <= calls
      && multiset(direct)[s] == (if !s.share && Stored(b.trie, path, s) && Match(path, topic) && !(s.kind == ROUTER && from != CLIENT) then 1 else 0)
      && (if exists x :: Due(b, x, from, topic) && x.share
          then |calls| == |direct| + 1 && Due(b, calls[|direct|], from, topic) && calls[|direct|].share
          else calls == direct)
  {
    RunKeepsInv(states, steps, i);
    ChosenOnce(states[i], answer, from, false, topic, s);
    DrawnOne(states[i], answer, from, topic);
    var shared := Chosen(answer, from, true);
    if shared != [] {
      var x := shared[pick % |shared|];
      assert x in shared;
    }
  }

  /** And every due shared subscription can be the one drawn. */
  lemma EveryShareCanBeDrawn(states: seq<Broker>, steps: seq<Step>, i: nat, topic: seq<string>, answer: seq<Subscription>,
                             from: Kind, s: Subscription)
    requires IsRun(states, steps) && i <= |steps| && states[0] == START
    requires multiset(answer) == Answer(states[i].trie, topic)
    requires var path := Tokenize(s.topic).levels;
      s.share && Stored(states[i].trie, path, s) && Match(path, topic) && !(s.kind == ROUTER && from != CLIENT)
    ensures exists pick :: Calls(answer, from, pick) == Chosen(answer, from, false) + [s]
  {
    RunKeepsInv(states, steps, i);
    DrawnOne(states[i], answer, from, topic);
    AnyCanBeDrawn(answer, from, s);
  }

  lemma ModOfSmaller(a: nat, n: nat)
    requires a < n
    ensures a % n == a
  {}

  lemma AnyCanBeDrawn(answer: seq<Subscription>, from: Kind, s: Subscription)
    requires s in Chosen(answer, from, true)
    ensures exists pick :: Calls(answer, from, pick) == Chosen(answer, from, false) + [s]
  {
    var shared := Chosen(answer, from, true);
    var pick :| 0 <= pick < |shared| && shared[pick] == s;
    ModOfSmaller(pick, |shared|);
    assert Calls(answer, from, pick) == Chosen(answer, from, false) + [s];
  }

  /** All the filters of a client that match a topic. */
  ghost function AnsweredKeys(m: map<string, Subscription>, topic: seq<string>): set<string> {
    set t | t in m && Match(Tokenize(m[t].topic).levels, topic)
  }

  /** How often a connected client occurs in an answer. */
  lemma OccurrencesAreMatchingKeys(b: Broker, h: nat, answer: seq<Subscription>, topic: seq<string>)
    requires Inv(b) && h in b.conns && b.conns[h].kind == CLIENT && b.conns[h].connected
    requires multiset(answer) == Answer(b.trie, topic)
    ensures |For(answer, h)| == |AnsweredKeys(b.conns[h].subMap, topic)|
  {
    var m := b.conns[h].subMap;
    var keys, copies := AnsweredKeys(m, topic), For(answer, h);
    assert MapOk(b, h);
    forall s ensures multiset(copies)[s] == if s in Image(m, keys) then 1 else 0 {
      ForCount(answer, h, s);
      AnsweredOnce(b, s, topic);
      OccursIffMatchingKey(b, h, topic, s);
    }
    OnceMeansNoDuplicates(copies);
    forall s ensures s in copies <==> s in Image(m, keys) {
      assert s in copies <==> s in multiset(copies);
    }
    OrderLength(copies, Image(m, keys));
    ImageSize(m, keys);
  }

  lemma OccursIffMatchingKey(b: Broker, h: nat, topic: seq<string>, s: Subscription)
    requires Inv(b) && h in b.conns && b.conns[h].kind == CLIENT && b.conns[h].connected
    ensures s.client == h && Stored(b.trie, Tokenize(s.topic).levels, s) && Match(Tokenize(s.topic).levels, topic) <==>
            s in Image(b.conns[h].subMap, AnsweredKeys(b.conns[h].subMap, topic))
  {}

  /** Nothing from another broker is passed on to a router. */
  lemma RouterIsSkipped(b: Broker, h: nat, answer: seq<Subscription>, topic: seq<string>, from: Kind, pick: nat)
    requires Inv(b) && h in b.conns && b.conns[h].kind == ROUTER && from != CLIENT
    requires multiset(answer) == Answer(b.trie, topic)
    ensures For(Calls(answer, from, pick), h) == []
  {
    var calls := Calls(answer, from, pick);
    forall s | s in calls ensures s.client != h {
      CalledIsDue(b, answer, topic, from, pick, s);
      assert StoredOk(b, Tokenize(s.topic).levels, s);
    }
    NoneFor(calls, h);
  }

  lemma CalledIsDue(b: Broker, answer: seq<Subscription>, topic: seq<string>, from: Kind, pick: nat, s: Subscription)
    requires Inv(b) && multiset(answer) == Answer(b.trie, topic) && s in Calls(answer, from, pick)
    ensures Due(b, s, from, topic)
  {
    DrawnOne(b, answer, from, topic);
    ChosenOnce(b, answer, from, false, topic, s);
    if s !in Chosen(answer, from, true) {
      assert s in multiset(Chosen(answer, from, false));
    }
  }

  lemma {:induction false} NoneFor(calls: seq<Subscription>, h: nat)
    requires forall s :: s in calls ==> s.client != h
    ensures For(calls, h) == []
  {
    if calls != [] { NoneFor(calls[..|calls| - 1], h); }
  }

  /** A connected client with k matching direct filters gets exactly k copies outside the
      shared draw. */
  lemma ClientGetsOneCopyPerFilter(states: seq<Broker>, steps: seq<Step>, i: nat, h: nat, topic: seq<string>,
                                   answer: seq<Subscription>, from: Kind)
    requires IsRun(states, steps) && i <= |steps| && states[0] == START
    requires h in states[i].conns && states[i].conns[h].kind == CLIENT && states[i].conns[h].connected
    requires multiset(answer) == Answer(states[i].trie, topic)
    ensures |For(Chosen(answer, from, false), h)| == |MatchingKeys(states[i].conns[h].subMap, topic)|
  {
    RunKeepsInv(states, steps, i);
    CopiesAreMatchingKeys(states[i], h, answer, from, topic);
  }
}
