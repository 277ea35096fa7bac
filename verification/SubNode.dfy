/** The subscription trie as the source keeps it: nodes that are changed in place. Every
    method is proved against the value operations of `SubTrie`. */
module SubNodes {
  import opened Prelude
  import opened TopicLevels
  import opened SubTrie

  ghost function Zip(subs: seq<Subscription>, qos: seq<nat>): seq<Entry>
    requires |subs| == |qos|
  {
    seq(|subs|, i requires 0 <= i < |subs| => Entry(subs[i], qos[i]))
  }

  lemma ZipUpsert(subs: seq<Subscription>, qos: seq<nat>, s: Subscription, q: nat)
    requires |subs| == |qos|
    ensures var i := Find(Zip(subs, qos), s);
      Upsert(Zip(subs, qos), s, q) == if i < |subs| then Zip(subs, qos[i := q]) else Zip(subs + [s], qos + [q])
  {}

  lemma ZipWithout(subs: seq<Subscription>, qos: seq<nat>, i: nat)
    requires |subs| == |qos| && i < |subs|
    ensures Zip(subs, qos)[..i] + Zip(subs, qos)[i + 1..] == Zip(subs[..i] + subs[i + 1..], qos[..i] + qos[i + 1..])
  {}

  /** One QoS value, that of the publication, beside each of n subscribers. */
  ghost predicate Parallel(qoss: seq<nat>, q: nat, n: nat) {
    |qoss| == n && forall i :: 0 <= i < n ==> qoss[i] == q
  }

  /** What visiting one child adds to the answer. */
  ghost function Part(t: Trie, k: string, levels: seq<string>): multiset<Subscription>
    requires levels != []
  {
    if k == MWC then Bag(Kid(t, MWC).list)
    else If(k == SWC || k == levels[0], Answer(Kid(t, k), levels[1..]))
  }

  ghost function Visited(t: Trie, done: set<string>, levels: seq<string>): multiset<Subscription>
    requires levels != []
  {
    Sum3(MWC in done, Part(t, MWC, levels), SWC in done, Part(t, SWC, levels),
         levels[0] in done && levels[0] != MWC && levels[0] != SWC, Part(t, levels[0], levels))
  }

  ghost function Sum3(a: bool, x: multiset<Subscription>, b: bool, y: multiset<Subscription>, c: bool, z: multiset<Subscription>): multiset<Subscription> {
    If(a, x) + If(b, y) + If(c, z)
  }

  lemma Sum3Add(a: bool, x: multiset<Subscription>, b: bool, y: multiset<Subscription>, c: bool, z: multiset<Subscription>)
    ensures !a ==> Sum3(true, x, b, y, c, z) == Sum3(a, x, b, y, c, z) + x
    ensures !b ==> Sum3(a, x, true, y, c, z) == Sum3(a, x, b, y, c, z) + y
    ensures !c ==> Sum3(a, x, b, y, true, z) == Sum3(a, x, b, y, c, z) + z
  {}

  lemma VisitOne(t: Trie, done: set<string>, k: string, levels: seq<string>)
    requires levels != [] && k !in done
    ensures Visited(t, done + {k}, levels) == Visited(t, done, levels) + Part(t, k, levels)
  {
    assert MWC[0] != SWC[0];
    VisitOneOf(MWC, SWC, levels[0], done, k, Part(t, MWC, levels), Part(t, SWC, levels), Part(t, levels[0], levels),
               Part(t, k, levels));
  }

  lemma VisitOneOf(m: string, s: string, l: string, done: set<string>, k: string, x: multiset<Subscription>,
                   y: multiset<Subscription>, z: multiset<Subscription>, p: multiset<Subscription>)
    requires m != s && k !in done
    requires p == if k == m then x else if k == s then y else if k == l then z else multiset{}
    ensures var done' := done + {k};
      Sum3(m in done', x, s in done', y, l in done' && l != m && l != s, z)
      == Sum3(m in done, x, s in done, y, l in done && l != m && l != s, z) + p
  {
    var a, b, c := m in done, s in done, l in done && l != m && l != s;
    var done' := done + {k};
    var a', b', c' := m in done', s in done', l in done' && l != m && l != s;
    if k == m {
      assert a' && !a && b' == b && c' == c;
    } else if k == s {
      assert a' == a && b' && !b && c' == c;
    } else if k == l {
      assert a' == a && b' == b && c' && !c;
    } else {
      assert a' == a && b' == b && c' == c;
    }
    Sum3Add(a, x, b, y, c, z);
  }

  ghost predicate PartFails(t: Trie, k: string, levels: seq<string>, ok: bool)
    requires levels != []
  {
    k in t.kids && k != MWC && (k == SWC || k == levels[0]) && AnswerFails(Kid(t, k), levels[1..], ok)
  }

  lemma FailsInSomePart(t: Trie, levels: seq<string>, ok: bool)
    requires levels != []
    ensures AnswerFails(t, levels, ok) <==> PartFails(t, SWC, levels, ok) || PartFails(t, levels[0], levels, ok)
  {}

  lemma AllVisited(t: Trie, levels: seq<string>)
    requires levels != []
    ensures Visited(t, t.kids.Keys, levels) == Answer(t, levels)
  {
    EmptyAnswer(levels[1..]);
  }

  ghost function SumParts(t: Trie, order: seq<string>, levels: seq<string>): multiset<Subscription>
    requires levels != []
  {
    if order == [] then multiset{}
    else SumParts(t, order[..|order| - 1], levels) + Part(t, order[|order| - 1], levels)
  }

  /** Whatever the order of visits, the parts add up to the answer. */
  lemma AnyOrder(t: Trie, order: seq<string>, levels: seq<string>)
    requires levels != [] && IsOrder(order, t.kids.Keys)
    ensures SumParts(t, order, levels) == Answer(t, levels)
  {
    SumIsVisited(t, order, t.kids.Keys, levels);
    AllVisited(t, levels);
  }

  lemma {:induction false} SumIsVisited(t: Trie, order: seq<string>, done: set<string>, levels: seq<string>)
    requires levels != [] && IsOrder(order, done)
    ensures SumParts(t, order, levels) == Visited(t, done, levels)
  {
    if order == [] {
      assert done == {};
    } else {
      var init, k := order[..|order| - 1], order[|order| - 1];
      OrderInit(order, done);
      SumIsVisited(t, init, done - {k}, levels);
      VisitOne(t, done - {k}, k, levels);
      assert done - {k} + {k} == done;
    }
  }

  class SubNode {
    var subs: seq<Subscription>
    var qos: seq<nat>
    var snodes: map<string, SubNode>

    ghost var tree: Trie
    ghost var Repr: set<object>

    /** The nodes form a tree, `subs` and `qos` run in parallel, and `tree` is the value of
        the whole subtree. */
    ghost predicate Valid()
      reads this, Repr
      ensures Valid() ==> this in Repr
      decreases Repr, 0
    {
      && this in Repr
      && |subs| == |qos| && tree.list == Zip(subs, qos)
      && Below(snodes, tree.kids, Repr - {this})
    }

    /** The children are separate subtrees with the given values. */
    static ghost predicate Below(snodes: map<string, SubNode>, kids: map<string, Trie>, below: set<object>)
      reads below
      decreases below, 1
    {
      && kids.Keys == snodes.Keys
      && (forall k :: k in snodes ==>
            snodes[k] in below && snodes[k].Repr <= below && snodes[k].Valid() && snodes[k].tree == kids[k])
      && (forall j, k :: j in snodes && k in snodes && j != k ==> snodes[j].Repr !! snodes[k].Repr)
    }

    constructor ()
      ensures Valid() && fresh(Repr) && tree == EMPTY
    {
      subs, qos, snodes := [], [], map[];
      tree, Repr := EMPTY, {this};
    }

    /** The position of a subscriber in `subs`, by the loop both `sinsert` and `sremove` run. */
    method IndexOf(sub: Subscription) returns (i: nat)
      requires |subs| == |qos|
      ensures i == Find(Zip(subs, qos), sub)
    {
      i := 0;
      while i < |subs|
        invariant i <= |subs|
        invariant forall j :: 0 <= j < i ==> subs[j] != sub
      {
        if subs[i] == sub { break; }
        i := i + 1;
      }
      ghost var f := Find(Zip(subs, qos), sub);
      assert f < |subs| ==> subs[f] == sub;
      assert i < |subs| ==> Zip(subs, qos)[i].sub == sub;
    }

    method PutHere(q: nat, sub: Subscription)
      requires Valid()
      modifies this
      ensures Valid() && Repr == old(Repr)
      ensures tree == old(tree).(list := Upsert(old(tree).list, sub, q))
    {
      var i := IndexOf(sub);
      ZipUpsert(subs, qos, sub, q);
      tree := tree.(list := Upsert(tree.list, sub, q));
      if i < |subs| {
        qos := qos[i := q];
      } else {
        subs, qos := subs + [sub], qos + [q];
      }
    }

    /** A new separate subtree can be added as a child. */
    static lemma AddChild(snodes: map<string, SubNode>, kids: map<string, Trie>, below: set<object>, k: string, n: SubNode)
      requires Below(snodes, kids, below) && k !in snodes && n.Valid() && n.Repr !! below
      ensures Below(snodes[k := n], kids[k := n.tree], below + n.Repr)
    {}

    /** The children but `k` are separate subtrees with the given values, away from a region. */
    static ghost predicate Others(snodes: map<string, SubNode>, kids: map<string, Trie>, below: set<object>, k: string, region: set<object>)
      reads below
    {
      && kids.Keys == snodes.Keys
      && (forall j :: j in snodes && j != k ==>
            snodes[j] in below && snodes[j].Repr <= below && snodes[j].Valid() && snodes[j].tree == kids[j] && snodes[j].Repr !! region)
      && (forall i, j :: i in snodes && j in snodes && i != k && j != k && i != j ==> snodes[i].Repr !! snodes[j].Repr)
    }

    /** A method that changed one child's subtree only left the other children as they were. */
    twostate lemma OthersKept(k: string)
      requires old(Valid()) && unchanged(this) && k in snodes
      requires unchanged(Repr - old(snodes[k].Repr))
      ensures Others(snodes, tree.kids, Repr - {this}, k, old(snodes[k].Repr))
    {
      forall j | j in snodes && j != k ensures unchanged(snodes[j]) && snodes[j].Valid() {
        assert old(snodes[j].Valid()) && old(snodes[j].Repr) <= Repr - old(snodes[k].Repr);
      }
    }

    /** A valid child that only grew out of its region joins the others again. */
    static lemma Rejoin(snodes: map<string, SubNode>, kids: map<string, Trie>, below: set<object>, k: string, region: set<object>)
      requires k in snodes && snodes[k].Valid() && snodes[k].Repr * below <= region
      requires Others(snodes, kids, below, k, region)
      ensures Below(snodes, kids[k := snodes[k].tree], below + snodes[k].Repr)
    {}

    /** If it also kept that child valid, the children are separate as before. */
    twostate lemma ChildChanged(k: string)
      requires old(Valid()) && unchanged(this) && k in snodes
      requires unchanged(Repr - old(snodes[k].Repr))
      requires snodes[k].Valid() && fresh(snodes[k].Repr - old(snodes[k].Repr))
      requires this !in snodes[k].Repr
      ensures Below(snodes, tree.kids[k := snodes[k].tree], Repr + snodes[k].Repr - {this})
    {
      OthersKept(k);
      Rejoin(snodes, tree.kids, Repr - {this}, k, old(snodes[k].Repr));
      assert Repr - {this} + snodes[k].Repr == Repr + snodes[k].Repr - {this};
    }

    /** Find or create the child of a level. */
    method Child(level: string) returns (n: SubNode)
      requires Valid()
      modifies this
      ensures Valid() && fresh(Repr - old(Repr))
      ensures level in snodes && n == snodes[level]
      ensures tree == old(tree).(kids := old(tree).kids[level := Kid(old(tree), level)])
    {
      if level !in snodes {
        n := new SubNode();
        AddChild(snodes, tree.kids, Repr - {this}, level, n);
        snodes := snodes[level := n];
        tree := tree.(kids := tree.kids[level := EMPTY]);
        assert Repr - {this} + n.Repr == Repr + n.Repr - {this};
        Repr := Repr + n.Repr;
      } else {
        n := snodes[level];
        assert tree.kids == tree.kids[level := Kid(tree, level)];
      }
    }

    /** `sinsert`. */
    method Insert(topic: string, q: nat, sub: Subscription) returns (ok: bool)
      requires Valid()
      modifies Repr
      ensures Valid() && fresh(Repr - old(Repr))
      ensures ok == Tokenize(topic).ok
      ensures tree == SubTrie.Insert(old(tree), Tokenize(topic).levels, ok, sub, q)
      decreases |topic|, 0
    {
      if topic == "" {
        PutHere(q, sub);
        return true;
      }
      var next := NextTopicLevel(topic);
      if next.Bad? {
        return false;
      }
      TokenizeStep(topic);
      ok := InsertAtLevel(next.level, next.rem, q, sub);
    }

    method InsertAtLevel(level: string, rem: string, q: nat, sub: Subscription) returns (ok: bool)
      requires Valid()
      modifies Repr
      ensures Valid() && fresh(Repr - old(Repr))
      ensures ok == Tokenize(rem).ok
      ensures tree == old(tree).(kids := old(tree).kids[level := SubTrie.Insert(Kid(old(tree), level), Tokenize(rem).levels, ok, sub, q)])
      decreases |rem|, 2
    {
      ghost var kid := Kid(tree, level);
      var n := Child(level);
      assert Kid(tree, level) == kid;
      ok := InsertInto(n, level, rem, q, sub);
      PutTwice(old(tree).kids, level, kid, tree.kids[level]);
    }

    method InsertInto(n: SubNode, level: string, rem: string, q: nat, sub: Subscription) returns (ok: bool)
      requires Valid() && level in snodes && n == snodes[level]
      modifies Repr
      ensures Valid() && fresh(Repr - old(Repr))
      ensures ok == Tokenize(rem).ok
      ensures tree == old(tree).(kids := old(tree).kids[level := SubTrie.Insert(Kid(old(tree), level), Tokenize(rem).levels, ok, sub, q)])
      decreases |rem|, 1
    {
      assert n.Valid() && n.Repr <= Repr - {this};
      ok := n.Insert(rem, q, sub);
      ChildChanged(level);
      tree := tree.(kids := tree.kids[level := n.tree]);
      Repr := Repr + n.Repr;
    }

    method DropHere(who: Option<Subscription>) returns (ok: bool)
      requires Valid()
      modifies this
      ensures Valid() && Repr == old(Repr)
      ensures ok == SubTrie.Remove(old(tree), [], true, who).Some?
      ensures tree == if ok then SubTrie.Remove(old(tree), [], true, who).value else old(tree)
    {
      if who.None? {
        subs, qos := [], [];
        tree := tree.(list := []);
        return true;
      }
      var i := IndexOf(who.value);
      if i == |subs| {
        return false;
      }
      ZipWithout(subs, qos, i);
      tree := tree.(list := Without(tree.list, who.value));
      subs, qos := subs[..i] + subs[i + 1..], qos[..i] + qos[i + 1..];
      return true;
    }

    /** `sremove`. */
    method Remove(topic: string, who: Option<Subscription>) returns (ok: bool)
      requires Valid()
      modifies Repr
      ensures Valid() && Repr == old(Repr)
      ensures ok == SubTrie.Remove(old(tree), Tokenize(topic).levels, Tokenize(topic).ok, who).Some?
      ensures tree == if ok then SubTrie.Remove(old(tree), Tokenize(topic).levels, Tokenize(topic).ok, who).value
                      else old(tree)
      decreases |topic|, 0
    {
      if topic == "" {
        ok := DropHere(who);
        return;
      }
      var next := NextTopicLevel(topic);
      if next.Bad? {
        return false;
      }
      TokenizeStep(topic);
      if next.level !in snodes {
        return false;
      }
      ok := RemoveAtLevel(next.level, next.rem, who);
    }

    method RemoveAtLevel(level: string, rem: string, who: Option<Subscription>) returns (ok: bool)
      requires Valid() && level in snodes
      modifies Repr
      ensures Valid() && Repr == old(Repr)
      ensures ok == SubTrie.Remove(Kid(old(tree), level), Tokenize(rem).levels, Tokenize(rem).ok, who).Some?
      ensures if ok then
          var m := SubTrie.Remove(Kid(old(tree), level), Tokenize(rem).levels, Tokenize(rem).ok, who).value;
          tree == old(tree).(kids := if Bare(m) then old(tree).kids - {level} else old(tree).kids[level := m])
        else tree == old(tree)
      decreases |rem|, 2
    {
      ok := RemoveFrom(snodes[level], level, rem, who);
      if ok {
        PutThenDrop(old(tree).kids, level, tree.kids[level]);
        Prune(level);
      }
    }

    method RemoveFrom(n: SubNode, level: string, rem: string, who: Option<Subscription>) returns (ok: bool)
      requires Valid() && level in snodes && n == snodes[level]
      modifies Repr
      ensures Valid() && Repr == old(Repr) && level in snodes
      ensures ok == SubTrie.Remove(Kid(old(tree), level), Tokenize(rem).levels, Tokenize(rem).ok, who).Some?
      ensures if ok then
          tree == old(tree).(kids := old(tree).kids[level := SubTrie.Remove(Kid(old(tree), level), Tokenize(rem).levels, Tokenize(rem).ok, who).value])
        else tree == old(tree)
      decreases |rem|, 1
    {
      assert n.Valid() && n.Repr <= Repr - {this};
      ok := n.Remove(rem, who);
      ChildChanged(level);
      assert Repr + n.Repr - {this} == Repr - {this};
      assert !ok ==> tree.kids == tree.kids[level := n.tree];
      tree := tree.(kids := tree.kids[level := n.tree]);
    }

    /** Remove a child that is left without subscribers and children. */
    method Prune(level: string)
      requires Valid() && level in snodes
      modifies this
      ensures Valid() && Repr == old(Repr)
      ensures tree == old(tree).(kids := if Bare(Kid(old(tree), level)) then old(tree).kids - {level} else old(tree).kids)
    {
      var n := snodes[level];
      assert n.Valid() && n.tree == tree.kids[level];
      assert Below(n.snodes, n.tree.kids, n.Repr - {n});
      assert n.tree.kids == map[] <==> n.tree.kids.Keys == {};
      if |n.subs| == 0 && n.snodes.Keys == {} {
        snodes := snodes - {level};
        tree := tree.(kids := tree.kids - {level});
      }
    }

    /** `matchQos`: every subscriber of this node, each with the QoS of the publication. */
    method MatchQos(q: nat, subs0: seq<Subscription>, qoss0: seq<nat>)
      returns (subs': seq<Subscription>, qoss': seq<nat>)
      requires Parallel(qoss0, q, |subs0|)
      requires Valid()
      ensures multiset(subs') == multiset(subs0) + Bag(tree.list)
      ensures Parallel(qoss', q, |subs'|)
    {
      subs', qoss' := subs0, qoss0;
      for i := 0 to |subs|
        invariant subs' == subs0 + subs[..i]
        invariant Parallel(qoss', q, |subs'|)
      {
        assert subs[..i + 1] == subs[..i] + [subs[i]];
        subs', qoss' := subs' + [subs[i]], qoss' + [q];
      }
      assert subs[..|subs|] == subs && Subs(tree.list) == subs;
    }

    /** `smatch`: the subscribers of every node that the topic reaches, in the order of the
        map iterations, and as many QoS values beside them. */
    method Match(topic: string, q: nat, subs0: seq<Subscription>, qoss0: seq<nat>)
      returns (ok: bool, subs': seq<Subscription>, qoss': seq<nat>)
      requires Parallel(qoss0, q, |subs0|)
      requires Valid()
      ensures ok <==> !AnswerFails(tree, Tokenize(topic).levels, Tokenize(topic).ok)
      ensures ok ==> multiset(subs') == multiset(subs0) + Answer(tree, Tokenize(topic).levels)
      ensures Parallel(qoss', q, |subs'|)
      decreases |topic|, 0
    {
      if topic == "" {
        subs', qoss' := MatchQos(q, subs0, qoss0);
        if MWC in snodes {
          subs', qoss' := snodes[MWC].MatchQos(q, subs', qoss');
        }
        return true, subs', qoss';
      }
      var next := NextTopicLevel(topic);
      if next.Bad? {
        return false, subs0, qoss0;
      }
      TokenizeStep(topic);
      ok, subs', qoss' := MatchChildren(Tokenize(topic).levels, next.level, next.rem, q, subs0, qoss0);
    }

    method VisitChild(k: string, ghost levels: seq<string>, level: string, rem: string, q: nat,
                      subs0: seq<Subscription>, qoss0: seq<nat>)
      returns (ok: bool, subs': seq<Subscription>, qoss': seq<nat>)
      requires Parallel(qoss0, q, |subs0|)
      requires Valid() && k in snodes && levels == [level] + Tokenize(rem).levels
      ensures ok <==> !PartFails(tree, k, levels, Tokenize(rem).ok)
      ensures ok ==> multiset(subs') == multiset(subs0) + Part(tree, k, levels)
      ensures Parallel(qoss', q, |subs'|)
      decreases |rem|, 1
    {
      if k == MWC {
        subs', qoss' := snodes[k].MatchQos(q, subs0, qoss0);
        ok := true;
      } else if k == SWC || k == level {
        ok, subs', qoss' := snodes[k].Match(rem, q, subs0, qoss0);
      } else {
        ok, subs', qoss' := true, subs0, qoss0;
      }
    }

    method MatchChildren(ghost levels: seq<string>, level: string, rem: string, q: nat, subs0: seq<Subscription>, qoss0: seq<nat>)
      returns (ok: bool, subs': seq<Subscription>, qoss': seq<nat>)
      requires Parallel(qoss0, q, |subs0|)
      requires Valid() && levels == [level] + Tokenize(rem).levels
      ensures ok <==> !AnswerFails(tree, levels, Tokenize(rem).ok)
      ensures ok ==> multiset(subs') == multiset(subs0) + Answer(tree, levels)
      ensures Parallel(qoss', q, |subs'|)
      decreases |rem|, 3
    {
      ghost var order;
      ok, subs', qoss', order := VisitChildren(levels, level, rem, q, subs0, qoss0);
      FailsInSomePart(tree, levels, Tokenize(rem).ok);
      if ok {
        AnyOrder(tree, order, levels);
      }
    }

    method VisitChildren(ghost levels: seq<string>, level: string, rem: string, q: nat, subs0: seq<Subscription>, qoss0: seq<nat>)
      returns (ok: bool, subs': seq<Subscription>, qoss': seq<nat>, ghost order: seq<string>)
      requires Parallel(qoss0, q, |subs0|)
      requires Valid() && levels == [level] + Tokenize(rem).levels
      ensures ok <==> forall k :: k in tree.kids ==> !PartFails(tree, k, levels, Tokenize(rem).ok)
      ensures ok ==> IsOrder(order, tree.kids.Keys) && multiset(subs') == multiset(subs0) + SumParts(tree, order, levels)
      ensures Parallel(qoss', q, |subs'|)
      decreases |rem|, 2
    {
      var todo := snodes.Keys;
      ghost var keys := tree.kids.Keys;
      assert keys == snodes.Keys;
      subs', qoss', order := subs0, qoss0, [];
      while todo != {}
        invariant todo <= keys && IsOrder(order, keys - todo)
        invariant multiset(subs') == multiset(subs0) + SumParts(tree, order, levels)
        invariant Parallel(qoss', q, |subs'|)
        invariant forall k :: k in order ==> !PartFails(tree, k, levels, Tokenize(rem).ok)
        decreases todo
      {
        var k :| k in todo;
        ok, subs', qoss' := VisitChild(k, levels, level, rem, q, subs', qoss');
        if !ok {
          return;
        }
        todo, order := todo - {k}, order + [k];
      }
      assert keys - todo == keys;
      return true, subs', qoss', order;
    }
  }
}
