/** The retained-message trie as nodes that are changed in place, proved against `RetTrie`. */
module RetNodes {
  import opened Prelude
  import opened TopicLevels
  import opened RetTrie

  type Path = seq<string>

  // ---------------------------------------------------------------- collected messages

  /** The enumeration, restricted to the children visited so far. */
  ghost predicate Covers(t: Trie, filter: seq<string>, paths: seq<Path>, done: set<string>) {
    NoDuplicates(paths) && forall p :: p in paths <==> p != [] && p[0] in done && Found(t, filter, p)
  }

  function Under(k: string, paths: seq<Path>): seq<Path> {
    seq(|paths|, i requires 0 <= i < |paths| => [k] + paths[i])
  }

  lemma UnderMember(k: string, paths: seq<Path>, p: Path)
    ensures p in Under(k, paths) <==> p != [] && p[0] == k && p[1..] in paths
  {
    if p in Under(k, paths) {
      var i :| 0 <= i < |paths| && Under(k, paths)[i] == p;
      assert p[1..] == paths[i];
    }
    if p != [] && p[0] == k && p[1..] in paths {
      var i :| 0 <= i < |paths| && paths[i] == p[1..];
      assert Under(k, paths)[i] == p;
    }
  }

  lemma UnderNoDuplicates(k: string, paths: seq<Path>)
    requires NoDuplicates(paths)
    ensures NoDuplicates(Under(k, paths))
  {
    forall i, j | 0 <= i < j < |paths| ensures Under(k, paths)[i] != Under(k, paths)[j] {
      assert Under(k, paths)[i][1..] == paths[i] && Under(k, paths)[j][1..] == paths[j];
    }
  }

  /** Below every child the filter goes on as `rest`. */
  ghost predicate GoesOn(t: Trie, filter: seq<string>, rest: seq<string>, k: string) {
    k in t.kids && forall p :: Found(t, filter, [k] + p) <==> Found(t.kids[k], rest, p)
  }

  lemma CoverChild(t: Trie, filter: seq<string>, rest: seq<string>, paths: seq<Path>, done: set<string>, k: string, ps: seq<Path>)
    requires GoesOn(t, filter, rest, k) && Covers(t, filter, paths, done) && k !in done
    requires Enumerates(t.kids[k], rest, ps)
    ensures Covers(t, filter, paths + Under(k, ps), done + {k})
  {
    UnderNoDuplicates(k, ps);
    var all := paths + Under(k, ps);
    forall p ensures p in all <==> p != [] && p[0] in done + {k} && Found(t, filter, p) {
      UnderMember(k, ps, p);
      assert p in all <==> p in paths || p in Under(k, ps);
      if p != [] { assert p == [p[0]] + p[1..]; }
    }
    forall i, j | 0 <= i < j < |all| ensures all[i] != all[j] {
      if i < |paths| <= j {
        UnderMember(k, ps, all[j]);
        assert all[j] == Under(k, ps)[j - |paths|];
        assert all[i] in paths;
      }
    }
  }

  lemma ListChild(t: Trie, paths: seq<Path>, got: seq<PublishPacket>, k: string, ps: seq<Path>, more: seq<PublishPacket>)
    requires k in t.kids && Lists(t, paths, got) && Lists(t.kids[k], ps, more)
    ensures Lists(t, paths + Under(k, ps), got + more)
  {}

  lemma GoesOnWildcard(t: Trie, filter: seq<string>, k: string)
    requires k in t.kids && filter != [] && (filter[0] == MWC || filter[0] == SWC || filter[0] == k)
    requires filter[0] == MWC ==> filter == [MWC]
    ensures GoesOn(t, filter, if filter[0] == MWC then filter else filter[1..], k)
  {}

  lemma NothingElsewhere(t: Trie, filter: seq<string>, p: Path)
    requires filter != [] && p != [] && p[0] !in t.kids
    ensures !Found(t, filter, p)
  {
    AtEmpty(p[1..]);
  }

  lemma CoverAll(t: Trie, filter: seq<string>, paths: seq<Path>)
    requires Covers(t, filter, paths, t.kids.Keys) && filter != []
    ensures filter[0] != MWC ==> Enumerates(t, filter, paths)
    ensures filter[0] == MWC && t.msg.None? ==> Enumerates(t, filter, paths)
    ensures filter[0] == MWC && t.msg.Some? ==> Enumerates(t, filter, [[]] + paths)
  {
    forall p: Path | p != [] ensures p in paths <==> Found(t, filter, p) {
      if p[0] !in t.kids { NothingElsewhere(t, filter, p); }
    }
    assert [] !in paths;
    assert Found(t, filter, []) <==> filter[0] == MWC && t.msg.Some?;
    var all := [[]] + paths;
    assert all[0] == [] && forall i :: 0 < i < |all| ==> all[i] == paths[i - 1] && paths[i - 1] in paths;
    forall p: Path ensures p in all <==> p == [] || p in paths {
      if p in paths {
        var i :| 0 <= i < |paths| && paths[i] == p;
        assert all[i + 1] == p;
      }
    }
  }

  // ---------------------------------------------------------------- the nodes

  class RetNode {
    var msg: Option<PublishPacket>
    var rnodes: map<string, RetNode>

    ghost var tree: Trie
    ghost var Repr: set<object>

    ghost predicate Valid()
      reads this, Repr
      ensures Valid() ==> this in Repr
      decreases Repr, 0
    {
      this in Repr && tree.msg == msg && Below(rnodes, tree.kids, Repr - {this})
    }

    /** The children are separate subtrees with the given values. */
    static ghost predicate Below(rnodes: map<string, RetNode>, kids: map<string, Trie>, below: set<object>)
      reads below
      decreases below, 1
    {
      && kids.Keys == rnodes.Keys
      && (forall k :: k in rnodes ==>
            rnodes[k] in below && rnodes[k].Repr <= below && rnodes[k].Valid() && rnodes[k].tree == kids[k])
      && (forall j, k :: j in rnodes && k in rnodes && j != k ==> rnodes[j].Repr !! rnodes[k].Repr)
    }

    constructor ()
      ensures Valid() && fresh(Repr) && tree == EMPTY
    {
      msg, rnodes := None, map[];
      tree, Repr := EMPTY, {this};
    }

    static lemma AddChild(rnodes: map<string, RetNode>, kids: map<string, Trie>, below: set<object>, k: string, n: RetNode)
      requires Below(rnodes, kids, below) && k !in rnodes && n.Valid() && n.Repr !! below
      ensures Below(rnodes[k := n], kids[k := n.tree], below + n.Repr)
    {}

    /** The children but `k` are separate subtrees with the given values, away from a region. */
    static ghost predicate Others(rnodes: map<string, RetNode>, kids: map<string, Trie>, below: set<object>, k: string, region: set<object>)
      reads below
    {
      && kids.Keys == rnodes.Keys
      && (forall j :: j in rnodes && j != k ==>
            rnodes[j] in below && rnodes[j].Repr <= below && rnodes[j].Valid() && rnodes[j].tree == kids[j] && rnodes[j].Repr !! region)
      && (forall i, j :: i in rnodes && j in rnodes && i != k && j != k && i != j ==> rnodes[i].Repr !! rnodes[j].Repr)
    }

    /** A method that changed one child's subtree only left the other children as they were. */
    twostate lemma OthersKept(k: string)
      requires old(Valid()) && unchanged(this) && k in rnodes
      requires unchanged(Repr - old(rnodes[k].Repr))
      ensures Others(rnodes, tree.kids, Repr - {this}, k, old(rnodes[k].Repr))
    {
      forall j | j in rnodes && j != k ensures unchanged(rnodes[j]) && rnodes[j].Valid() {
        assert old(rnodes[j].Valid()) && old(rnodes[j].Repr) <= Repr - old(rnodes[k].Repr);
      }
    }

    /** A valid child that only grew out of its region joins the others again. */
    static lemma Rejoin(rnodes: map<string, RetNode>, kids: map<string, Trie>, below: set<object>, k: string, region: set<object>)
      requires k in rnodes && rnodes[k].Valid() && rnodes[k].Repr * below <= region
      requires Others(rnodes, kids, below, k, region)
      ensures Below(rnodes, kids[k := rnodes[k].tree], below + rnodes[k].Repr)
    {}

    /** If it also kept that child valid, the children are separate as before. */
    twostate lemma ChildChanged(k: string)
      requires old(Valid()) && unchanged(this) && k in rnodes
      requires unchanged(Repr - old(rnodes[k].Repr))
      requires rnodes[k].Valid() && fresh(rnodes[k].Repr - old(rnodes[k].Repr))
      requires this !in rnodes[k].Repr
      ensures Below(rnodes, tree.kids[k := rnodes[k].tree], Repr + rnodes[k].Repr - {this})
    {
      OthersKept(k);
      Rejoin(rnodes, tree.kids, Repr - {this}, k, old(rnodes[k].Repr));
      assert Repr - {this} + rnodes[k].Repr == Repr + rnodes[k].Repr - {this};
    }

    method Child(level: string) returns (n: RetNode)
      requires Valid()
      modifies this
      ensures Valid() && fresh(Repr - old(Repr))
      ensures level in rnodes && n == rnodes[level]
      ensures tree == old(tree).(kids := old(tree).kids[level := Kid(old(tree), level)])
    {
      if level !in rnodes {
        n := new RetNode();
        AddChild(rnodes, tree.kids, Repr - {this}, level, n);
        rnodes := rnodes[level := n];
        tree := tree.(kids := tree.kids[level := EMPTY]);
        assert Repr - {this} + n.Repr == Repr + n.Repr - {this};
        Repr := Repr + n.Repr;
      } else {
        n := rnodes[level];
        assert tree.kids == tree.kids[level := Kid(tree, level)];
      }
    }

    /** `rinsertOrUpdate`. */
    method Insert(topic: string, m: PublishPacket) returns (ok: bool)
      requires Valid()
      modifies Repr
      ensures Valid() && fresh(Repr - old(Repr))
      ensures ok == Tokenize(topic).ok
      ensures tree == RetTrie.Insert(old(tree), Tokenize(topic).levels, ok, m)
      decreases |topic|, 0
    {
      if topic == "" {
        msg := Some(m);
        tree := tree.(msg := msg);
        return true;
      }
      var next := NextTopicLevel(topic);
      if next.Bad? {
        return false;
      }
      TokenizeStep(topic);
      ok := InsertAtLevel(next.level, next.rem, m);
    }

    method InsertAtLevel(level: string, rem: string, m: PublishPacket) returns (ok: bool)
      requires Valid()
      modifies Repr
      ensures Valid() && fresh(Repr - old(Repr))
      ensures ok == Tokenize(rem).ok
      ensures tree == old(tree).(kids := old(tree).kids[level := RetTrie.Insert(Kid(old(tree), level), Tokenize(rem).levels, ok, m)])
      decreases |rem|, 2
    {
      ghost var kid := Kid(tree, level);
      var n := Child(level);
      assert Kid(tree, level) == kid;
      ok := InsertInto(n, level, rem, m);
      PutTwice(old(tree).kids, level, kid, tree.kids[level]);
    }

    method InsertInto(n: RetNode, level: string, rem: string, m: PublishPacket) returns (ok: bool)
      requires Valid() && level in rnodes && n == rnodes[level]
      modifies Repr
      ensures Valid() && fresh(Repr - old(Repr))
      ensures ok == Tokenize(rem).ok
      ensures tree == old(tree).(kids := old(tree).kids[level := RetTrie.Insert(Kid(old(tree), level), Tokenize(rem).levels, ok, m)])
      decreases |rem|, 1
    {
      assert n.Valid() && n.Repr <= Repr - {this};
      ok := n.Insert(rem, m);
      ChildChanged(level);
      tree := tree.(kids := tree.kids[level := n.tree]);
      Repr := Repr + n.Repr;
    }

    /** `rremove`. */
    method Remove(topic: string) returns (ok: bool)
      requires Valid()
      modifies Repr
      ensures Valid() && Repr == old(Repr)
      ensures ok == RetTrie.Remove(old(tree), Tokenize(topic).levels, Tokenize(topic).ok).Some?
      ensures tree == if ok then RetTrie.Remove(old(tree), Tokenize(topic).levels, Tokenize(topic).ok).value else old(tree)
      decreases |topic|, 0
    {
      if topic == "" {
        msg := None;
        tree := tree.(msg := None);
        return true;
      }
      var next := NextTopicLevel(topic);
      if next.Bad? {
        return false;
      }
      TokenizeStep(topic);
      if next.level !in rnodes {
        return false;
      }
      ok := RemoveAtLevel(next.level, next.rem);
    }

    method RemoveAtLevel(level: string, rem: string) returns (ok: bool)
      requires Valid() && level in rnodes
      modifies Repr
      ensures Valid() && Repr == old(Repr)
      ensures ok == RetTrie.Remove(Kid(old(tree), level), Tokenize(rem).levels, Tokenize(rem).ok).Some?
      ensures if ok then
          var m := RetTrie.Remove(Kid(old(tree), level), Tokenize(rem).levels, Tokenize(rem).ok).value;
          tree == old(tree).(kids := if m.kids == map[] then old(tree).kids - {level} else old(tree).kids[level := m])
        else tree == old(tree)
      decreases |rem|, 2
    {
      ok := RemoveFrom(rnodes[level], level, rem);
      if ok {
        PutThenDrop(old(tree).kids, level, tree.kids[level]);
        Prune(level);
      }
    }

    method RemoveFrom(n: RetNode, level: string, rem: string) returns (ok: bool)
      requires Valid() && level in rnodes && n == rnodes[level]
      modifies Repr
      ensures Valid() && Repr == old(Repr) && level in rnodes
      ensures ok == RetTrie.Remove(Kid(old(tree), level), Tokenize(rem).levels, Tokenize(rem).ok).Some?
      ensures if ok then
          tree == old(tree).(kids := old(tree).kids[level := RetTrie.Remove(Kid(old(tree), level), Tokenize(rem).levels, Tokenize(rem).ok).value])
        else tree == old(tree)
      decreases |rem|, 1
    {
      assert n.Valid() && n.Repr <= Repr - {this};
      ok := n.Remove(rem);
      ChildChanged(level);
      assert Repr + n.Repr - {this} == Repr - {this};
      assert !ok ==> tree.kids == tree.kids[level := n.tree];
      tree := tree.(kids := tree.kids[level := n.tree]);
    }

    /** Remove a child that is left without children; its message is not looked at. */
    method Prune(level: string)
      requires Valid() && level in rnodes
      modifies this
      ensures Valid() && Repr == old(Repr)
      ensures tree == old(tree).(kids := if Kid(old(tree), level).kids == map[] then old(tree).kids - {level} else old(tree).kids)
    {
      var n := rnodes[level];
      assert n.Valid() && n.tree == tree.kids[level];
      assert Below(n.rnodes, n.tree.kids, n.Repr - {n});
      assert n.tree.kids == map[] <==> n.tree.kids.Keys == {};
      if n.rnodes.Keys == {} {
        rnodes := rnodes - {level};
        tree := tree.(kids := tree.kids - {level});
      }
    }

    /** `allRetained`: every message at or below this node. */
    method AllRetained() returns (got: seq<PublishPacket>, ghost paths: seq<Path>)
      requires Valid()
      ensures Lists(tree, paths, got) && Enumerates(tree, [MWC], paths)
      decreases Repr
    {
      got := if msg.Some? then [msg.value] else [];
      ghost var here: seq<Path> := if msg.Some? then [[]] else [];
      var todo := rnodes.Keys;
      ghost var keys := tree.kids.Keys;
      assert keys == rnodes.Keys;
      var below;
      below, paths := [], [];
      while todo != {}
        invariant todo <= keys
        invariant Lists(tree, paths, below) && Covers(tree, [MWC], paths, keys - todo)
        decreases todo
      {
        var k :| k in todo;
        assert rnodes[k].Repr <= Repr - {this};
        var more; ghost var ps;
        more, ps := rnodes[k].AllRetained();
        GoesOnWildcard(tree, [MWC], k);
        CoverChild(tree, [MWC], [MWC], paths, keys - todo, k, ps);
        ListChild(tree, paths, below, k, ps, more);
        assert keys - todo + {k} == keys - (todo - {k});
        below, paths, todo := below + more, paths + Under(k, ps), todo - {k};
      }
      assert keys - todo == keys;
      CoverAll(tree, [MWC], paths);
      got, paths := got + below, here + paths;
    }

    /** `rmatch`. */
    method Match(filter: string) returns (ok: bool, got: seq<PublishPacket>, ghost paths: seq<Path>)
      requires Valid()
      ensures ok <==> !FindFails(tree, Tokenize(filter).levels, Tokenize(filter).ok)
      ensures ok ==> Lists(tree, paths, got) && Enumerates(tree, Tokenize(filter).levels, paths)
      decreases |filter|, 0
    {
      if filter == "" {
        if msg.Some? {
          return true, [msg.value], [[]];
        }
        return true, [], [];
      }
      var next := NextTopicLevel(filter);
      if next.Bad? {
        return false, [], [];
      }
      TokenizeStep(filter);
      TokenizePathOk(filter);
      ghost var levels := Tokenize(filter).levels;
      if next.level == MWC {
        assert levels == [MWC] by { assert levels[0] == MWC && next.rem == ""; }
        got, paths := AllRetained();
        ok := true;
      } else if next.level == SWC {
        ok, got, paths := MatchEvery(levels, next.rem);
      } else if next.level in rnodes {
        ghost var ps;
        ok, got, ps := rnodes[next.level].Match(next.rem);
        paths := Under(next.level, ps);
        if ok { OneChild(tree, levels, next.level, ps, got); }
      } else {
        ok, got, paths := true, [], [];
      }
    }

    /** The `+` case: every child, in some order. */
    method MatchEvery(ghost levels: seq<string>, rem: string) returns (ok: bool, got: seq<PublishPacket>, ghost paths: seq<Path>)
      requires Valid() && levels == [SWC] + Tokenize(rem).levels
      ensures ok <==> !FindFails(tree, levels, Tokenize(rem).ok)
      ensures ok ==> Lists(tree, paths, got) && Enumerates(tree, levels, paths)
      decreases |rem|, 1
    {
      var todo := rnodes.Keys;
      ghost var keys := tree.kids.Keys;
      assert keys == rnodes.Keys;
      assert SWC[0] != MWC[0];
      got, paths := [], [];
      while todo != {}
        invariant todo <= keys
        invariant Lists(tree, paths, got) && Covers(tree, levels, paths, keys - todo)
        invariant forall k :: k in keys - todo ==> !FindFails(tree.kids[k], levels[1..], Tokenize(rem).ok)
        decreases todo
      {
        var k :| k in todo;
        var more; ghost var ps;
        ok, more, ps := rnodes[k].Match(rem);
        if !ok {
          return;
        }
        GoesOnWildcard(tree, levels, k);
        CoverChild(tree, levels, levels[1..], paths, keys - todo, k, ps);
        ListChild(tree, paths, got, k, ps, more);
        assert keys - todo + {k} == keys - (todo - {k});
        got, paths, todo := got + more, paths + Under(k, ps), todo - {k};
      }
      assert keys - todo == keys;
      CoverAll(tree, levels, paths);
      return true, got, paths;
    }
  }

  lemma OneChild(t: Trie, levels: seq<string>, k: string, ps: seq<Path>, got: seq<PublishPacket>)
    requires k in t.kids && levels != [] && levels[0] == k && k != MWC && k != SWC
    requires Enumerates(t.kids[k], levels[1..], ps) && Lists(t.kids[k], ps, got)
    ensures Lists(t, Under(k, ps), got) && Enumerates(t, levels, Under(k, ps))
  {
    UnderNoDuplicates(k, ps);
    forall p ensures p in Under(k, ps) <==> Found(t, levels, p) {
      UnderMember(k, ps, p);
    }
    ListChild(t, [], [], k, ps, got);
    assert [] + Under(k, ps) == Under(k, ps) && [] + got == got;
  }
}
