/** Every run of Retain with well-formed topics against a flat map from topic paths to
    messages: what clearing loses, said without the trie. */
module RetainedRuns {
  import opened Prelude
  import opened TopicLevels
  import opened RetTrie

  type Table = map<seq<string>, PublishPacket>

  // ---------------------------------------------------------------- the flat map

  /** Clearing `p` also loses its ancestor `x` if everything retained at or below `x` lies on
      the way to `p`. */
  ghost predicate LostWith(m: Table, p: seq<string>, x: seq<string>) {
    p in m && 0 < |x| < |p| && x <= p && forall q :: q in m && x <= q ==> q <= p
  }

  ghost function ClearTopic(m: Table, p: seq<string>): Table {
    map x | x in m && x != p && !LostWith(m, p, x) :: m[x]
  }

  ghost function TableRetain(m: Table, msg: PublishPacket): Table {
    var p := Tokenize(msg.topicName).levels;
    if msg.payload == "" then ClearTopic(m, p) else m[p := msg]
  }

  /** Clearing succeeds for the empty topic and where something is retained at or below. */
  ghost predicate TableRetainOk(m: Table, msg: PublishPacket) {
    var p := Tokenize(msg.topicName).levels;
    msg.payload == "" ==> p == [] || exists q :: q in m && p <= q
  }

  function TrieRun(msgs: seq<PublishPacket>): Trie {
    if msgs == [] then EMPTY else AfterRetain(TrieRun(msgs[..|msgs| - 1]), msgs[|msgs| - 1])
  }

  ghost function TableRun(msgs: seq<PublishPacket>): Table {
    if msgs == [] then map[] else TableRetain(TableRun(msgs[..|msgs| - 1]), msgs[|msgs| - 1])
  }

  // ---------------------------------------------------------------- leaves hold messages

  /** Every leaf but the root holds a message. */
  ghost predicate LeavesFull(t: Trie) {
    forall k :: k in t.kids ==> Full(t.kids[k]) && LeavesFull(t.kids[k])
  }

  predicate Full(t: Trie) { t.kids == map[] ==> t.msg.Some? }

  lemma {:induction false} InsertKeepsLeaves(t: Trie, p: seq<string>, m: PublishPacket)
    requires LeavesFull(t)
    ensures LeavesFull(Insert(t, p, true, m)) && Full(Insert(t, p, true, m))
    decreases |p|
  {
    if p != [] {
      assert LeavesFull(Kid(t, p[0]));
      InsertKeepsLeaves(Kid(t, p[0]), p[1..], m);
      assert p[0] in Insert(t, p, true, m).kids;
    }
  }

  lemma {:induction false} RemoveKeepsLeaves(t: Trie, p: seq<string>)
    requires LeavesFull(t) && Remove(t, p, true).Some?
    ensures LeavesFull(Remove(t, p, true).value)
    decreases |p|
  {
    if p != [] {
      RemoveKeepsLeaves(t.kids[p[0]], p[1..]);
    }
  }

  /** Below every full node something is retained. */
  lemma {:induction false} FullHasMessage(t: Trie) returns (q: seq<string>)
    requires LeavesFull(t) && Full(t)
    ensures At(t, q).Some?
  {
    if t.msg.Some? {
      q := [];
    } else {
      assert t.kids != map[];
      var k :| k in t.kids;
      var r := FullHasMessage(t.kids[k]);
      q := [k] + r;
      assert q[1..] == r;
    }
  }

  ghost predicate SomeBelow(t: Trie, p: seq<string>) { exists q :: IsBelow(t, p, q) }

  ghost predicate IsBelow(t: Trie, p: seq<string>, q: seq<string>) { At(t, q).Some? && p <= q }

  lemma {:induction false} NodeIffRetainedBelow(t: Trie, p: seq<string>)
    requires LeavesFull(t) && p != []
    ensures HasNode(t, p) <==> SomeBelow(t, p)
    decreases |p|
  {
    if p[0] in t.kids {
      var kid := t.kids[p[0]];
      if |p| == 1 {
        assert p[1..] == [] && HasNode(t, p);
        var r := FullHasMessage(kid);
        assert ([p[0]] + r)[1..] == r;
        assert IsBelow(t, p, [p[0]] + r);
      } else {
        NodeIffRetainedBelow(kid, p[1..]);
        if HasNode(kid, p[1..]) {
          var q :| IsBelow(kid, p[1..], q);
          assert ([p[0]] + q)[1..] == q;
          assert IsBelow(t, p, [p[0]] + q);
        }
        if q :| IsBelow(t, p, q) {
          assert IsBelow(kid, p[1..], q[1..]);
        }
      }
    } else {
      forall q | p <= q ensures At(t, q).None? {
        AtEmpty(q[1..]);
      }
    }
  }

  /** Everything retained lies on the path. */
  ghost predicate OnPath(t: Trie, r: seq<string>) { forall q :: At(t, q).Some? ==> q <= r }

  /** With full leaves, a chain is a node below which everything retained lies on the path. */
  lemma {:induction false} ChainIffOnPath(t: Trie, r: seq<string>)
    requires LeavesFull(t) && HasNode(t, r)
    ensures Chain(t, r) <==> OnPath(t, r)
    decreases |r|
  {
    if Chain(t, r) {
      forall q | At(t, q).Some? ensures q <= r { ChainHoldsPrefixes(t, r, q); }
    }
    if OnPath(t, r) {
      forall k | k in t.kids ensures r != [] && k == r[0] {
        var q := FullHasMessage(t.kids[k]);
        assert ([k] + q)[1..] == q;
        assert At(t, [k] + q).Some?;
      }
      if r == [] {
        assert t.kids == map[];
      } else {
        assert t.kids.Keys == {r[0]};
        var kid := t.kids[r[0]];
        forall q | At(kid, q).Some? ensures q <= r[1..] {
          assert ([r[0]] + q)[1..] == q;
          assert At(t, [r[0]] + q).Some?;
        }
        ChainIffOnPath(kid, r[1..]);
      }
    }
  }

  // ---------------------------------------------------------------- the simulation

  ghost predicate Holds(t: Trie, m: Table) {
    forall x :: At(t, x) == if x in m then Some(m[x]) else None
  }

  lemma {:induction false} AtBelow(t: Trie, x: seq<string>, y: seq<string>)
    ensures At(NodeAt(t, x), y) == At(t, x + y)
    decreases |x|
  {
    if x == [] {
      assert x + y == y;
    } else {
      AtBelow(Kid(t, x[0]), x[1..], y);
      assert (x + y)[1..] == x[1..] + y;
    }
  }

  lemma {:induction false} NodeBelow(t: Trie, x: seq<string>, r: seq<string>)
    requires LeavesFull(t) && HasNode(t, x + r)
    ensures LeavesFull(NodeAt(t, x)) && HasNode(NodeAt(t, x), r)
    decreases |x|
  {
    if x == [] {
      assert x + r == r;
    } else {
      assert (x + r)[1..] == x[1..] + r;
      NodeBelow(t.kids[x[0]], x[1..], r);
    }
  }

  /** The doomed ancestors of the trie are the lost ones of the table. */
  lemma DoomedIffLost(t: Trie, m: Table, p: seq<string>, x: seq<string>)
    requires LeavesFull(t) && Holds(t, m) && HasNode(t, p) && 0 < |x| < |p| && x <= p
    ensures Doomed(t, p, x) <==> LostWith(m, p, x)
  {
    var r := p[|x|..];
    assert p == x + r;
    NodeBelow(t, x, r);
    var n := NodeAt(t, x);
    ChainIffOnPath(n, r);
    forall q ensures At(n, q).Some? <==> x + q in m { AtBelow(t, x, q); assert At(t, x + q) == if x + q in m then Some(m[x + q]) else None; }
    if Chain(n, r) {
      forall q | q in m && x <= q ensures q <= p {
        assert q == x + q[|x|..];
        assert At(n, q[|x|..]).Some?;
      }
      assert p in m by { EndOfChain(t, m, p, x); }
    }
    if LostWith(m, p, x) {
      forall q | At(n, q).Some? ensures q <= r {
        assert x + q in m && x <= x + q;
        assert q == (x + q)[|x|..];
      }
    }
  }

  /** A chain ends in a retained topic. */
  lemma EndOfChain(t: Trie, m: Table, p: seq<string>, x: seq<string>)
    requires LeavesFull(t) && Holds(t, m) && HasNode(t, p) && 0 < |x| < |p| && x <= p
    requires forall q :: q in m && x <= q ==> q <= p
    ensures p in m
  {
    NodeIffRetainedBelow(t, p);
    var q :| IsBelow(t, p, q);
    assert q in m;
    assert q[..|x|] == p[..|x|] == x;
    assert x <= q && q == p;
  }

  lemma SameBelow(t: Trie, m: Table, p: seq<string>)
    requires Holds(t, m)
    ensures SomeBelow(t, p) <==> exists q :: q in m && p <= q
  {
    if SomeBelow(t, p) {
      var q :| IsBelow(t, p, q);
      assert q in m && p <= q;
    }
    if q :| q in m && p <= q {
      assert IsBelow(t, p, q);
    }
  }

  lemma ClearInStep(t: Trie, m: Table, p: seq<string>)
    requires LeavesFull(t) && Holds(t, m)
    ensures var u := if Remove(t, p, true).Some? then Remove(t, p, true).value else t;
      LeavesFull(u) && Holds(u, ClearTopic(m, p))
    ensures Remove(t, p, true).Some? <==> p == [] || exists q :: q in m && p <= q
  {
    RemoveSucceeds(t, p, true);
    if p != [] { NodeIffRetainedBelow(t, p); }
    SameBelow(t, m, p);
    if HasNode(t, p) {
      RemoveKeepsLeaves(t, p);
      forall x ensures At(Remove(t, p, true).value, x) == if x in ClearTopic(m, p) then Some(ClearTopic(m, p)[x]) else None {
        RemoveAt(t, p, true, x);
        assert At(t, x) == if x in m then Some(m[x]) else None;
        if 0 < |x| < |p| && x <= p { DoomedIffLost(t, m, p, x); }
      }
    } else {
      forall x ensures At(t, x) == if x in ClearTopic(m, p) then Some(ClearTopic(m, p)[x]) else None {
        assert At(t, x) == if x in m then Some(m[x]) else None;
        assert p !in m;
      }
    }
  }

  lemma RetainInStep(t: Trie, m: Table, msg: PublishPacket)
    requires LeavesFull(t) && Holds(t, m) && !Malformed(msg.topicName)
    ensures LeavesFull(AfterRetain(t, msg)) && Holds(AfterRetain(t, msg), TableRetain(m, msg))
    ensures RetainOk(t, msg) <==> TableRetainOk(m, msg)
  {
    TokenizeFailsIffMalformed(msg.topicName);
    var p := Tokenize(msg.topicName).levels;
    if msg.payload == "" {
      ClearInStep(t, m, p);
    } else {
      InsertKeepsLeaves(t, p, msg);
      forall x ensures At(AfterRetain(t, msg), x) == if x in TableRetain(m, msg) then Some(TableRetain(m, msg)[x]) else None {
        InsertAt(t, p, true, msg, x);
        assert At(t, x) == if x in m then Some(m[x]) else None;
      }
    }
  }

  /** After every run of Retain with well-formed topics, every leaf but the root holds a
      message and the trie retains what the flat map retains, losses of clearing included. */
  lemma {:induction false} RunSimulates(msgs: seq<PublishPacket>)
    requires forall m :: m in msgs ==> !Malformed(m.topicName)
    ensures LeavesFull(TrieRun(msgs)) && Holds(TrieRun(msgs), TableRun(msgs))
  {
    if msgs == [] {
      forall x ensures At(EMPTY, x) == None { AtEmpty(x); }
    } else {
      var init, m := msgs[..|msgs| - 1], msgs[|msgs| - 1];
      assert m in msgs;
      RunSimulates(init);
      RetainInStep(TrieRun(init), TableRun(init), m);
    }
  }

  /** A refused topic makes the difference: it leaves nodes that hold no message. After retaining
      under `a` and a refused `a/b/c#`, clearing `a/b`, where nothing is retained, loses the
      message of `a`. */
  lemma RefusedTopicLeavesNodes(m: PublishPacket, refused: PublishPacket, clear: PublishPacket)
    requires m.topicName == "a" && refused.topicName == "a/b/c#" && m.payload != "" && refused.payload != ""
    requires clear.topicName == "a/b" && clear.payload == ""
    ensures At(TrieRun([m, refused]), ["a"]) == Some(m) && At(TrieRun([m, refused]), ["a", "b"]) == None
    ensures At(TrieRun([m, refused, clear]), ["a"]) == None
  {
    var one, two, three := [m], [m, refused], [m, refused, clear];
    assert one[..0] == [] && two[..1] == one && three[..2] == two && TrieRun([]) == EMPTY;
    TokensOfInstance();
    LeftoverCosts(m, refused);
  }

  /** The same on level lists. */
  lemma LeftoverCosts(m: PublishPacket, refused: PublishPacket)
    ensures var t := Insert(Insert(EMPTY, ["a"], true, m), ["a", "b"], false, refused);
      && At(t, ["a"]) == Some(m) && At(t, ["a", "b"]) == None
      && Remove(t, ["a", "b"], true).Some? && At(Remove(t, ["a", "b"], true).value, ["a"]) == None
  {}

  lemma LevelFirst(t: string, rest: string, k: Tokens)
    requires |t| > 2 && t[0] != '/' && t[0] != '#' && t[0] != '+' && t[1] == '/' && t[2..] == rest && Tokenize(rest) == k
    ensures Tokenize(t) == Tokens([t[..1]] + k.levels, k.ok)
  {
    assert Head(t) == t[..1] by { HeadExtends(t, 1); }
    assert NextLevel(t) == Next(t[..1], rest);
  }

  lemma TokensOfInstance()
    ensures Tokenize("a") == Tokens(["a"], true) && Tokenize("a/b") == Tokens(["a", "b"], true)
    ensures Tokenize("a/b/c#") == Tokens(["a", "b"], false)
  {
    LastLevels();
    LevelFirst("b/c#", "c#", Tokens([], false));
    LevelFirst("a/b/c#", "b/c#", Tokens(["b"], false));
    LevelFirst("a/b", "b", Tokens(["b"], true));
  }

  lemma LastLevels()
    ensures Tokenize("a") == Tokens(["a"], true) && Tokenize("b") == Tokens(["b"], true) && Tokenize("c#") == Tokens([], false)
  {
    assert Tokenize("") == Tokens([], true);
    HeadWhole("a");
    HeadWhole("b");
    HeadWhole("c#");
    assert "c#"[1] in "c#";
  }
}
