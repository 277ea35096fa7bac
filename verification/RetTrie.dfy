/** The retained-message trie as a value, read as a flat map from topic paths to messages. */
module RetTrie {
  import opened Prelude
  import opened TopicLevels
  import opened Matching

  /** One `rnode`: its message, if any, and its children by level name. */
  datatype Trie = Trie(msg: Option<PublishPacket>, kids: map<string, Trie>)

  const EMPTY := Trie(None, map[])

  function Kid(t: Trie, k: string): Trie { if k in t.kids then t.kids[k] else EMPTY }

  /** The message retained at a path. */
  function At(t: Trie, path: seq<string>): Option<PublishPacket>
    decreases |path|
  {
    if path == [] then t.msg else At(Kid(t, path[0]), path[1..])
  }

  /** `rinsertOrUpdate` along the levels of a topic; `ok` as in the subscription trie. */
  function Insert(t: Trie, levels: seq<string>, ok: bool, m: PublishPacket): Trie
    decreases |levels|
  {
    if levels == [] then (if ok then t.(msg := Some(m)) else t)
    else t.(kids := t.kids[levels[0] := Insert(Kid(t, levels[0]), levels[1..], ok, m)])
  }

  /** `rremove`: on the way back a child is cut off when it has no children, whether or not
      it holds a message. */
  function Remove(t: Trie, levels: seq<string>, ok: bool): Option<Trie>
    decreases |levels|
  {
    if levels == [] then (if ok then Some(t.(msg := None)) else None)
    else if levels[0] !in t.kids then None
    else match Remove(t.kids[levels[0]], levels[1..], ok)
         case None => None
         case Some(n) => Some(t.(kids := if n.kids == map[] then t.kids - {levels[0]} else t.kids[levels[0] := n]))
  }

  /** The paths whose messages `rmatch` collects for a filter. */
  predicate Found(t: Trie, filter: seq<string>, p: seq<string>)
    decreases |filter|
  {
    if filter == [] then p == [] && t.msg.Some?
    else if filter[0] == MWC then At(t, p).Some?
    else p != [] && (filter[0] == SWC || filter[0] == p[0]) && p[0] in t.kids
         && Found(t.kids[p[0]], filter[1..], p[1..])
  }

  /** Whether `rmatch` reports an error: it only notices a malformed filter at a node it visits. */
  ghost predicate FindFails(t: Trie, levels: seq<string>, ok: bool)
    decreases |levels|
  {
    if levels == [] then !ok
    else if levels[0] == MWC then false
    else exists k :: k in t.kids && (levels[0] == SWC || levels[0] == k) && FindFails(t.kids[k], levels[1..], ok)
  }

  // ---------------------------------------------------------------- the calls of the index

  /** `Retain`: an empty payload clears. */
  predicate RetainOk(t: Trie, m: PublishPacket) {
    var k := Tokenize(m.topicName);
    if m.payload == "" then Remove(t, k.levels, k.ok).Some? else k.ok
  }

  function AfterRetain(t: Trie, m: PublishPacket): Trie {
    var k := Tokenize(m.topicName);
    if m.payload == "" then
      var r := Remove(t, k.levels, k.ok);
      if r.Some? then r.value else t
    else Insert(t, k.levels, k.ok, m)
  }

  /** The collected messages are those of the listed paths, in that order. */
  ghost predicate Lists(t: Trie, paths: seq<seq<string>>, got: seq<PublishPacket>) {
    |got| == |paths| && forall i :: 0 <= i < |paths| ==> At(t, paths[i]) == Some(got[i])
  }

  /** The listed paths are exactly those that the filter finds, each once. */
  ghost predicate Enumerates(t: Trie, filter: seq<string>, paths: seq<seq<string>>) {
    NoDuplicates(paths) && forall p :: p in paths <==> Found(t, filter, p)
  }

  /** One possible result of `Retained`: the found messages, in the order of some iteration. */
  ghost predicate Collects(t: Trie, filter: seq<string>, got: seq<PublishPacket>) {
    exists paths :: Enumerates(t, filter, paths) && Lists(t, paths, got)
  }

  // ---------------------------------------------------------------- finding

  lemma {:induction false} AtEmpty(p: seq<string>)
    ensures At(EMPTY, p) == None
  {
    if p != [] { AtEmpty(p[1..]); }
  }

  /** `Retained` collects exactly the retained topics that match the filter, by the relation
      that also decides which subscriptions a publication reaches. */
  lemma {:induction false} FoundIffMatch(t: Trie, filter: seq<string>, p: seq<string>)
    requires PathOk(filter)
    ensures Found(t, filter, p) <==> At(t, p).Some? && Match(filter, p)
    decreases |filter|
  {
    if filter != [] && filter[0] != MWC && p != [] {
      forall i | 0 <= i < |filter[1..]| - 1 ensures filter[1..][i] != MWC { assert filter[1..][i] == filter[i + 1]; }
      AtEmpty(p[1..]);
      if p[0] in t.kids {
        FoundIffMatch(t.kids[p[0]], filter[1..], p[1..]);
      }
    }
  }

  lemma {:induction false} FindNeverFails(t: Trie, filter: seq<string>)
    ensures !FindFails(t, filter, true)
    decreases |filter|
  {
    if filter != [] {
      forall k | k in t.kids ensures !FindFails(t.kids[k], filter[1..], true) {
        FindNeverFails(t.kids[k], filter[1..]);
      }
    }
  }

  /** A path that looking up these filter levels visits. */
  ghost predicate Visits(p: seq<string>, levels: seq<string>) {
    |p| == |levels| && forall i :: 0 <= i < |p| ==> levels[i] != "#" && (levels[i] == "+" || levels[i] == p[i])
  }

  lemma VisitsNext(p: seq<string>, levels: seq<string>)
    requires p != [] && levels != []
    ensures Visits(p, levels) <==> levels[0] != "#" && (levels[0] == "+" || levels[0] == p[0]) && Visits(p[1..], levels[1..])
  {
    if Visits(p[1..], levels[1..]) { assert forall i :: 0 < i < |p| ==> p[i] == p[1..][i - 1] && levels[i] == levels[1..][i - 1]; }
    if Visits(p, levels) { assert forall i :: 0 <= i < |p| - 1 ==> p[1..][i] == p[i + 1] && levels[1..][i] == levels[i + 1]; }
  }

  /** When a lookup fails: the filter is malformed and some node lies where it gets so. */
  lemma {:induction false} FindFailsIff(t: Trie, levels: seq<string>, ok: bool)
    ensures FindFails(t, levels, ok) <==> !ok && exists p :: Visits(p, levels) && HasNode(t, p)
    decreases |levels|
  {
    if levels == [] {
      assert Visits([], []) && HasNode(t, []);
    } else {
      var rest := levels[1..];
      forall k | k in t.kids ensures FindFails(t.kids[k], rest, ok) <==> !ok && exists p :: Visits(p, rest) && HasNode(t.kids[k], p) {
        FindFailsIff(t.kids[k], rest, ok);
      }
      if FindFails(t, levels, ok) {
        var k :| k in t.kids && (levels[0] == SWC || levels[0] == k) && FindFails(t.kids[k], rest, ok);
        var p :| Visits(p, rest) && HasNode(t.kids[k], p);
        VisitsBelow(t, levels, k, p);
      }
      if !ok && exists p :: Visits(p, levels) && HasNode(t, p) {
        var p :| Visits(p, levels) && HasNode(t, p);
        VisitsNext(p, levels);
      }
    }
  }

  lemma VisitsBelow(t: Trie, levels: seq<string>, k: string, p: seq<string>)
    requires levels != [] && k in t.kids && levels[0] != "#" && (levels[0] == "+" || levels[0] == k)
    requires Visits(p, levels[1..]) && HasNode(t.kids[k], p)
    ensures Visits([k] + p, levels) && HasNode(t, [k] + p)
  {
    assert ([k] + p)[1..] == p;
    VisitsNext([k] + p, levels);
  }

  // ---------------------------------------------------------------- retaining

  /** Retaining a message changes its own path only; a malformed topic changes none. */
  lemma {:induction false} InsertAt(t: Trie, p: seq<string>, ok: bool, m: PublishPacket, x: seq<string>)
    ensures At(Insert(t, p, ok, m), x) == if ok && x == p then Some(m) else At(t, x)
    decreases |p|
  {
    if p != [] && x != [] && x[0] == p[0] {
      InsertAt(Kid(t, p[0]), p[1..], ok, m, x[1..]);
      assert x == [x[0]] + x[1..] && p == [p[0]] + p[1..];
    }
  }

  // ---------------------------------------------------------------- clearing

  predicate HasNode(t: Trie, p: seq<string>)
    decreases |p|
  {
    p == [] || (p[0] in t.kids && HasNode(t.kids[p[0]], p[1..]))
  }

  /** From this node down to the end of the path, no node has a child off the path. */
  predicate Chain(t: Trie, p: seq<string>)
    decreases |p|
  {
    if p == [] then t.kids == map[]
    else t.kids.Keys == {p[0]} && Chain(t.kids[p[0]], p[1..])
  }

  function NodeAt(t: Trie, p: seq<string>): Trie
    decreases |p|
  {
    if p == [] then t else NodeAt(Kid(t, p[0]), p[1..])
  }

  /** The ancestors that clearing `p` cuts off together with it: the single-child run that
      ends in the childless node of `p`, the root excluded. */
  predicate Doomed(t: Trie, p: seq<string>, x: seq<string>) {
    0 < |x| < |p| && x == p[..|x|] && Chain(NodeAt(t, x), p[|x|..])
  }

  lemma {:induction false} RemoveSucceeds(t: Trie, p: seq<string>, ok: bool)
    ensures Remove(t, p, ok).Some? <==> ok && HasNode(t, p)
    decreases |p|
  {
    if p != [] && p[0] in t.kids { RemoveSucceeds(t.kids[p[0]], p[1..], ok); }
  }

  lemma {:induction false} RemoveLeavesNoKids(t: Trie, p: seq<string>, ok: bool)
    requires Remove(t, p, ok).Some?
    ensures Remove(t, p, ok).value.kids == map[] <==> Chain(t, p)
    decreases |p|
  {
    if p != [] {
      RemoveLeavesNoKids(t.kids[p[0]], p[1..], ok);
      var n := Remove(t.kids[p[0]], p[1..], ok).value;
      var rest := if n.kids == map[] then t.kids - {p[0]} else t.kids[p[0] := n];
      assert rest == map[] <==> n.kids == map[] && t.kids.Keys == {p[0]} by {
        if n.kids == map[] {
          assert rest.Keys == t.kids.Keys - {p[0]};
          assert rest == map[] <==> rest.Keys == {};
        } else {
          assert p[0] in rest;
        }
      }
    }
  }

  /** A chain holds messages along its own path only. */
  lemma {:induction false} ChainHoldsPrefixes(t: Trie, p: seq<string>, x: seq<string>)
    requires Chain(t, p) && At(t, x).Some?
    ensures |x| <= |p| && x == p[..|x|]
    decreases |p|
  {
    if x != [] {
      if x[0] !in t.kids { AtEmpty(x[1..]); assert false; }
      assert p != [] && x[0] == p[0];
      ChainHoldsPrefixes(t.kids[p[0]], p[1..], x[1..]);
      assert x == [x[0]] + x[1..] && p == [p[0]] + p[1..];
    }
  }

  lemma {:induction false} ChainBelow(t: Trie, p: seq<string>, n: nat)
    requires Chain(t, p) && n <= |p|
    ensures Chain(NodeAt(t, p[..n]), p[n..])
    decreases |p|
  {
    if n == 0 {
      assert p[0..] == p;
    } else {
      ChainBelow(t.kids[p[0]], p[1..], n - 1);
      assert p[..n][1..] == p[1..][..n - 1] && p[n..] == p[1..][n - 1..];
    }
  }

  lemma DoomedBelow(t: Trie, p: seq<string>, x: seq<string>)
    requires p != [] && x != [] && x[0] == p[0] && p[0] in t.kids
    ensures Doomed(t, p, x) <==>
      Doomed(t.kids[p[0]], p[1..], x[1..]) || (x == [p[0]] && |p| > 1 && Chain(t.kids[p[0]], p[1..]))
  {
    assert NodeAt(t, x) == NodeAt(t.kids[p[0]], x[1..]);
    assert x == [x[0]] + x[1..] && p == [p[0]] + p[1..];
    if |x| <= |p| {
      assert p[|x|..] == p[1..][|x[1..]|..];
      assert p[..|x|] == [p[0]] + p[1..][..|x[1..]|];
    }
  }

  /** Clearing a topic removes its message, the messages of its doomed ancestors, and
      nothing else. */
  lemma {:induction false} RemoveAt(t: Trie, p: seq<string>, ok: bool, x: seq<string>)
    requires Remove(t, p, ok).Some?
    ensures At(Remove(t, p, ok).value, x) == if x == p || Doomed(t, p, x) then None else At(t, x)
    decreases |p|
  {
    if p != [] && x != [] && x[0] == p[0] {
      var kid, n := t.kids[p[0]], Remove(t.kids[p[0]], p[1..], ok).value;
      assert x == [x[0]] + x[1..] && p == [p[0]] + p[1..];
      RemoveAt(kid, p[1..], ok, x[1..]);
      RemoveLeavesNoKids(kid, p[1..], ok);
      DoomedBelow(t, p, x);
      AtEmpty(x[1..]);
      if Chain(kid, p[1..]) && At(kid, x[1..]).Some? {
        ChainHoldsPrefixes(kid, p[1..], x[1..]);
        ChainBelow(kid, p[1..], |x[1..]|);
      }
    }
  }

  /** Clearing is a plain delete exactly when no doomed ancestor holds a message. */
  lemma ClearIsDeleteIff(t: Trie, p: seq<string>)
    requires HasNode(t, p)
    ensures Remove(t, p, true).Some?
    ensures (forall x :: x != p ==> At(Remove(t, p, true).value, x) == At(t, x)) <==>
            (forall x :: Doomed(t, p, x) ==> At(t, x).None?)
  {
    RemoveSucceeds(t, p, true);
    forall x ensures At(Remove(t, p, true).value, x) == if x == p || Doomed(t, p, x) then None else At(t, x) {
      RemoveAt(t, p, true, x);
    }
    if forall x :: x != p ==> At(Remove(t, p, true).value, x) == At(t, x) {
      forall x | Doomed(t, p, x) ensures At(t, x).None? {
        assert |x| < |p|;
      }
    }
  }

  /** In particular when no retained topic is a non-empty proper prefix of the cleared one. */
  lemma ClearIsDeleteWithoutRetainedPrefix(t: Trie, p: seq<string>)
    requires HasNode(t, p)
    requires forall n :: 0 < n < |p| ==> At(t, p[..n]).None?
    ensures Remove(t, p, true).Some?
    ensures forall x :: x != p ==> At(Remove(t, p, true).value, x) == At(t, x)
  {
    forall x | Doomed(t, p, x) ensures At(t, x).None? {
      assert x == p[..|x|];
    }
    ClearIsDeleteIff(t, p);
  }

  /** The retained message of `a` does not survive clearing `a/b`. */
  lemma ClearLosesParent(m: PublishPacket)
    ensures var t := Insert(Insert(EMPTY, ["a"], true, m), ["a", "b"], true, m);
      At(t, ["a"]) == Some(m) && Remove(t, ["a", "b"], true).Some?
      && At(Remove(t, ["a", "b"], true).value, ["a"]) == None
  {}
}
