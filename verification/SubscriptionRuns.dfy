/** Every run of Subscribe and Unsubscribe, failing calls included, against a plain list of
    rows that is scanned from front to back. */
module SubscriptionRuns {
  import opened Prelude
  import opened TopicLevels
  import opened Matching
  import opened SubTrie

  /** One subscription in the flat table. */
  datatype Row = Row(path: seq<string>, sub: Subscription, qos: nat)

  /** A call of the topic index; no subscriber is the source's `nil`. */
  datatype Call =
    | Subscribe(topic: string, qos: nat, who: Option<Subscription>)
    | Unsubscribe(topic: string, who: Option<Subscription>)

  // ---------------------------------------------------------------- the flat table

  function RowsAt(rows: seq<Row>, p: seq<string>): seq<Entry> {
    if rows == [] then []
    else (if rows[0].path == p then [Entry(rows[0].sub, rows[0].qos)] else []) + RowsAt(rows[1..], p)
  }

  /** Update the row's QoS if it exists, append a new row otherwise. */
  function PutRow(rows: seq<Row>, p: seq<string>, s: Subscription, qos: nat): seq<Row> {
    if rows == [] then [Row(p, s, qos)]
    else if rows[0].path == p && rows[0].sub == s then [Row(p, s, qos)] + rows[1..]
    else [rows[0]] + PutRow(rows[1..], p, s, qos)
  }

  predicate HasRow(rows: seq<Row>, p: seq<string>, s: Subscription) {
    rows != [] && ((rows[0].path == p && rows[0].sub == s) || HasRow(rows[1..], p, s))
  }

  function DropRow(rows: seq<Row>, p: seq<string>, s: Subscription): seq<Row> {
    if rows == [] then []
    else if rows[0].path == p && rows[0].sub == s then rows[1..]
    else [rows[0]] + DropRow(rows[1..], p, s)
  }

  function DropPath(rows: seq<Row>, p: seq<string>): seq<Row> {
    if rows == [] then []
    else (if rows[0].path == p then [] else [rows[0]]) + DropPath(rows[1..], p)
  }

  /** The subscribers of every row whose path matches, once per row. */
  function Scan(rows: seq<Row>, topic: seq<string>): multiset<Subscription> {
    if rows == [] then multiset{}
    else If(Match(rows[0].path, topic), multiset{rows[0].sub}) + Scan(rows[1..], topic)
  }

  // ---------------------------------------------------------------- one call, on the trie and on the table

  predicate Accepts(c: Call) {
    Tokenize(c.topic).ok && (c.Subscribe? ==> ValidQos(c.qos) && c.who.Some?)
  }

  function TrieCall(t: Trie, c: Call): Trie {
    var k := Tokenize(c.topic);
    match c
    case Subscribe(_, qos, who) =>
      if ValidQos(qos) && who.Some? then Insert(t, k.levels, k.ok, who.value, qos) else t
    case Unsubscribe(_, who) =>
      var r := Remove(t, k.levels, k.ok, who);
      if r.Some? then r.value else t
  }

  predicate TrieCallOk(t: Trie, c: Call) {
    var k := Tokenize(c.topic);
    match c
    case Subscribe(_, qos, who) => ValidQos(qos) && who.Some? && k.ok
    case Unsubscribe(_, who) => Remove(t, k.levels, k.ok, who).Some?
  }

  function TableCall(rows: seq<Row>, c: Call): seq<Row> {
    var p := Tokenize(c.topic).levels;
    if !Accepts(c) then rows
    else match c
         case Subscribe(_, qos, who) => PutRow(rows, p, who.value, qos)
         case Unsubscribe(_, who) => if who.None? then DropPath(rows, p) else DropRow(rows, p, who.value)
  }

  function TrieRun(calls: seq<Call>): Trie {
    if calls == [] then EMPTY else TrieCall(TrieRun(calls[..|calls| - 1]), calls[|calls| - 1])
  }

  function TableRun(calls: seq<Call>): seq<Row> {
    if calls == [] then [] else TableCall(TableRun(calls[..|calls| - 1]), calls[|calls| - 1])
  }

  // ---------------------------------------------------------------- what a table update does

  lemma FindCons(e: Entry, rest: seq<Entry>, s: Subscription)
    ensures Find([e] + rest, s) == if e.sub == s then 0 else 1 + Find(rest, s)
  {
    assert ([e] + rest)[1..] == rest;
  }

  lemma UpsertCons(e: Entry, rest: seq<Entry>, s: Subscription, qos: nat)
    ensures Upsert([e] + rest, s, qos) == if e.sub == s then [Entry(s, qos)] + rest else [e] + Upsert(rest, s, qos)
  {
    FindCons(e, rest, s);
    var i, x := Find(rest, s), Entry(s, qos);
    if e.sub == s {
      assert ([e] + rest)[0 := x] == [x] + rest;
    } else if i < |rest| {
      assert ([e] + rest)[i + 1 := x] == [e] + rest[i := x];
    } else {
      assert [e] + rest + [x] == [e] + (rest + [x]);
    }
  }

  lemma WithoutCons(e: Entry, rest: seq<Entry>, s: Subscription)
    ensures Without([e] + rest, s) == if e.sub == s then rest else [e] + Without(rest, s)
  {
    FindCons(e, rest, s);
    var i, list := Find(rest, s), [e] + rest;
    if e.sub != s && i < |rest| {
      assert list[..i + 1] == [e] + rest[..i] && list[i + 2..] == rest[i + 1..];
    }
  }

  lemma RowsAtCons(r: Row, rest: seq<Row>, x: seq<string>)
    ensures RowsAt([r] + rest, x) == (if r.path == x then [Entry(r.sub, r.qos)] else []) + RowsAt(rest, x)
  {}

  lemma {:induction false} PutRowEffect(rows: seq<Row>, p: seq<string>, s: Subscription, qos: nat, x: seq<string>)
    ensures RowsAt(PutRow(rows, p, s, qos), x)
         == if x == p then Upsert(RowsAt(rows, p), s, qos) else RowsAt(rows, x)
  {
    if rows == [] {
      RowsAtCons(Row(p, s, qos), [], x);
    } else {
      var r, rest := rows[0], rows[1..];
      PutRowEffect(rest, p, s, qos, x);
      UpsertCons(Entry(r.sub, r.qos), RowsAt(rest, p), s, qos);
      if r.path == p && r.sub == s {
        RowsAtCons(Row(p, s, qos), rest, x);
      } else {
        RowsAtCons(r, PutRow(rest, p, s, qos), x);
        assert r.path == p ==> RowsAt(rows, p) == [Entry(r.sub, r.qos)] + RowsAt(rest, p);
        assert r.path != p ==> RowsAt(rows, p) == RowsAt(rest, p);
      }
    }
  }

  lemma {:induction false} DropRowEffect(rows: seq<Row>, p: seq<string>, s: Subscription, x: seq<string>)
    ensures RowsAt(DropRow(rows, p, s), x) == if x == p then Without(RowsAt(rows, p), s) else RowsAt(rows, x)
    ensures HasRow(rows, p, s) <==> Holds(RowsAt(rows, p), s)
  {
    if rows != [] {
      var r, rest := rows[0], rows[1..];
      DropRowEffect(rest, p, s, x);
      WithoutCons(Entry(r.sub, r.qos), RowsAt(rest, p), s);
      if !(r.path == p && r.sub == s) {
        RowsAtCons(r, DropRow(rest, p, s), x);
        assert r.path == p ==> RowsAt(rows, p) == [Entry(r.sub, r.qos)] + RowsAt(rest, p);
        assert r.path != p ==> RowsAt(rows, p) == RowsAt(rest, p);
      }
    }
  }

  lemma {:induction false} DropPathEffect(rows: seq<Row>, p: seq<string>, x: seq<string>)
    ensures RowsAt(DropPath(rows, p), x) == if x == p then [] else RowsAt(rows, x)
  {
    if rows != [] {
      var r, rest := rows[0], rows[1..];
      DropPathEffect(rest, p, x);
      if r.path == p {
        assert DropPath(rows, p) == DropPath(rest, p);
      } else {
        RowsAtCons(r, DropPath(rest, p), x);
      }
    }
  }

  // ---------------------------------------------------------------- the simulation

  /** The same ordered list of subscribers at every path, and no path that goes on after `#`. */
  ghost predicate Simulates(t: Trie, rows: seq<Row>) {
    && (forall p :: At(t, p) == RowsAt(rows, p))
    && (forall r :: r in rows ==> PathOk(r.path))
  }

  /** A trie that stores what the table stores answers every topic as the table scan does. */
  lemma {:induction false} AnswerIsScan(t: Trie, rows: seq<Row>, topic: seq<string>)
    requires Simulates(t, rows)
    ensures Answer(t, topic) == Scan(rows, topic)
    decreases |rows|
  {
    if rows == [] {
      forall x ensures At(t, x) == At(EMPTY, x) { AtEmpty(x); assert RowsAt(rows, x) == []; }
      SameAnswer(t, EMPTY, topic);
      EmptyAnswer(topic);
    } else {
      var r := rows[0];
      var u := PeelRow(t, rows);
      AnswerIsScan(u, rows[1..], topic);
      PeelAnswer(t, u, r, topic);
    }
  }

  /** Taking the first row out of the trie. */
  lemma PeelRow(t: Trie, rows: seq<Row>) returns (u: Trie)
    requires Simulates(t, rows) && rows != []
    ensures Simulates(u, rows[1..]) && SameBut(t, u, rows[0].path) && PathOk(rows[0].path)
    ensures At(t, rows[0].path) == [Entry(rows[0].sub, rows[0].qos)] + At(u, rows[0].path)
  {
    var r, rest := rows[0], rows[1..];
    var tail := RowsAt(rest, r.path);
    u := SetAt(t, r.path, tail);
    forall x ensures At(u, x) == RowsAt(rest, x) && (x != r.path ==> At(t, x) == At(u, x)) {
      SetAtEffect(t, r.path, tail, x);
      assert At(t, x) == RowsAt(rows, x);
    }
    assert At(t, r.path) == RowsAt(rows, r.path);
  }

  lemma PeelAnswer(t: Trie, u: Trie, r: Row, topic: seq<string>)
    requires PathOk(r.path) && SameBut(t, u, r.path)
    requires At(t, r.path) == [Entry(r.sub, r.qos)] + At(u, r.path)
    ensures Answer(t, topic) == If(Match(r.path, topic), multiset{r.sub}) + Answer(u, topic)
  {
    AnswerChange(t, u, r.path, topic);
    BagCons(Entry(r.sub, r.qos), At(u, r.path));
    CancelBag(Answer(t, topic), Answer(u, topic), r.sub, Bag(At(u, r.path)), Match(r.path, topic));
  }

  lemma BagCons(e: Entry, tail: seq<Entry>)
    ensures Bag([e] + tail) == multiset{e.sub} + Bag(tail)
  {
    assert Subs([e] + tail) == [e.sub] + Subs(tail);
  }

  lemma CancelBag(a: multiset<Subscription>, b: multiset<Subscription>, s: Subscription,
                  tail: multiset<Subscription>, m: bool)
    requires a + If(m, tail) == b + If(m, multiset{s} + tail)
    ensures a == If(m, multiset{s}) + b
  {
    var c := If(m, multiset{s}) + b;
    forall e ensures a[e] == c[e] {
      assert (a + If(m, tail))[e] == (b + If(m, multiset{s} + tail))[e];
    }
  }

  /** The trie with the list at one path replaced. */
  function SetAt(t: Trie, p: seq<string>, list: seq<Entry>): Trie
    decreases |p|
  {
    if p == [] then t.(list := list)
    else t.(kids := t.kids[p[0] := SetAt(Kid(t, p[0]), p[1..], list)])
  }

  lemma {:induction false} SetAtEffect(t: Trie, p: seq<string>, list: seq<Entry>, x: seq<string>)
    ensures At(SetAt(t, p, list), x) == if x == p then list else At(t, x)
    decreases |p|
  {
    if p != [] && x != [] && x[0] == p[0] {
      SetAtEffect(Kid(t, p[0]), p[1..], list, x[1..]);
      assert x == [x[0]] + x[1..] && p == [p[0]] + p[1..];
    }
  }

  lemma {:induction false} TablePathsOk(rows: seq<Row>, c: Call)
    requires forall r :: r in rows ==> PathOk(r.path)
    ensures forall r :: r in TableCall(rows, c) ==> PathOk(r.path)
  {
    TokenizePathOk(c.topic);
    if Accepts(c) && rows != [] {
      TablePathsOk(rows[1..], c);
    }
  }

  lemma SubscribeInStep(t: Trie, rows: seq<Row>, c: Call)
    requires Simulates(t, rows) && c.Subscribe?
    ensures Simulates(TrieCall(t, c), TableCall(rows, c))
  {
    var k := Tokenize(c.topic);
    TablePathsOk(rows, c);
    if ValidQos(c.qos) && c.who.Some? {
      forall x ensures At(TrieCall(t, c), x) == RowsAt(TableCall(rows, c), x) {
        InsertAt(t, k.levels, k.ok, c.who.value, c.qos, x);
        PutRowEffect(rows, k.levels, c.who.value, c.qos, x);
        assert At(t, x) == RowsAt(rows, x);
      }
    }
  }

  /** Unsubscribing a named subscriber succeeds iff the table has its row. */
  lemma UnsubscribeInStep(t: Trie, rows: seq<Row>, c: Call)
    requires Simulates(t, rows) && c.Unsubscribe?
    ensures Simulates(TrieCall(t, c), TableCall(rows, c))
    ensures c.who.Some? ==> (TrieCallOk(t, c) <==> Accepts(c) && HasRow(rows, Tokenize(c.topic).levels, c.who.value))
  {
    var k := Tokenize(c.topic);
    var p := k.levels;
    TablePathsOk(rows, c);
    assert At(t, p) == RowsAt(rows, p);
    if c.who.Some? {
      RemoveSucceeds(t, p, k.ok, c.who.value);
      DropRowEffect(rows, p, c.who.value, p);
    } else {
      RemoveAllSucceeds(t, p, k.ok);
    }
    forall x ensures At(TrieCall(t, c), x) == RowsAt(TableCall(rows, c), x) {
      assert At(t, x) == RowsAt(rows, x);
      if TrieCallOk(t, c) {
        RemoveOk(t, p, k.ok, c.who);
        RemoveAt(t, p, k.ok, c.who, x);
      }
      if c.who.Some? {
        DropRowEffect(rows, p, c.who.value, x);
      } else {
        DropPathEffect(rows, p, x);
      }
    }
  }

  lemma {:induction false} RemoveOk(t: Trie, p: seq<string>, ok: bool, who: Option<Subscription>)
    requires Remove(t, p, ok, who).Some?
    ensures ok
    decreases |p|
  {
    if p != [] { RemoveOk(t.kids[p[0]], p[1..], ok, who); }
  }

  lemma RemoveAllSucceeds(t: Trie, p: seq<string>, ok: bool)
    ensures ok && At(t, p) != [] ==> Remove(t, p, ok, None).Some?
  {
    if ok && At(t, p) != [] { HasNodeWhenHeld(t, p, None); }
  }

  /** After every run the trie and the table hold the same ordered lists. */
  lemma {:induction false} RunSimulates(calls: seq<Call>)
    ensures Simulates(TrieRun(calls), TableRun(calls))
  {
    if calls == [] {
      forall p ensures At(EMPTY, p) == [] { AtEmpty(p); }
    } else {
      var init, c := calls[..|calls| - 1], calls[|calls| - 1];
      RunSimulates(init);
      if c.Subscribe? {
        SubscribeInStep(TrieRun(init), TableRun(init), c);
      } else {
        UnsubscribeInStep(TrieRun(init), TableRun(init), c);
      }
    }
  }

  /** `Subscribers`, for every run and every well-formed topic string. */
  lemma SubscribersAreTheMatchingRows(calls: seq<Call>, topic: string)
    requires !Malformed(topic)
    ensures var k := Tokenize(topic);
      !AnswerFails(TrieRun(calls), k.levels, k.ok) && Answer(TrieRun(calls), k.levels) == Scan(TableRun(calls), k.levels)
  {
    TokenizeFailsIffMalformed(topic);
    AnswerNeverFails(TrieRun(calls), Tokenize(topic).levels);
    RunSimulates(calls);
    AnswerIsScan(TrieRun(calls), TableRun(calls), Tokenize(topic).levels);
  }

  /** A failing call changes no answer. */
  lemma FailingCallChangesNoAnswer(calls: seq<Call>, c: Call, topic: seq<string>)
    requires !TrieCallOk(TrieRun(calls), c)
    ensures Answer(TrieCall(TrieRun(calls), c), topic) == Answer(TrieRun(calls), topic)
  {
    var t, k := TrieRun(calls), Tokenize(c.topic);
    if c.Subscribe? && ValidQos(c.qos) && c.who.Some? {
      forall x ensures At(TrieCall(t, c), x) == At(t, x) {
        InsertAt(t, k.levels, k.ok, c.who.value, c.qos, x);
      }
      SameAnswer(TrieCall(t, c), t, topic);
    }
  }

  /** Over every run each node lists a subscriber once and `#` has nothing below it. */
  lemma {:induction false} RunKeepsShape(calls: seq<Call>)
    ensures WellShaped(TrieRun(calls))
  {
    if calls != [] {
      var init, c := calls[..|calls| - 1], calls[|calls| - 1];
      var k := Tokenize(c.topic);
      RunKeepsShape(init);
      TokenizePathOk(c.topic);
      if c.Subscribe? && ValidQos(c.qos) && c.who.Some? {
        InsertKeepsShape(TrieRun(init), k.levels, k.ok, c.who.value, c.qos);
      } else if c.Unsubscribe? && TrieCallOk(TrieRun(init), c) {
        RemoveKeepsShape(TrieRun(init), k.levels, k.ok, c.who);
      }
    }
  }

  /** Over every run without malformed filters no node but the root is bare, so subscribing a
      new subscriber and unsubscribing it is the identity. */
  lemma {:induction false} RunKeepsPruned(calls: seq<Call>)
    requires forall c :: c in calls ==> !Malformed(c.topic)
    ensures Pruned(TrieRun(calls))
  {
    if calls != [] {
      var init, c := calls[..|calls| - 1], calls[|calls| - 1];
      var k := Tokenize(c.topic);
      RunKeepsPruned(init);
      assert c in calls;
      TokenizeFailsIffMalformed(c.topic);
      if c.Subscribe? && ValidQos(c.qos) && c.who.Some? {
        InsertKeepsPruned(TrieRun(init), k.levels, c.who.value, c.qos);
      } else if c.Unsubscribe? && TrieCallOk(TrieRun(init), c) {
        RemoveKeepsPruned(TrieRun(init), k.levels, k.ok, c.who);
      }
    }
  }

  /** After any run, subscribing a new subscriber and unsubscribing it is the identity on the
      trie exactly if no bare node lies along the path. */
  lemma IdentityIffNoBareNode(calls: seq<Call>, filter: string, s: Subscription, qos: nat)
    requires !Malformed(filter) && ValidQos(qos) && !HasRow(TableRun(calls), Tokenize(filter).levels, s)
    ensures TrieRun(calls + [Subscribe(filter, qos, Some(s)), Unsubscribe(filter, Some(s))]) == TrieRun(calls)
            <==> NoBareAlong(TrieRun(calls), Tokenize(filter).levels)
  {
    var t, k := TrieRun(calls), Tokenize(filter);
    TokenizeFailsIffMalformed(filter);
    RunSimulates(calls);
    assert At(t, k.levels) == RowsAt(TableRun(calls), k.levels);
    DropRowEffect(TableRun(calls), k.levels, s, k.levels);
    InsertThenRemove(t, k.levels, s, qos);
    TwoMoreCalls(calls, Subscribe(filter, qos, Some(s)), Unsubscribe(filter, Some(s)));
  }

  lemma TwoMoreCalls(calls: seq<Call>, a: Call, b: Call)
    ensures TrieRun(calls + [a, b]) == TrieCall(TrieCall(TrieRun(calls), a), b)
  {
    var one, two := calls + [a], calls + [a, b];
    assert two[..|two| - 1] == one && two[|two| - 1] == b;
    assert one[..|one| - 1] == calls && one[|one| - 1] == a;
  }

  lemma SubscribeThenUnsubscribe(calls: seq<Call>, filter: string, s: Subscription, qos: nat)
    requires forall c :: c in calls ==> !Malformed(c.topic)
    requires !Malformed(filter) && ValidQos(qos) && !HasRow(TableRun(calls), Tokenize(filter).levels, s)
    ensures TrieRun(calls + [Subscribe(filter, qos, Some(s)), Unsubscribe(filter, Some(s))]) == TrieRun(calls)
  {
    RunKeepsPruned(calls);
    PrunedNoBareAlong(TrieRun(calls), Tokenize(filter).levels);
    IdentityIffNoBareNode(calls, filter, s, qos);
  }

  /** A refused filter can leave such a node: after subscribing to `a/b#`, subscribing to `a`
      and unsubscribing again is not the identity. */
  lemma RefusedFilterLeavesBareNode(s: Subscription)
    ensures var calls := [Subscribe("a/b#", 0, Some(s))];
      && !NoBareAlong(TrieRun(calls), ["a"])
      && TrieRun(calls + [Subscribe("a", 0, Some(s)), Unsubscribe("a", Some(s))]) != TrieRun(calls)
  {
    var calls := [Subscribe("a/b#", 0, Some(s))];
    assert calls[..0] == [] && TrieRun([]) == EMPTY;
    TokensOfRefused();
    assert TrieRun(calls) == Insert(EMPTY, ["a"], false, s, 0);
    assert ["a"][1..] == [];
    assert TrieRun(calls).kids["a"] == EMPTY;
    TokenizeFailsIffMalformed("a/b#");
    assert TableRun(calls[..0]) == [];
    IdentityIffNoBareNode(calls, "a", s, 0);
  }

  lemma TokensOfRefused()
    ensures Tokenize("a/b#") == Tokens(["a"], false) && Tokenize("a") == Tokens(["a"], true) && !Malformed("a")
  {
    var t := "a/b#";
    assert t[1..] == "/b#" && t[2..] == "b#";
    assert Head(t) == "a" && Tail(t) == "b#";
    assert '/' !in "b#";
    HeadWhole("b#");
    assert "b#"[1] in "b#";
    assert Tokenize("b#") == Tokens([], false);
    HeadWhole("a");
    assert Tokenize("") == Tokens([], true);
  }
}
