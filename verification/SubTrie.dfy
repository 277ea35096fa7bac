/** The subscription trie as a value, and what each operation does to it. */
module SubTrie {
  import opened Prelude
  import opened TopicLevels
  import opened Matching

  datatype Entry = Entry(sub: Subscription, qos: nat)

  /** One `snode`: its subscriber list and its children by level name. */
  datatype Trie = Trie(list: seq<Entry>, kids: map<string, Trie>)

  const EMPTY := Trie([], map[])

  predicate Bare(t: Trie) { t.list == [] && t.kids == map[] }

  function Kid(t: Trie, k: string): Trie { if k in t.kids then t.kids[k] else EMPTY }

  // ---------------------------------------------------------------- subscriber lists

  /** Index of the subscriber's first entry, or the length when there is none. */
  function Find(list: seq<Entry>, s: Subscription): (i: nat)
    ensures i <= |list|
    ensures i < |list| ==> list[i].sub == s
    ensures forall j :: 0 <= j < i ==> list[j].sub != s
  {
    if list == [] || list[0].sub == s then 0 else 1 + Find(list[1..], s)
  }

  predicate Holds(list: seq<Entry>, s: Subscription) { Find(list, s) < |list| }

  function Upsert(list: seq<Entry>, s: Subscription, qos: nat): seq<Entry> {
    var i := Find(list, s);
    if i < |list| then list[i := Entry(s, qos)] else list + [Entry(s, qos)]
  }

  function Without(list: seq<Entry>, s: Subscription): seq<Entry> {
    var i := Find(list, s);
    if i < |list| then list[..i] + list[i + 1..] else list
  }

  /** The subscribers of a list, with multiplicity. */
  function Bag(list: seq<Entry>): multiset<Subscription> { multiset(Subs(list)) }

  function Subs(list: seq<Entry>): seq<Subscription> {
    seq(|list|, i requires 0 <= i < |list| => list[i].sub)
  }

  ghost predicate OnePerSubscriber(list: seq<Entry>) {
    forall i, j :: 0 <= i < j < |list| ==> list[i].sub != list[j].sub
  }

  // ---------------------------------------------------------------- the trie operations

  /** `sinsert` along the levels of a filter; `ok` tells whether the tokenizer reached the
      end of the filter. A refused filter still leaves the nodes made on the way. */
  function Insert(t: Trie, levels: seq<string>, ok: bool, s: Subscription, qos: nat): Trie
    decreases |levels|
  {
    if levels == [] then
      if ok then t.(list := Upsert(t.list, s, qos)) else t
    else
      t.(kids := t.kids[levels[0] := Insert(Kid(t, levels[0]), levels[1..], ok, s, qos)])
  }

  /** `sremove`; no subscriber means all subscribers, no result means an error. */
  function Remove(t: Trie, levels: seq<string>, ok: bool, who: Option<Subscription>): Option<Trie>
    decreases |levels|
  {
    if levels == [] then
      if !ok then None
      else match who
           case None => Some(t.(list := []))
           case Some(s) => if Holds(t.list, s) then Some(t.(list := Without(t.list, s))) else None
    else if levels[0] !in t.kids then None
    else match Remove(t.kids[levels[0]], levels[1..], ok, who)
         case None => None
         case Some(n) => Some(t.(kids := if Bare(n) then t.kids - {levels[0]} else t.kids[levels[0] := n]))
  }

  /** The answer of `smatch` to a tokenized publish topic, as a multiset: the source visits
      the children in no particular order. */
  function Answer(t: Trie, topic: seq<string>): multiset<Subscription>
    decreases |topic|
  {
    if topic == [] then Bag(t.list) + Bag(Kid(t, MWC).list)
    else
      Bag(Kid(t, MWC).list) + Answer(Kid(t, SWC), topic[1..])
      + (if topic[0] == MWC || topic[0] == SWC then multiset{} else Answer(Kid(t, topic[0]), topic[1..]))
  }

  /** Whether `smatch` reports an error: it only notices a malformed publish topic when some
      visited node lies at the malformed level. */
  predicate AnswerFails(t: Trie, levels: seq<string>, ok: bool)
    decreases |levels|
  {
    if levels == [] then !ok
    else
      || (SWC in t.kids && AnswerFails(t.kids[SWC], levels[1..], ok))
      || (levels[0] != MWC && levels[0] in t.kids && AnswerFails(t.kids[levels[0]], levels[1..], ok))
  }

  /** The list stored at a path; the trie read as a flat map from paths to ordered lists. */
  function At(t: Trie, path: seq<string>): seq<Entry>
    decreases |path|
  {
    if path == [] then t.list else At(Kid(t, path[0]), path[1..])
  }

  // ---------------------------------------------------------------- lists

  lemma BagMember(list: seq<Entry>, s: Subscription)
    ensures s in Bag(list) <==> Holds(list, s)
  {
    assert Holds(list, s) ==> Subs(list)[Find(list, s)] == s;
  }

  lemma BagReplace(list: seq<Entry>, i: nat, e: Entry)
    requires i < |list|
    ensures Bag(list) == Bag(list[..i] + list[i + 1..]) + multiset{list[i].sub}
    ensures Bag(list[i := e]) == Bag(list[..i] + list[i + 1..]) + multiset{e.sub}
  {
    BagOfParts(list, i);
    BagOfParts(list[i := e], i);
    assert list[i := e][..i] == list[..i] && list[i := e][i + 1..] == list[i + 1..];
  }

  lemma BagOfParts(list: seq<Entry>, i: nat)
    requires i < |list|
    ensures Bag(list) == Bag(list[..i] + list[i + 1..]) + multiset{list[i].sub}
  {
    var a, b := Subs(list[..i]), Subs(list[i + 1..]);
    assert Subs(list) == a + [list[i].sub] + b;
    assert Subs(list[..i] + list[i + 1..]) == a + b;
  }

  lemma UpsertEffect(list: seq<Entry>, s: Subscription, qos: nat)
    ensures Bag(Upsert(list, s, qos)) == Bag(list) + (if Holds(list, s) then multiset{} else multiset{s})
    ensures OnePerSubscriber(list) ==> OnePerSubscriber(Upsert(list, s, qos))
    ensures Holds(Upsert(list, s, qos), s)
  {
    var i := Find(list, s);
    if i < |list| {
      BagReplace(list, i, Entry(s, qos));
    } else {
      assert Subs(list + [Entry(s, qos)]) == Subs(list) + [s];
    }
    assert Upsert(list, s, qos)[i].sub == s;
  }

  lemma WithoutEffect(list: seq<Entry>, s: Subscription)
    requires Holds(list, s)
    ensures Bag(list) == Bag(Without(list, s)) + multiset{s}
    ensures OnePerSubscriber(list) ==> OnePerSubscriber(Without(list, s)) && !Holds(Without(list, s), s)
  {
    BagOfParts(list, Find(list, s));
  }

  // ---------------------------------------------------------------- the trie as a flat map

  lemma {:induction false} AtEmpty(path: seq<string>)
    ensures At(EMPTY, path) == []
  {
    if path != [] { AtEmpty(path[1..]); }
  }

  /** Subscribing rewrites the list at its own path and nothing else; a refused filter
      rewrites nothing. */
  lemma {:induction false} InsertAt(t: Trie, p: seq<string>, ok: bool, s: Subscription, qos: nat, x: seq<string>)
    ensures At(Insert(t, p, ok, s, qos), x) == if ok && x == p then Upsert(At(t, p), s, qos) else At(t, x)
    decreases |p|
  {
    if p != [] && x != [] && x[0] == p[0] {
      InsertAt(Kid(t, p[0]), p[1..], ok, s, qos, x[1..]);
      assert x == [x[0]] + x[1..] && p == [p[0]] + p[1..];
    }
  }

  function ListAfterRemove(list: seq<Entry>, who: Option<Subscription>): seq<Entry> {
    match who case None => [] case Some(s) => Without(list, s)
  }

  lemma {:induction false} HasNodeWhenHeld(t: Trie, p: seq<string>, who: Option<Subscription>)
    requires At(t, p) != []
    ensures Remove(t, p, true, who).Some? <==> (who.None? || Holds(At(t, p), who.value))
    decreases |p|
  {
    if p != [] {
      if p[0] !in t.kids { AtEmpty(p[1..]); assert false; }
      HasNodeWhenHeld(t.kids[p[0]], p[1..], who);
    }
  }

  /** Unsubscribing one subscriber succeeds exactly when it is stored at that path. */
  lemma RemoveSucceeds(t: Trie, p: seq<string>, ok: bool, s: Subscription)
    ensures Remove(t, p, ok, Some(s)).Some? <==> ok && Holds(At(t, p), s)
  {
    if ok && At(t, p) != [] {
      HasNodeWhenHeld(t, p, Some(s));
    } else {
      RemoveFails(t, p, ok, s);
    }
  }

  lemma {:induction false} RemoveFails(t: Trie, p: seq<string>, ok: bool, s: Subscription)
    requires !ok || At(t, p) == []
    ensures Remove(t, p, ok, Some(s)).None?
    decreases |p|
  {
    if p != [] && p[0] in t.kids {
      RemoveFails(t.kids[p[0]], p[1..], ok, s);
    }
  }

  lemma {:induction false} RemoveAt(t: Trie, p: seq<string>, ok: bool, who: Option<Subscription>, x: seq<string>)
    requires Remove(t, p, ok, who).Some?
    ensures At(Remove(t, p, ok, who).value, x)
         == if x == p then ListAfterRemove(At(t, p), who) else At(t, x)
    decreases |p|
  {
    if p != [] && x != [] && x[0] == p[0] {
      var n := Remove(t.kids[p[0]], p[1..], ok, who).value;
      RemoveAt(t.kids[p[0]], p[1..], ok, who, x[1..]);
      assert x == [x[0]] + x[1..] && p == [p[0]] + p[1..];
      if Bare(n) {
        AtBare(n, x[1..]);
        AtEmpty(x[1..]);
      }
    }
  }

  lemma AtBare(n: Trie, x: seq<string>)
    requires Bare(n)
    ensures At(n, x) == []
  {}

  // ---------------------------------------------------------------- answers depend on the flat map only

  /** The two tries agree on every path but `p`. */
  ghost predicate SameBut(t: Trie, u: Trie, p: seq<string>) {
    forall x :: x != p ==> At(t, x) == At(u, x)
  }

  function If(b: bool, m: multiset<Subscription>): multiset<Subscription> { if b then m else multiset{} }

  lemma SameButKid(t: Trie, u: Trie, p: seq<string>, k: string)
    requires SameBut(t, u, p)
    ensures p != [] && k == p[0] ==> SameBut(Kid(t, k), Kid(u, k), p[1..])
    ensures p == [] || k != p[0] ==> forall x :: At(Kid(t, k), x) == At(Kid(u, k), x)
  {
    forall x | p == [] || [k] + x != p ensures At(Kid(t, k), x) == At(Kid(u, k), x) {
      var y := [k] + x;
      assert y[1..] == x && y[0] == k;
      assert At(t, y) == At(u, y);
    }
    if p != [] && k == p[0] {
      forall x | x != p[1..] ensures At(Kid(t, k), x) == At(Kid(u, k), x) {
        assert ([k] + x)[1..] == x;
      }
    } else {
      forall x ensures At(Kid(t, k), x) == At(Kid(u, k), x) {
        assert ([k] + x)[0] == k;
      }
    }
  }

  lemma {:induction false} SameAnswer(t: Trie, u: Trie, topic: seq<string>)
    requires forall x :: At(t, x) == At(u, x)
    ensures Answer(t, topic) == Answer(u, topic)
    decreases |topic|
  {
    assert At(t, []) == At(u, []);
    assert SameBut(t, u, []);
    SameButKid(t, u, [], MWC);
    assert At(Kid(t, MWC), []) == At(Kid(u, MWC), []);
    if topic != [] {
      SameButKid(t, u, [], SWC);
      SameAnswer(Kid(t, SWC), Kid(u, SWC), topic[1..]);
      SameButKid(t, u, [], topic[0]);
      SameAnswer(Kid(t, topic[0]), Kid(u, topic[0]), topic[1..]);
    }
  }

  /** Changing the list at one path changes the answer to a topic by exactly that list,
      if the path matches the topic, and not at all otherwise. */
  lemma {:induction false} AnswerChange(t: Trie, u: Trie, p: seq<string>, topic: seq<string>)
    requires PathOk(p) && SameBut(t, u, p)
    ensures Answer(t, topic) + If(Match(p, topic), Bag(At(u, p)))
         == Answer(u, topic) + If(Match(p, topic), Bag(At(t, p)))
    decreases |topic|, 1
  {
    if topic == [] {
      AnswerChangeAtEnd(t, u, p);
    } else {
      KidChange(t, u, p, topic, SWC);
      KidChange(t, u, p, topic, topic[0]);
      HashChange(t, u, p);
      MatchByKid(p, topic);
      SumChange(topic[0] == MWC || topic[0] == SWC,
                p == [MWC], MatchBelow(p, topic, SWC), MatchBelow(p, topic, topic[0]),
                Bag(Kid(t, MWC).list), Bag(Kid(u, MWC).list),
                Answer(Kid(t, SWC), topic[1..]), Answer(Kid(u, SWC), topic[1..]),
                Answer(Kid(t, topic[0]), topic[1..]), Answer(Kid(u, topic[0]), topic[1..]),
                Bag(At(t, p)), Bag(At(u, p)));
    }
  }

  lemma HashChange(t: Trie, u: Trie, p: seq<string>)
    requires SameBut(t, u, p)
    ensures if p == [MWC] then Kid(t, MWC).list == At(t, p) && Kid(u, MWC).list == At(u, p)
            else Kid(t, MWC).list == Kid(u, MWC).list
  {
    assert At(t, [MWC]) == Kid(t, MWC).list && At(u, [MWC]) == Kid(u, MWC).list;
  }

  predicate MatchBelow(p: seq<string>, topic: seq<string>, k: string)
    requires topic != []
  {
    p != [] && p[0] == k && Match(p[1..], topic[1..])
  }

  lemma MatchByKid(p: seq<string>, topic: seq<string>)
    requires PathOk(p) && topic != []
    ensures Match(p, topic) <==>
      p == [MWC] || MatchBelow(p, topic, SWC) || (topic[0] != MWC && MatchBelow(p, topic, topic[0]))
  {}

  /** The change at a node is the sum of the changes at its children. */
  lemma SumChange(low: bool, mh: bool, ms: bool, ml: bool,
                  h: multiset<Subscription>, g: multiset<Subscription>,
                  a: multiset<Subscription>, c: multiset<Subscription>,
                  b: multiset<Subscription>, d: multiset<Subscription>,
                  x: multiset<Subscription>, y: multiset<Subscription>)
    requires if mh then h == x && g == y else h == g
    requires a + If(ms, y) == c + If(ms, x) && b + If(ml, y) == d + If(ml, x)
    requires (mh ==> !ms) && (mh || ms ==> low || !ml)
    ensures var m := mh || ms || (!low && ml);
      (h + a + If(!low, b)) + If(m, y) == (g + c + If(!low, d)) + If(m, x)
  {
    var m := mh || ms || (!low && ml);
    var left, right := (h + a + If(!low, b)) + If(m, y), (g + c + If(!low, d)) + If(m, x);
    forall e ensures left[e] == right[e] {
      assert (a + If(ms, y))[e] == (c + If(ms, x))[e];
      assert (b + If(ml, y))[e] == (d + If(ml, x))[e];
    }
  }

  ghost predicate KidChanged(t: Trie, u: Trie, p: seq<string>, topic: seq<string>, k: string)
    requires topic != []
  {
    Answer(Kid(t, k), topic[1..]) + If(MatchBelow(p, topic, k), Bag(At(u, p)))
    == Answer(Kid(u, k), topic[1..]) + If(MatchBelow(p, topic, k), Bag(At(t, p)))
  }

  lemma AnswerChangeAtEnd(t: Trie, u: Trie, p: seq<string>)
    requires PathOk(p) && SameBut(t, u, p)
    ensures Answer(t, []) + If(Match(p, []), Bag(At(u, p))) == Answer(u, []) + If(Match(p, []), Bag(At(t, p)))
  {
    assert p != [] ==> At(t, []) == At(u, []);
    HashChange(t, u, p);
  }

  lemma KidChange(t: Trie, u: Trie, p: seq<string>, topic: seq<string>, k: string)
    requires PathOk(p) && SameBut(t, u, p) && topic != []
    ensures KidChanged(t, u, p, topic, k)
    decreases |topic|, 0
  {
    SameButKid(t, u, p, k);
    if p != [] && p[0] == k {
      forall i | 0 <= i < |p[1..]| - 1 ensures p[1..][i] != MWC { assert p[1..][i] == p[i + 1]; }
      AnswerChange(Kid(t, k), Kid(u, k), p[1..], topic[1..]);
    } else {
      SameAnswer(Kid(t, k), Kid(u, k), topic[1..]);
    }
  }

  // ---------------------------------------------------------------- errors and occurrences

  /** The trie has a node at the path. */
  predicate HasNode(t: Trie, p: seq<string>) {
    p == [] || (p[0] in t.kids && HasNode(t.kids[p[0]], p[1..]))
  }

  /** A path that the lookup of these levels visits: each step goes to `+` or to the level. */
  ghost predicate Visits(p: seq<string>, levels: seq<string>) {
    |p| == |levels| && forall i :: 0 <= i < |p| ==> p[i] == "+" || (p[i] == levels[i] && levels[i] != "#")
  }

  lemma VisitsNext(p: seq<string>, levels: seq<string>)
    requires p != [] && levels != []
    ensures Visits(p, levels) <==> (p[0] == "+" || (p[0] == levels[0] && levels[0] != "#")) && Visits(p[1..], levels[1..])
  {
    if Visits(p[1..], levels[1..]) { assert forall i :: 0 < i < |p| ==> p[i] == p[1..][i - 1] && levels[i] == levels[1..][i - 1]; }
    if Visits(p, levels) { assert forall i :: 0 <= i < |p| - 1 ==> p[1..][i] == p[i + 1] && levels[1..][i] == levels[i + 1]; }
  }

  /** When a lookup fails: the topic is malformed, and some node lies where the lookup meets
      the malformed level. */
  lemma {:induction false} AnswerFailsIff(t: Trie, levels: seq<string>, ok: bool)
    ensures AnswerFails(t, levels, ok) <==> !ok && exists p :: Visits(p, levels) && HasNode(t, p)
    decreases |levels|
  {
    if levels == [] {
      assert Visits([], []) && HasNode(t, []);
    } else {
      var l, rest := levels[0], levels[1..];
      if SWC in t.kids { AnswerFailsIff(t.kids[SWC], rest, ok); }
      if l in t.kids { AnswerFailsIff(t.kids[l], rest, ok); }
      if AnswerFails(t, levels, ok) {
        var k := if SWC in t.kids && AnswerFails(t.kids[SWC], rest, ok) then SWC else l;
        var p :| Visits(p, rest) && HasNode(t.kids[k], p);
        VisitsBelow(t, levels, k, p);
      }
      if !ok && exists p :: Visits(p, levels) && HasNode(t, p) {
        var p :| Visits(p, levels) && HasNode(t, p);
        VisitsNext(p, levels);
      }
    }
  }

  lemma VisitsBelow(t: Trie, levels: seq<string>, k: string, p: seq<string>)
    requires levels != [] && k in t.kids && (k == "+" || (k == levels[0] && k != "#"))
    requires Visits(p, levels[1..]) && HasNode(t.kids[k], p)
    ensures Visits([k] + p, levels) && HasNode(t, [k] + p)
  {
    assert ([k] + p)[1..] == p;
    VisitsNext([k] + p, levels);
  }

  /** A well-formed publish topic never makes `smatch` fail, whatever failed subscribes left behind. */
  lemma {:induction false} AnswerNeverFails(t: Trie, topic: seq<string>)
    ensures !AnswerFails(t, topic, true)
    decreases |topic|
  {
    if topic != [] {
      if SWC in t.kids { AnswerNeverFails(t.kids[SWC], topic[1..]); }
      if topic[0] in t.kids { AnswerNeverFails(t.kids[topic[0]], topic[1..]); }
    }
  }

  lemma {:induction false} EmptyAnswer(topic: seq<string>)
    ensures Answer(EMPTY, topic) == multiset{}
    decreases |topic|
  {
    if topic != [] { EmptyAnswer(topic[1..]); }
  }

  lemma {:induction false} AnswerWithout(t: Trie, topic: seq<string>, s: Subscription)
    requires forall x :: !Holds(At(t, x), s)
    ensures s !in Answer(t, topic)
    decreases |topic|
  {
    AbsentBelow(t, MWC, s);
    assert !Holds(At(Kid(t, MWC), []), s);
    BagMember(Kid(t, MWC).list, s);
    if topic == [] {
      assert !Holds(At(t, []), s);
      BagMember(t.list, s);
    } else {
      AbsentBelow(t, SWC, s);
      AbsentBelow(t, topic[0], s);
      AnswerWithout(Kid(t, SWC), topic[1..], s);
      AnswerWithout(Kid(t, topic[0]), topic[1..], s);
    }
  }

  lemma AbsentBelow(t: Trie, k: string, s: Subscription)
    requires forall x :: !Holds(At(t, x), s)
    ensures forall x :: !Holds(At(Kid(t, k), x), s)
  {
    forall x ensures !Holds(At(Kid(t, k), x), s) {
      assert ([k] + x)[1..] == x;
      assert !Holds(At(t, [k] + x), s);
    }
  }

  /** A subscription stored at one path only is answered once if that path matches and
      never otherwise. */
  lemma AnswerMultiplicity(t: Trie, p: seq<string>, s: Subscription, topic: seq<string>)
    requires PathOk(p) && Holds(At(t, p), s) && OnePerSubscriber(At(t, p))
    requires forall x :: x != p ==> !Holds(At(t, x), s)
    ensures Answer(t, topic)[s] == if Match(p, topic) then 1 else 0
  {
    RemoveSucceeds(t, p, true, s);
    var u := Remove(t, p, true, Some(s)).value;
    forall x ensures At(u, x) == if x == p then Without(At(t, p), s) else At(t, x) {
      RemoveAt(t, p, true, Some(s), x);
    }
    WithoutEffect(At(t, p), s);
    AnswerWithout(u, topic, s);
    BagMember(At(u, p), s);
    assert SameBut(t, u, p);
    AnswerChange(t, u, p, topic);
    var m := Match(p, topic);
    assert (Answer(t, topic) + If(m, Bag(At(u, p))))[s] == (Answer(u, topic) + If(m, Bag(At(t, p))))[s];
  }

  // ---------------------------------------------------------------- structure

  /** Every node lists a subscriber once, and a `#` node has no children. */
  ghost predicate WellShaped(t: Trie) {
    && OnePerSubscriber(t.list)
    && (MWC in t.kids ==> t.kids[MWC].kids == map[])
    && forall k :: k in t.kids ==> WellShaped(t.kids[k])
  }

  lemma {:induction false} InsertKeepsShape(t: Trie, p: seq<string>, ok: bool, s: Subscription, qos: nat)
    requires WellShaped(t) && PathOk(p)
    ensures WellShaped(Insert(t, p, ok, s, qos))
    decreases |p|
  {
    if p == [] {
      UpsertEffect(t.list, s, qos);
    } else {
      forall i | 0 <= i < |p[1..]| - 1 ensures p[1..][i] != MWC { assert p[1..][i] == p[i + 1]; }
      assert WellShaped(Kid(t, p[0]));
      InsertKeepsShape(Kid(t, p[0]), p[1..], ok, s, qos);
    }
  }

  lemma {:induction false} RemoveKeepsShape(t: Trie, p: seq<string>, ok: bool, who: Option<Subscription>)
    requires WellShaped(t) && Remove(t, p, ok, who).Some?
    ensures WellShaped(Remove(t, p, ok, who).value)
    ensures t.kids == map[] ==> Remove(t, p, ok, who).value.kids == map[]
    decreases |p|
  {
    if p == [] {
      if who.Some? { WithoutEffect(t.list, who.value); }
    } else {
      RemoveKeepsShape(t.kids[p[0]], p[1..], ok, who);
    }
  }

  lemma {:induction false} ShapeAt(t: Trie, p: seq<string>)
    requires WellShaped(t)
    ensures OnePerSubscriber(At(t, p))
    decreases |p|
  {
    if p != [] {
      if p[0] in t.kids { ShapeAt(t.kids[p[0]], p[1..]); } else { AtEmpty(p[1..]); }
    }
  }

  /** No node but the root is without both subscribers and children. */
  ghost predicate Pruned(t: Trie) {
    forall k :: k in t.kids ==> !Bare(t.kids[k]) && Pruned(t.kids[k])
  }

  /** Pruned means: every node but the root has a subscriber at or below it. */
  lemma {:induction false} PrunedHasSubscriber(t: Trie) returns (p: seq<string>)
    requires Pruned(t) && !Bare(t)
    ensures At(t, p) != []
  {
    if t.list != [] {
      p := [];
    } else {
      var k :| k in t.kids;
      var q := PrunedHasSubscriber(t.kids[k]);
      p := [k] + q;
      assert p[1..] == q;
    }
  }

  lemma {:induction false} InsertKeepsPruned(t: Trie, p: seq<string>, s: Subscription, qos: nat)
    requires Pruned(t)
    ensures Pruned(Insert(t, p, true, s, qos)) && !Bare(Insert(t, p, true, s, qos))
    decreases |p|
  {
    if p != [] {
      assert Pruned(Kid(t, p[0]));
      InsertKeepsPruned(Kid(t, p[0]), p[1..], s, qos);
      assert p[0] in Insert(t, p, true, s, qos).kids;
    }
  }

  lemma {:induction false} RemoveKeepsPruned(t: Trie, p: seq<string>, ok: bool, who: Option<Subscription>)
    requires Pruned(t) && Remove(t, p, ok, who).Some?
    ensures Pruned(Remove(t, p, ok, who).value)
    decreases |p|
  {
    if p != [] {
      RemoveKeepsPruned(t.kids[p[0]], p[1..], ok, who);
    }
  }

  /** No bare node among the existing nodes along a path, the root aside. */
  predicate NoBareAlong(t: Trie, p: seq<string>)
    decreases |p|
  {
    p != [] && p[0] in t.kids ==> !Bare(t.kids[p[0]]) && NoBareAlong(t.kids[p[0]], p[1..])
  }

  /** Subscribing a new subscriber and unsubscribing it restores the identical trie, list
      order included, exactly when no leftover of a refused filter lies along the path. */
  lemma {:induction false} InsertThenRemove(t: Trie, p: seq<string>, s: Subscription, qos: nat)
    requires !Holds(At(t, p), s)
    ensures Remove(Insert(t, p, true, s, qos), p, true, Some(s)).Some?
    ensures Remove(Insert(t, p, true, s, qos), p, true, Some(s)) == Some(t) <==> NoBareAlong(t, p)
    decreases |p|
  {
    var u := Insert(t, p, true, s, qos);
    if p == [] {
      UpsertEffect(t.list, s, qos);
      FindAppended(t.list, s, qos);
      assert Without(u.list, s) == t.list;
    } else {
      var k, n := p[0], Kid(t, p[0]);
      InsertThenRemove(n, p[1..], s, qos);
      var m := Remove(u.kids[k], p[1..], true, Some(s)).value;
      if k in t.kids {
        var r := if Bare(m) then u.kids - {k} else u.kids[k := m];
        assert m == n && !Bare(n) ==> r == t.kids;
        assert k in r && r[k] == n <==> m == n && !Bare(n);
      } else {
        assert NoBareAlong(n, p[1..]);
        assert u.kids - {k} == t.kids;
      }
    }
  }

  lemma FindAppended(list: seq<Entry>, s: Subscription, qos: nat)
    requires !Holds(list, s)
    ensures Find(list + [Entry(s, qos)], s) == |list|
  {
    var longer := list + [Entry(s, qos)];
    assert longer[|list|].sub == s;
    assert forall j :: 0 <= j < |list| ==> longer[j] == list[j] && list[j].sub != s;
  }

  lemma {:induction false} PrunedNoBareAlong(t: Trie, p: seq<string>)
    requires Pruned(t)
    ensures NoBareAlong(t, p)
    decreases |p|
  {
    if p != [] && p[0] in t.kids { PrunedNoBareAlong(t.kids[p[0]], p[1..]); }
  }
}
