/** Topic matching of the file-based access control, and how it relates to filter matching. */
module Acl {
  import opened Prelude
  import opened TopicLevels
  import opened Matching

  // ---------------------------------------------------------------- splitting

  /** The ends of a split topic may be empty and are then written as "/". */
  function FillEnds(levels: seq<string>): seq<string> {
    seq(|levels|, i requires 0 <= i < |levels| =>
      if levels[i] == "" && (i == 0 || i == |levels| - 1) then "/" else levels[i])
  }

  predicate Inner(levels: seq<string>, i: int) { 0 < i < |levels| - 1 }

  predicate BadLevel(level: string) { level == "" || ('+' in level && level != SWC) }

  predicate HashOnlyLast(topic: string) {
    forall i :: 0 <= i < |topic| && topic[i] == '#' ==> i == |topic| - 1
  }

  /** The levels of a rule or filter; none if it is malformed. */
  function RuleLevels(topic: string): Option<seq<string>> {
    var re := Split(topic);
    if !HashOnlyLast(topic) then None
    else if exists i :: 0 <= i < |re| && Inner(re, i) && BadLevel(re[i]) then None
    else Some(FillEnds(re))
  }

  /** The levels of a publish topic; none if it is malformed. */
  function TopicNames(topic: string): Option<seq<string>> {
    var re := Split(topic);
    if '#' in topic || '+' in topic then None
    else if exists i :: 0 <= i < |re| && Inner(re, i) && re[i] == "" then None
    else Some(FillEnds(re))
  }

  lemma FillNext(re: seq<string>, i: nat)
    requires i < |re|
    ensures FillEnds(re)[..i + 1] + re[i + 1..] == (FillEnds(re)[..i] + re[i..])[i := FillEnds(re)[i]]
  {}

  method IndexByte(s: string, c: char) returns (i: int)
    ensures i == -1 ==> c !in s
    ensures i != -1 ==> 0 <= i < |s| && s[i] == c && c !in s[..i]
  {
    i := 0;
    while i < |s|
      invariant 0 <= i <= |s| && c !in s[..i]
    {
      if s[i] == c { return; }
      assert s[..i + 1] == s[..i] + [s[i]];
      i := i + 1;
    }
    assert s[..i] == s;
    i := -1;
  }

  /** The test on the first `#`: none, or the last character. */
  method HashCheck(topic: string) returns (ok: bool)
    ensures ok <==> HashOnlyLast(topic)
  {
    var at := IndexByte(topic, '#');
    if at != -1 {
      if at != |topic| - 1 {
        return false;
      }
      assert forall i :: 0 <= i < at ==> topic[i] == topic[..at][i];
    }
    return true;
  }

  method SubscribeTopicSpilt(topic: string) returns (r: Option<seq<string>>)
    ensures r == RuleLevels(topic)
  {
    var hashOk := HashCheck(topic);
    if !hashOk {
      return None;
    }
    ghost var whole := Split(topic);
    var re := Split(topic);
    for i := 0 to |re|
      invariant |re| == |whole| && re == FillEnds(whole)[..i] + whole[i..]
      invariant forall j :: 0 <= j < i && Inner(whole, j) ==> !BadLevel(whole[j])
    {
      var v := re[i];
      FillNext(whole, i);
      if i != 0 && i != |re| - 1 {
        assert Inner(whole, i);
        if v == "" {
          return None;
        }
        if '+' in v && v != SWC {
          return None;
        }
        assert re == re[i := FillEnds(whole)[i]];
      } else {
        if v == "" {
          re := re[i := "/"];
        } else {
          assert re == re[i := FillEnds(whole)[i]];
        }
      }
    }
    assert re == FillEnds(whole);
    return Some(re);
  }

  method PublishTopicSpilt(topic: string) returns (r: Option<seq<string>>)
    ensures r == TopicNames(topic)
  {
    var hash := IndexByte(topic, '#');
    var plus := IndexByte(topic, '+');
    if hash != -1 || plus != -1 {
      return None;
    }
    ghost var whole := Split(topic);
    var re := Split(topic);
    for i := 0 to |re|
      invariant |re| == |whole| && re == FillEnds(whole)[..i] + whole[i..]
      invariant forall j :: 0 <= j < i && Inner(whole, j) ==> whole[j] != ""
    {
      FillNext(whole, i);
      if re[i] == "" {
        if i != 0 && i != |re| - 1 {
          assert Inner(whole, i);
          return None;
        } else {
          re := re[i := "/"];
        }
      } else {
        assert re == re[i := FillEnds(whole)[i]];
      }
    }
    assert re == FillEnds(whole);
    return Some(re);
  }

  // ---------------------------------------------------------------- matching

  /** The levels of a rule that have to agree: all but a final `#`. */
  function Fixed(rule: seq<string>): nat { if EndsWithHash(rule) then |rule| - 1 else |rule| }

  /** The rule has no more levels than the topic and matches it level by level. */
  ghost predicate Covers(rule: seq<string>, topic: seq<string>) {
    |rule| <= |topic| && LevelsMatch(rule, topic, Fixed(rule))
  }

  /** For a subscription, `+` in the filter also agrees with every level of the rule. */
  ghost predicate CoversFilter(rule: seq<string>, filter: seq<string>) {
    |rule| <= |filter| && forall i :: 0 <= i < Fixed(rule) ==> filter[i] == SWC || LevelMatches(rule[i], filter[i])
  }

  function OrNothing(o: Option<seq<string>>): seq<string> { if o.Some? then o.value else [] }

  ghost predicate PubCovered(pub: string, des: string) { Covers(OrNothing(RuleLevels(des)), OrNothing(TopicNames(pub))) }

  ghost predicate SubCovered(pub: string, des: string) { CoversFilter(OrNothing(RuleLevels(des)), OrNothing(RuleLevels(pub))) }

  /** A split rule has `#` as its last level only. */
  lemma RuleLevelsPathOk(des: string)
    ensures PathOk(OrNothing(RuleLevels(des)))
  {
    if RuleLevels(des).Some? {
      HashEndsSplit(des);
    }
  }

  lemma {:induction false} HashEndsSplit(topic: string)
    requires HashOnlyLast(topic)
    ensures PathOk(Split(topic)) && PathOk(FillEnds(Split(topic)))
    decreases |topic|
  {
    if HasSeparator(topic) {
      var h, r := Head(topic), Tail(topic);
      assert forall i :: 0 <= i < |r| ==> r[i] == topic[|h| + 1 + i];
      HashEndsSplit(r);
      assert h != "" ==> topic[0] == h[0];
    }
  }

  method PubTopicMatch(pub: string, des: string) returns (r: bool)
    ensures r <==> PubCovered(pub, des)
  {
    var d := SubscribeTopicSpilt(des);
    var t := PublishTopicSpilt(pub);
    RuleLevelsPathOk(des);
    r := Compare(OrNothing(d), OrNothing(t), false);
  }

  method SubTopicMatch(pub: string, des: string) returns (r: bool)
    ensures r <==> SubCovered(pub, des)
  {
    var d := SubscribeTopicSpilt(des);
    var t := SubscribeTopicSpilt(pub);
    RuleLevelsPathOk(des);
    r := Compare(OrNothing(d), OrNothing(t), true);
  }

  /** The loop of both checks; they differ in whether a `+` of the topic agrees with anything. */
  method Compare(dest: seq<string>, topic: seq<string>, filter: bool) returns (r: bool)
    requires PathOk(dest)
    ensures r <==> if filter then CoversFilter(dest, topic) else Covers(dest, topic)
  {
    ghost var n := Fixed(dest);
    for i := 0 to |dest|
      invariant i <= |topic|
      invariant forall j :: 0 <= j < i ==> dest[j] != MWC && ((filter && topic[j] == SWC) || LevelMatches(dest[j], topic[j]))
    {
      if i > |topic| - 1 {
        return false;
      }
      if dest[i] == MWC {
        assert n == i;
        return true;
      }
      assert i < n;
      if dest[i] == SWC || (filter && topic[i] == SWC) || dest[i] == topic[i] {
        continue;
      }
      return false;
    }
    return true;
  }

  // ---------------------------------------------------------------- relation to filter matching

  /** Where the access rule and the filter relation part: exactly on longer topics under a
      rule without `#`, and on the parent level of a rule that ends in `#`. */
  lemma CoversVersusMatch(rule: seq<string>, topic: seq<string>)
    requires PathOk(rule)
    ensures (Covers(rule, topic) <==> Match(rule, topic)) <==>
      !(|| (!EndsWithHash(rule) && |rule| < |topic| && LevelsMatch(rule, topic, |rule|))
        || (EndsWithHash(rule) && |topic| == |rule| - 1 && LevelsMatch(rule, topic, |topic|)))
  {}

  lemma {:induction false} WellFormedSplit(topic: string)
    requires !Malformed(topic)
    ensures forall l :: l in Split(topic) ==> LevelOk(l)
    ensures HashOnlyLast(topic)
    decreases |topic|
  {
    forall i | 0 <= i < |topic| && topic[i] == '#' ensures i == |topic| - 1 {
      assert !BadAt(topic, i);
    }
    if topic != "" {
      MalformedByParts(topic);
      assert LevelOk(Head(topic));
      if HasSeparator(topic) {
        WellFormedSplit(Tail(topic));
      } else {
        assert Head(topic) == topic;
      }
    }
  }

  lemma {:induction false} SplitCharacters(topic: string, c: char)
    requires c !in topic
    ensures forall l :: l in Split(topic) ==> c !in l
    decreases |topic|
  {
    if HasSeparator(topic) {
      SplitCharacters(Tail(topic), c);
    }
  }

  lemma FillNothing(levels: seq<string>)
    requires forall l :: l in levels ==> l != ""
    ensures FillEnds(levels) == levels
  {
    assert forall i :: 0 <= i < |levels| ==> levels[i] in levels;
  }

  lemma RuleLevelsOfWellFormed(rule: string)
    requires !Malformed(rule) && NoEmptyLevel(rule)
    ensures RuleLevels(rule) == Some(Tokenize(rule).levels)
  {
    var re := Split(rule);
    WellFormedSplit(rule);
    TokenizeFailsIffMalformed(rule);
    TokenizeIsNormalizedSplit(rule);
    NormalizeNothing(re);
    FillNothing(re);
    forall i | Inner(re, i) ensures !BadLevel(re[i]) {
      assert re[i] in re;
    }
  }

  lemma TopicNamesOfPlain(topic: string)
    requires '#' !in topic && '+' !in topic && NoEmptyLevel(topic)
    ensures !Malformed(topic) && TopicNames(topic) == Some(Tokenize(topic).levels)
  {
    var re := Split(topic);
    TokenizeFailsIffMalformed(topic);
    TokenizeIsNormalizedSplit(topic);
    NormalizeNothing(re);
    FillNothing(re);
    forall i | Inner(re, i) ensures re[i] != "" {
      assert re[i] in re;
    }
  }

  /** On strings: a well-formed rule and a plain topic, both without empty levels. */
  lemma AccessVersusIndex(rule: string, topic: string)
    requires !Malformed(rule) && NoEmptyLevel(rule)
    requires '#' !in topic && '+' !in topic && NoEmptyLevel(topic)
    ensures var d, t := Tokenize(rule).levels, Tokenize(topic).levels;
      && (PubCovered(topic, rule) <==> Covers(d, t))
      && ((PubCovered(topic, rule) <==> Match(d, t)) <==>
          !(|| (!EndsWithHash(d) && |d| < |t| && LevelsMatch(d, t, |d|))
            || (EndsWithHash(d) && |t| == |d| - 1 && LevelsMatch(d, t, |t|))))
  {
    RuleLevelsOfWellFormed(rule);
    TopicNamesOfPlain(topic);
    TokenizePathOk(rule);
    CoversVersusMatch(Tokenize(rule).levels, Tokenize(topic).levels);
  }

  /** On a topic without wildcards both checks give the same verdict, for every rule. */
  lemma SubscribeAndPublishAgree(topic: string, rule: string)
    requires '#' !in topic && '+' !in topic
    ensures SubCovered(topic, rule) <==> PubCovered(topic, rule)
  {
    var re := Split(topic);
    SplitCharacters(topic, '+');
    forall i | 0 <= i < |re| ensures '+' !in re[i] { assert re[i] in re; }
    assert RuleLevels(topic) == TopicNames(topic);
    var t := OrNothing(TopicNames(topic));
    forall i | 0 <= i < |t| ensures t[i] != SWC {
      assert '+' !in t[i] && '+' in SWC;
    }
  }

  // ---------------------------------------------------------------- both checks, on the split strings

  /** Two levels at the same place agree after filling the ends iff they agree before. */
  lemma FillAgrees(a: seq<string>, b: seq<string>, i: nat)
    requires i < |a| && i < |b|
    requires forall l :: l in a || l in b ==> '/' !in l
    requires forall j :: Inner(a, j) ==> a[j] != ""
    requires forall j :: Inner(b, j) ==> b[j] != ""
    ensures FillEnds(a)[i] == FillEnds(b)[i] <==> a[i] == b[i]
    ensures FillEnds(a)[i] == SWC <==> a[i] == SWC
    ensures FillEnds(a)[i] == MWC <==> a[i] == MWC
  {
    assert a[i] in a && b[i] in b;
    assert "/"[0] == '/';
  }

  /** The number of levels before a final `#`. */
  function Compared(levels: seq<string>): nat {
    if |levels| > 0 && levels[|levels| - 1] == "#" then |levels| - 1 else |levels|
  }

  lemma SplitHasNoSlash(topic: string)
    ensures forall l :: l in Split(topic) ==> '/' !in l
  {
    SplitThenJoin(topic);
  }

  lemma FillKeepsEnd(levels: seq<string>)
    requires |levels| > 0
    ensures Fixed(FillEnds(levels)) == Compared(levels)
  {
    assert "/"[0] != "#"[0];
  }

  /** The publish check for every rule and topic that can be split, empty ends included: the
      rule has no more levels than the topic, and up to a final `#` each is `+` or the same. */
  lemma PublishCheckIsLevelwise(pub: string, des: string)
    requires RuleLevels(des).Some? && TopicNames(pub).Some?
    ensures var d, t := Split(des), Split(pub);
      PubCovered(pub, des) <==> |d| <= |t| && forall i :: 0 <= i < Compared(d) ==> d[i] == "+" || d[i] == t[i]
  {
    var d, t := Split(des), Split(pub);
    SplitHasNoSlash(des);
    SplitHasNoSlash(pub);
    FillKeepsEnd(d);
    var fd, ft := FillEnds(d), FillEnds(t);
    forall i | 0 <= i < |d| && i < |t| ensures LevelMatches(fd[i], ft[i]) <==> d[i] == "+" || d[i] == t[i] {
      FillAgrees(d, t, i);
    }
  }

  /** The subscribe check likewise, where `+` on either side agrees with everything. */
  lemma SubscribeCheckIsLevelwise(pub: string, des: string)
    requires RuleLevels(des).Some? && RuleLevels(pub).Some?
    ensures var d, t := Split(des), Split(pub);
      SubCovered(pub, des) <==> |d| <= |t| && forall i :: 0 <= i < Compared(d) ==> d[i] == "+" || t[i] == "+" || d[i] == t[i]
  {
    var d, t := Split(des), Split(pub);
    SplitHasNoSlash(des);
    SplitHasNoSlash(pub);
    FillKeepsEnd(d);
    var fd, ft := FillEnds(d), FillEnds(t);
    forall i | 0 <= i < |d| && i < |t|
      ensures ft[i] == SWC || LevelMatches(fd[i], ft[i]) <==> d[i] == "+" || t[i] == "+" || d[i] == t[i]
    {
      FillAgrees(d, t, i);
      FillAgrees(t, d, i);
    }
  }

  /** An empty first level is a level of its own: of the rules with two levels of which the
      second is `a`, exactly `/a` and `+/a` cover the topic `/a`. */
  lemma EmptyFirstLevel(x: string)
    requires '/' !in x && '#' !in x
    ensures PubCovered("/a", x + "/a") <==> x == "" || x == "+"
  {
    JoinThenSplit([x, "a"]);
    JoinThenSplit(["", "a"]);
    assert [x, "a"][1..] == ["a"] && ["", "a"][1..] == ["a"] && Join(["a"]) == "a";
    assert Join([x, "a"]) == x + "/a" && Join(["", "a"]) == "/a";
    assert '#' !in x + "/a" && '#' !in "/a" && '+' !in "/a";
    PublishCheckIsLevelwise("/a", x + "/a");
  }

  // ---------------------------------------------------------------- rules that cannot be split

  /** A rule covers every publish topic, and every filter, exactly if it cannot be split: the
      callers go on with no levels. */
  lemma CoversEverythingIffUnsplit(des: string)
    ensures (forall pub :: PubCovered(pub, des)) <==> RuleLevels(des).None?
    ensures (forall pub :: SubCovered(pub, des)) <==> RuleLevels(des).None?
  {
    if RuleLevels(des).Some? {
      assert |OrNothing(RuleLevels(des))| > 0;
      assert "+"[0] == '+' && "##"[0] == '#';
      assert TopicNames("+").None? && RuleLevels("##").None?;
      assert !PubCovered("+", des) && !SubCovered("##", des);
    }
  }

  /** Some level before the last one is empty or holds a `+` that does not fill it; the first
      level counts only if something precedes it. */
  ghost predicate BadInside(levels: seq<string>, first: bool) {
    exists i :: 0 <= i < |levels| - 1 && (i > 0 || !first) && BadLevel(levels[i])
  }

  /** Said of characters: a separator that directly follows another. */
  predicate DoubleAt(topic: string, k: nat, first: bool)
    requires k < |topic|
  {
    topic[k] == '/' && (if k == 0 then !first else topic[k - 1] == '/')
  }

  /** A `+` between two separators with another neighbour. */
  predicate PlusAt(topic: string, k: nat, first: bool)
    requires k < |topic|
  {
    && topic[k] == '+' && '/' in topic[k..] && (!first || '/' in topic[..k])
    && ((k > 0 && topic[k - 1] != '/') || (k + 1 < |topic| && topic[k + 1] != '/'))
  }

  predicate BadCharAt(topic: string, k: nat, first: bool)
    requires k < |topic|
  {
    DoubleAt(topic, k, first) || PlusAt(topic, k, first)
  }

  ghost predicate BadChar(topic: string, first: bool) { exists k :: 0 <= k < |topic| && BadCharAt(topic, k, first) }

  lemma {:induction false} BadInsideIffBadChar(topic: string, first: bool)
    ensures BadInside(Split(topic), first) <==> BadChar(topic, first)
    decreases |topic|
  {
    if HasSeparator(topic) {
      var h, r := Head(topic), Tail(topic);
      BadInsideIffBadChar(r, false);
      BadInsideSplits(h, Split(r), first);
      BadCharSplits(h, r, topic, first);
    } else {
      assert Head(topic) == topic;
      assert forall k :: 0 <= k < |topic| ==> topic[k] != '/';
    }
  }

  lemma BadInsideSplits(h: string, rest: seq<string>, first: bool)
    requires |rest| > 0
    ensures BadInside([h] + rest, first) <==> (!first && BadLevel(h)) || BadInside(rest, false)
  {
    var levels := [h] + rest;
    if BadInside(rest, false) {
      var i :| 0 <= i < |rest| - 1 && BadLevel(rest[i]);
      assert levels[i + 1] == rest[i];
    }
    if BadInside(levels, first) {
      var i :| 0 <= i < |levels| - 1 && (i > 0 || !first) && BadLevel(levels[i]);
      if i > 0 { assert levels[i] == rest[i - 1]; }
    }
    if !first && BadLevel(h) { assert levels[0] == h; }
  }

  lemma BadCharSplits(h: string, r: string, topic: string, first: bool)
    requires topic == h + "/" + r && '/' !in h
    ensures BadChar(topic, first) <==> (!first && BadLevel(h)) || BadChar(r, false)
  {
    if BadChar(r, false) {
      var k :| 0 <= k < |r| && BadCharAt(r, k, false);
      CharShifts(h, r, topic, k, first);
      assert BadCharAt(topic, |h| + 1 + k, first);
    }
    if !first && BadLevel(h) {
      var k := BadCharInHead(h, r, topic);
    }
    if BadChar(topic, first) {
      var k :| 0 <= k < |topic| && BadCharAt(topic, k, first);
      BadCharDown(h, r, topic, k, first);
    }
  }

  lemma BadCharDown(h: string, r: string, topic: string, k: nat, first: bool)
    requires topic == h + "/" + r && '/' !in h && k < |topic|
    ensures BadCharAt(topic, k, first) ==> (!first && BadLevel(h)) || BadChar(r, false)
  {
    if k > |h| {
      var j: nat := k - |h| - 1;
      CharShifts(h, r, topic, j, first);
      assert BadCharAt(topic, k, first) ==> BadCharAt(r, j, false);
    } else {
      HeadOfBadChar(h, r, topic, k, first);
    }
  }

  lemma CharShifts(h: string, r: string, topic: string, k: nat, first: bool)
    requires topic == h + "/" + r && k < |r|
    ensures DoubleAt(topic, |h| + 1 + k, first) <==> DoubleAt(r, k, false)
    ensures PlusAt(topic, |h| + 1 + k, first) <==> PlusAt(r, k, false)
  {
    var n := |h| + 1 + k;
    assert topic[n..] == r[k..];
    assert topic[..n][|h|] == '/';
  }

  lemma BadCharInHead(h: string, r: string, topic: string) returns (k: nat)
    requires topic == h + "/" + r && '/' !in h && BadLevel(h)
    ensures k < |topic| && BadCharAt(topic, k, false)
  {
    if h == "" {
      k := 0;
    } else {
      k :| 0 <= k < |h| && h[k] == '+';
      assert topic[k..][|h| - k] == '/';
      assert |h| == 1 ==> h == SWC;
    }
  }

  lemma HeadOfBadChar(h: string, r: string, topic: string, k: nat, first: bool)
    requires topic == h + "/" + r && '/' !in h && k <= |h|
    ensures BadCharAt(topic, k, first) ==> !first && BadLevel(h)
  {
    assert '/' !in topic[..k];
  }

  /** Which strings cannot be split, said of single characters: a rule with a `#` before its
      end, two adjacent separators, or a `+` between two separators that does not fill its
      level; a publish topic with a wildcard or two adjacent separators. */
  lemma UnsplitByCharacters(s: string)
    ensures RuleLevels(s).None? <==> BadChar(s, true) || exists i :: 0 <= i < |s| - 1 && s[i] == '#'
    ensures TopicNames(s).None? <==> '#' in s || '+' in s || exists i :: 0 < i < |s| && s[i - 1] == '/' && s[i] == '/'
  {
    BadInsideIffBadChar(s, true);
    var re := Split(s);
    assert BadInside(re, true) <==> exists i :: 0 <= i < |re| && Inner(re, i) && BadLevel(re[i]);
    if '+' !in s { PlainByCharacters(s); }
  }

  lemma PlainByCharacters(s: string)
    requires '+' !in s
    ensures BadInside(Split(s), true) <==> exists i :: 0 <= i < |Split(s)| && Inner(Split(s), i) && Split(s)[i] == ""
    ensures BadChar(s, true) <==> exists i :: 0 < i < |s| && s[i - 1] == '/' && s[i] == '/'
  {
    SplitCharacters(s, '+');
    PlainInside(Split(s));
    PlainChars(s);
  }

  lemma PlainInside(re: seq<string>)
    requires forall l :: l in re ==> '+' !in l
    ensures BadInside(re, true) <==> exists i :: 0 <= i < |re| && Inner(re, i) && re[i] == ""
  {
    forall i | 0 <= i < |re| ensures BadLevel(re[i]) <==> re[i] == "" { assert re[i] in re; }
    assert forall i :: 0 <= i < |re| ==> (Inner(re, i) <==> 0 < i < |re| - 1);
  }

  lemma PlainChars(s: string)
    requires '+' !in s
    ensures BadChar(s, true) <==> exists i :: 0 < i < |s| && s[i - 1] == '/' && s[i] == '/'
  {
    forall k | 0 <= k < |s| ensures BadCharAt(s, k, true) <==> k > 0 && s[k - 1] == '/' && s[k] == '/' {
      assert s[k] in s;
    }
  }

  /** Such rules: a `#` before the end, and also an inner empty level, which the topic index
      accepts. */
  lemma UnsplitRules()
    ensures RuleLevels("#/a").None? && RuleLevels("a//b").None? && !Malformed("a//b")
  {
    assert "#/a"[0] == '#';
    assert Split("a//b") == ["a", "", "b"] by { SplitOfDouble(); }
    assert Inner(["a", "", "b"], 1) && BadLevel(["a", "", "b"][1]);
  }

  lemma SplitOfDouble()
    ensures Split("a//b") == ["a", "", "b"]
  {
    assert "a//b"[1..] == "//b" && "a//b"[2..] == "/b" && "/b"[1..] == "b";
    assert Head("//b") == "" && Head("a//b") == "a" && Head("/b") == "";
    assert Head("b") == "b" by { HeadWhole("b"); }
    assert Split("b") == ["b"];
    assert Split("/b") == ["", "b"];
  }
}
