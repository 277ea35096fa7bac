/** The hand-written level tokenizer of the topic index (`nextTopicLevel`). */
module TopicLevels {

  const MWC := "#"
  const SWC := "+"

  /** What one call of the tokenizer returns: the next level and the rest, or an error. */
  datatype Next = Bad | Next(level: string, rem: string)

  // ---------------------------------------------------------------- reference definitions

  /** The first level of a topic, up to the first separator. */
  function Head(topic: string): (h: string)
    ensures |h| <= |topic| && h == topic[..|h|] && '/' !in h
    ensures |h| < |topic| ==> topic[|h|] == '/'
  {
    if topic == "" || topic[0] == '/' then "" else [topic[0]] + Head(topic[1..])
  }

  predicate HasSeparator(topic: string) { |Head(topic)| < |topic| }

  function Tail(topic: string): (r: string) {
    if HasSeparator(topic) then topic[|Head(topic)| + 1..] else ""
  }

  /** A wildcard character fills its level. */
  predicate LevelOk(level: string) {
    '#' in level || '+' in level ==> |level| == 1
  }

  /** What the tokenizer answers, said of whole levels instead of characters. */
  function NextLevel(topic: string): (r: Next) {
    var h := Head(topic);
    if !LevelOk(h) || (h == MWC && HasSeparator(topic)) then Bad
    else Next(if h == "" && HasSeparator(topic) then SWC else h, Tail(topic))
  }

  /** All the levels that iterating the tokenizer yields before it ends or fails. */
  datatype Tokens = Tokens(levels: seq<string>, ok: bool)

  function Tokenize(topic: string): (r: Tokens)
    decreases |topic|
  {
    if topic == "" then Tokens([], true) else
    match NextLevel(topic)
    case Bad => Tokens([], false)
    case Next(level, rem) =>
      var rest := Tokenize(rem);
      Tokens([level] + rest.levels, rest.ok)
  }

  /** `strings.Split(topic, "/")`. */
  function Split(topic: string): (r: seq<string>)
    ensures |r| >= 1
    decreases |topic|
  {
    if HasSeparator(topic) then [Head(topic)] + Split(Tail(topic)) else [topic]
  }

  function Join(levels: seq<string>): string {
    if |levels| == 0 then "" else if |levels| == 1 then levels[0]
    else levels[0] + "/" + Join(levels[1..])
  }

  /** Said of single characters: some wildcard has a neighbour other than a separator,
      or a `#` is not the last character. */
  ghost predicate Malformed(topic: string) {
    exists i :: 0 <= i < |topic| && BadAt(topic, i)
  }

  predicate BadAt(topic: string, i: nat)
    requires i < |topic|
  {
    || (topic[i] == '#' && i + 1 < |topic|)
    || (topic[i] in "#+" && i > 0 && topic[i - 1] != '/')
    || (topic[i] in "#+" && i + 1 < |topic| && topic[i + 1] != '/')
  }

  function WithoutTrailingEmpty(levels: seq<string>): seq<string> {
    if |levels| > 0 && levels[|levels| - 1] == "" then levels[..|levels| - 1] else levels
  }

  function EmptyToPlus(levels: seq<string>): (r: seq<string>) {
    seq(|levels|, i requires 0 <= i < |levels| => if levels[i] == "" then SWC else levels[i])
  }

  /** The multi-level wildcard can only be the last level. */
  predicate PathOk(path: seq<string>) {
    forall i :: 0 <= i < |path| - 1 ==> path[i] != MWC
  }

  // ---------------------------------------------------------------- the loop of the source

  datatype State = CHR | MULTI | SINGLE

  method NextTopicLevel(topic: string) returns (r: Next)
    ensures r == NextLevel(topic)
    ensures r.Next? && topic != "" ==> |r.rem| < |topic|
  {
    var s := CHR;
    var i := 0;
    while i < |topic|
      invariant 0 <= i <= |topic| && '/' !in topic[..i]
      invariant s == (if i == 0 then CHR else if topic[0] == '#' then MULTI else if topic[0] == '+' then SINGLE else CHR)
      invariant s != CHR ==> i == 1
      invariant s == CHR ==> '#' !in topic[..i] && '+' !in topic[..i]
    {
      HeadExtends(topic, i);
      assert topic[..i + 1] == topic[..i] + [topic[i]];
      var c := topic[i];
      if c == '/' {
        assert Head(topic) == topic[..i];
        if s == MULTI {
          return Bad;
        }
        if i == 0 {
          return Next(SWC, topic[i + 1..]);
        }
        return Next(topic[..i], topic[i + 1..]);
      } else if c == '#' {
        if i != 0 {
          assert Head(topic)[i] == '#';
          return Bad;
        }
        s := MULTI;
      } else if c == '+' {
        if i != 0 {
          assert Head(topic)[i] == '+';
          return Bad;
        }
        s := SINGLE;
      } else {
        if s == MULTI || s == SINGLE {
          assert Head(topic)[0] == topic[0];
          return Bad;
        }
        s := CHR;
      }
      i := i + 1;
    }
    assert topic[..|topic|] == topic;
    HeadWhole(topic);
    return Next(topic, "");
  }

  /** The first level reaches at least as far as no separator has been seen. */
  lemma HeadExtends(topic: string, i: nat)
    requires i < |topic| && '/' !in topic[..i]
    ensures if topic[i] == '/' then Head(topic) == topic[..i] else |Head(topic)| > i
  {}

  lemma HeadWhole(topic: string)
    requires '/' !in topic
    ensures Head(topic) == topic && !HasSeparator(topic)
  {}

  // ---------------------------------------------------------------- what iterating it yields

  /** Splitting yields levels without separators that joined again are the topic. */
  lemma {:induction false} SplitThenJoin(topic: string)
    ensures Join(Split(topic)) == topic
    ensures forall l :: l in Split(topic) ==> '/' !in l
    decreases |topic|
  {
    if HasSeparator(topic) {
      SplitThenJoin(Tail(topic));
      assert Split(topic)[1..] == Split(Tail(topic));
      assert topic == Head(topic) + "/" + Tail(topic);
    } else {
      assert Head(topic) == topic;
    }
  }

  /** And it is the only way to write a topic as levels without separators. */
  lemma {:induction false} JoinThenSplit(levels: seq<string>)
    requires |levels| > 0 && forall l :: l in levels ==> '/' !in l
    ensures Split(Join(levels)) == levels
  {
    var topic := Join(levels);
    assert levels[0] in levels;
    if |levels| == 1 {
      HeadWhole(topic);
    } else {
      var h, r := levels[0], Join(levels[1..]);
      JoinThenSplit(levels[1..]);
      assert topic == h + "/" + r;
      assert topic[..|h|] == h && topic[|h|] == '/' && topic[|h| + 1..] == r;
      HeadExtends(topic, |h|);
    }
  }

  lemma BadInHeadAt(topic: string, i: nat)
    requires i < |Head(topic)|
    ensures BadAt(topic, i) <==> topic[i] in "#+" && (|Head(topic)| > 1 || (topic[i] == '#' && HasSeparator(topic)))
  {}

  /** The first level holds a bad character iff the tokenizer refuses the level. */
  lemma BadInHead(topic: string)
    ensures (exists i :: 0 <= i < |Head(topic)| && BadAt(topic, i)) <==> NextLevel(topic).Bad?
  {
    var h := Head(topic);
    if NextLevel(topic).Bad? {
      var i :| 0 <= i < |h| && h[i] in "#+";
      assert topic[i] == h[i];
      BadInHeadAt(topic, i);
    } else {
      forall i | 0 <= i < |h| ensures !BadAt(topic, i) {
        BadInHeadAt(topic, i);
        assert h[i] in h;
      }
    }
  }

  lemma BadInTail(topic: string, i: nat)
    requires HasSeparator(topic) && i < |topic|
    ensures i == |Head(topic)| ==> !BadAt(topic, i)
    ensures i > |Head(topic)| ==> (BadAt(topic, i) <==> BadAt(Tail(topic), i - |Head(topic)| - 1))
  {
    var h, r := Head(topic), Tail(topic);
    assert i > |h| ==> r[i - |h| - 1] == topic[i];
    assert i > |h| + 1 ==> r[i - |h| - 2] == topic[i - 1];
    assert i > |h| && i + 1 < |topic| ==> r[i - |h|] == topic[i + 1];
  }

  lemma MalformedByParts(topic: string)
    requires topic != ""
    ensures Malformed(topic) <==> NextLevel(topic).Bad? || Malformed(Tail(topic))
  {
    BadInHead(topic);
    if HasSeparator(topic) {
      var h, r := Head(topic), Tail(topic);
      forall i | 0 <= i < |topic| {
        BadInTail(topic, i);
      }
      if Malformed(r) {
        var i :| 0 <= i < |r| && BadAt(r, i);
        assert BadAt(topic, |h| + 1 + i);
      }
    } else {
      assert Head(topic) == topic;
    }
  }

  lemma {:induction false} TokenizeFailsIffMalformed(topic: string)
    ensures Tokenize(topic).ok <==> !Malformed(topic)
    decreases |topic|
  {
    if topic != "" {
      MalformedByParts(topic);
      TokenizeFailsIffMalformed(Tail(topic));
    }
  }

  function Normalize(levels: seq<string>): seq<string> { EmptyToPlus(WithoutTrailingEmpty(levels)) }

  lemma NormalizeCons(h: string, rest: seq<string>)
    requires |rest| > 0
    ensures Normalize([h] + rest) == [if h == "" then SWC else h] + Normalize(rest)
  {}

  lemma NormalizeSingle(h: string)
    ensures Normalize([h]) == if h == "" then [] else [h]
  {}

  /** A tokenized topic is its split with one trailing empty level dropped and
      every remaining empty level turned into `+`. */
  lemma {:induction false} TokenizeIsNormalizedSplit(topic: string)
    ensures Tokenize(topic).ok ==> Tokenize(topic).levels == Normalize(Split(topic))
    decreases |topic|
  {
    if topic == "" {
      NormalizeSingle(topic);
    } else if HasSeparator(topic) {
      TokenizeIsNormalizedSplit(Tail(topic));
      NormalizeCons(Head(topic), Split(Tail(topic)));
    } else {
      assert Head(topic) == topic;
      NormalizeSingle(topic);
      assert Tokenize(Tail(topic)) == Tokens([], true);
    }
  }

  /** One call of the tokenizer peels off one level. */
  lemma TokenizeStep(topic: string)
    requires topic != "" && NextLevel(topic).Next?
    ensures var next := NextLevel(topic);
      && Tokenize(topic).levels != [] && Tokenize(topic).levels[0] == next.level
      && Tokenize(topic).levels[1..] == Tokenize(next.rem).levels && Tokenize(topic).ok == Tokenize(next.rem).ok
  {}

  /** Even a failing tokenization never leaves a level after `#`. */
  lemma {:induction false} TokenizePathOk(topic: string)
    ensures PathOk(Tokenize(topic).levels)
    decreases |topic|
  {
    if topic != "" && NextLevel(topic).Next? {
      var n := NextLevel(topic);
      TokenizePathOk(n.rem);
      if n.level == MWC {
        assert Head(topic) == MWC;
        assert n.rem == "";
      }
    }
  }
}
