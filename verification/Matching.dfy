/** Filter matching as a plain recursion over levels, the specification of both tries. */
module Matching {
  import opened TopicLevels

  /** `match` of the Kafka bridge. */
  predicate Match(filter: seq<string>, topic: seq<string>) {
    if |filter| == 0 then |topic| == 0
    else if |topic| == 0 then filter[0] == MWC
    else if filter[0] == MWC then true
    else (filter[0] == SWC || filter[0] == topic[0]) && Match(filter[1..], topic[1..])
  }

  predicate MatchTopic(filter: string, topic: string) {
    Match(Split(filter), Split(topic))
  }

  predicate LevelMatches(f: string, t: string) { f == SWC || f == t }

  ghost predicate LevelsMatch(filter: seq<string>, topic: seq<string>, n: nat)
    requires n <= |filter| && n <= |topic|
  {
    forall i :: 0 <= i < n ==> LevelMatches(filter[i], topic[i])
  }

  predicate EndsWithHash(filter: seq<string>) { |filter| > 0 && filter[|filter| - 1] == MWC }

  /** The rules of section 4.7.1 of MQTT 3.1.1, level by level: `#` stands for its parent
      level and everything below, otherwise the lengths agree. */
  ghost predicate Reference(filter: seq<string>, topic: seq<string>) {
    if EndsWithHash(filter) then |filter| - 1 <= |topic| && LevelsMatch(filter, topic, |filter| - 1)
    else |filter| == |topic| && LevelsMatch(filter, topic, |filter|)
  }

  lemma {:induction false} MatchIsReference(filter: seq<string>, topic: seq<string>)
    requires PathOk(filter)
    ensures Match(filter, topic) <==> Reference(filter, topic)
  {
    if |filter| > 0 && |topic| > 0 && filter[0] != MWC {
      var f, t := filter[1..], topic[1..];
      forall i | 0 <= i < |f| - 1 ensures f[i] != MWC { assert f[i] == filter[i + 1]; }
      MatchIsReference(f, t);
      forall n: nat | n <= |f| && n <= |t|
        ensures LevelsMatch(filter, topic, n + 1) <==> LevelMatches(filter[0], topic[0]) && LevelsMatch(f, t, n)
      {
        if LevelMatches(filter[0], topic[0]) && LevelsMatch(f, t, n) {
          forall i | 0 <= i < n + 1 ensures LevelMatches(filter[i], topic[i]) {
            if i > 0 { assert f[i - 1] == filter[i] && t[i - 1] == topic[i]; }
          }
        }
        if LevelsMatch(filter, topic, n + 1) {
          forall i | 0 <= i < n ensures LevelMatches(f[i], t[i]) {
            assert f[i] == filter[i + 1] && t[i] == topic[i + 1];
          }
        }
      }
      if |f| > 0 { assert f[|f| - 1] == filter[|filter| - 1]; }
    }
  }

  ghost predicate NoEmptyLevel(topic: string) { forall l :: l in Split(topic) ==> l != "" }

  lemma NormalizeNothing(levels: seq<string>)
    requires |levels| > 0 && forall l :: l in levels ==> l != ""
    ensures Normalize(levels) == levels
  {
    assert levels[|levels| - 1] in levels;
    assert WithoutTrailingEmpty(levels) == levels;
    assert forall i :: 0 <= i < |levels| ==> levels[i] in levels;
  }

  /** The Kafka bridge and the topic index decide the same relation, for every filter and
      topic that the index accepts and that have no empty level. */
  lemma MatchTopicIsMatchOfTokens(filter: string, topic: string)
    requires Tokenize(filter).ok && Tokenize(topic).ok
    requires NoEmptyLevel(filter) && NoEmptyLevel(topic)
    ensures MatchTopic(filter, topic) <==> Match(Tokenize(filter).levels, Tokenize(topic).levels)
  {
    TokenizeIsNormalizedSplit(filter);
    TokenizeIsNormalizedSplit(topic);
    NormalizeNothing(Split(filter));
    NormalizeNothing(Split(topic));
  }
}
