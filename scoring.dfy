/**
 * The score aggregation shared by the next-question route (weak topics,
 * src/app/api/interview/next-question/route.ts) and the report route
 * (src/app/api/interview/report/route.ts): scores grouped by topic in an insertion-ordered
 * map, rounded means in tenths, the stable ascending sort of the topic entries, the
 * de-duplicated strengths and weaknesses, and the improvement tips.
 */
module Scoring {
  import opened Wrappers
  import opened Text
  import opened Schemas

  /** One evaluated question: its topic and the evaluation stored for its answer. */
  datatype Graded = Graded(topic: string, evaluation: Evaluation)

  /** `evaluations.map(e => e.topic)`. */
  function Topics(es: seq<Graded>): (r: seq<string>)
    ensures |r| == |es| && forall i :: 0 <= i < |es| ==> r[i] == es[i].topic
  {
    seq(|es|, i requires 0 <= i < |es| => es[i].topic)
  }

  function Scores(es: seq<Graded>): (r: seq<int>)
    ensures |r| == |es| && forall i :: 0 <= i < |es| ==> r[i] == es[i].evaluation.score
  {
    seq(|es|, i requires 0 <= i < |es| => es[i].evaluation.score)
  }

  /** The scores of the evaluations on topic `t`, in order. */
  function ScoresOf(es: seq<Graded>, t: string): (r: seq<int>)
    ensures |r| <= |es|
    ensures forall i :: 0 <= i < |r| ==> 0 <= r[i] <= 10
  {
    if es == [] then []
    else
      var last := es[|es| - 1];
      ScoresOf(es[..|es| - 1], t) + (if last.topic == t then [last.evaluation.score] else [])
  }

  /** A topic that occurs has at least one score; one that does not has none. */
  lemma {:induction false} ScoresOfEmpty(es: seq<Graded>, t: string)
    ensures ScoresOf(es, t) == [] <==> t !in Topics(es)
  {
    if es != [] {
      var init := es[..|es| - 1];
      ScoresOfEmpty(init, t);
      assert Topics(es) == Topics(init) + [es[|es| - 1].topic];
    }
  }

  /** One entry of `topicMap`: a topic and its scores in arrival order. */
  datatype Group = Group(topic: string, scores: seq<int>)

  /**
   * The map built by `topicMap.set(topic, [...existing, score])` over `es`, read back in
   * insertion order: one entry per distinct topic, in the order the topics first occur.
   */
  function Groups(es: seq<Graded>): (r: seq<Group>)
    ensures |r| == |Distinct(Topics(es))|
    ensures forall i :: 0 <= i < |r| ==>
      r[i].topic == Distinct(Topics(es))[i] && r[i].scores == ScoresOf(es, r[i].topic) && r[i].scores != []
  {
    var d := Distinct(Topics(es));
    forall t | t in d ensures ScoresOf(es, t) != [] {
      ScoresOfEmpty(es, t);
    }
    seq(|d|, i requires 0 <= i < |d| => Group(d[i], ScoresOf(es, d[i])))
  }

  /** `topicMap.get(topic)`: the position of the topic's entry, or `|gs|` when it has none. */
  function FindGroup(gs: seq<Group>, t: string): (j: nat)
    ensures j <= |gs|
    ensures j < |gs| ==> gs[j].topic == t
    ensures j == |gs| ==> forall k :: 0 <= k < |gs| ==> gs[k].topic != t
  {
    if gs == [] then 0
    else if gs[0].topic == t then 0
    else 1 + FindGroup(gs[1..], t)
  }

  lemma ScoresOfSnoc(es: seq<Graded>, e: Graded, t: string)
    ensures ScoresOf(es + [e], t) == ScoresOf(es, t) + (if e.topic == t then [e.evaluation.score] else [])
  {
    assert (es + [e])[..|es|] == es;
  }

  /** What one more evaluation does to the map: it extends its topic's entry or adds one. */
  lemma GroupsSnoc(es: seq<Graded>, e: Graded)
    ensures var gs := Groups(es); var j := FindGroup(gs, e.topic);
      Groups(es + [e]) ==
        if j < |gs| then gs[j := Group(e.topic, gs[j].scores + [e.evaluation.score])]
        else gs + [Group(e.topic, [e.evaluation.score])]
  {
    var es' := es + [e];
    assert es'[..|es'| - 1] == es;
    assert Topics(es') == Topics(es) + [e.topic];
    assert Topics(es')[..|es|] == Topics(es);
    var d := Distinct(Topics(es));
    var gs := Groups(es);
    var j := FindGroup(gs, e.topic);
    var gs' := Groups(es');
    if j < |gs| {
      assert e.topic in d;
      assert Distinct(Topics(es')) == d;
      forall k | 0 <= k < |gs| ensures gs'[k] == gs[j := Group(e.topic, gs[j].scores + [e.evaluation.score])][k] {
        ScoresOfSnoc(es, e, d[k]);
        if k != j {
          assert d[j] == e.topic;
        }
      }
    } else {
      assert e.topic !in d;
      assert Distinct(Topics(es')) == d + [e.topic];
      ScoresOfEmpty(es, e.topic);
      ScoresOfSnoc(es, e, e.topic);
      forall k | 0 <= k < |gs| ensures gs'[k] == gs[k] {
        ScoresOfSnoc(es, e, d[k]);
      }
      assert [] + [e.evaluation.score] == [e.evaluation.score];
      assert gs'[|gs|] == Group(e.topic, [e.evaluation.score]);
      assert gs' == gs + [Group(e.topic, [e.evaluation.score])];
    }
  }

  /**
   * The `for (const e of evaluations)` loop that fills `topicMap` (lines 98-102 of the
   * next-question route, 84-89 of the report route).
   */
  method GroupScores(es: seq<Graded>) returns (groups: seq<Group>)
    ensures groups == Groups(es)
  {
    groups := [];
    for i := 0 to |es|
      invariant groups == Groups(es[..i])
    {
      var e := es[i];
      GroupsSnoc(es[..i], e);
      assert es[..i + 1] == es[..i] + [e];
      var j := FindGroup(groups, e.topic);
      if j < |groups| {
        groups := groups[j := Group(e.topic, groups[j].scores + [e.evaluation.score])];
      } else {
        groups := groups + [Group(e.topic, [e.evaluation.score])];
      }
    }
    assert es[..|es|] == es;
  }

  /** The number of scores held by all entries. */
  function Counted(gs: seq<Group>): nat {
    if gs == [] then 0 else Counted(gs[..|gs| - 1]) + |gs[|gs| - 1].scores|
  }

  lemma {:induction false} CountedAppend(a: seq<Group>, b: seq<Group>)
    ensures Counted(a + b) == Counted(a) + Counted(b)
  {
    if b != [] {
      assert (a + b)[..|a + b| - 1] == a + b[..|b| - 1];
      CountedAppend(a, b[..|b| - 1]);
    } else {
      assert a + b == a;
    }
  }

  lemma CountedUpdate(gs: seq<Group>, j: nat, g: Group)
    requires j < |gs|
    ensures Counted(gs[j := g]) == Counted(gs) - |gs[j].scores| + |g.scores|
  {
    var gs' := gs[j := g];
    assert gs == gs[..j] + [gs[j]] + gs[j + 1..];
    assert gs' == gs[..j] + [g] + gs[j + 1..];
    CountedAppend(gs[..j] + [gs[j]], gs[j + 1..]);
    CountedAppend(gs[..j], [gs[j]]);
    CountedAppend(gs[..j] + [g], gs[j + 1..]);
    CountedAppend(gs[..j], [g]);
    assert Counted([gs[j]]) == |gs[j].scores| by { assert [gs[j]][..0] == []; }
    assert Counted([g]) == |g.scores| by { assert [g][..0] == []; }
  }

  /** Every evaluation lands in exactly one entry: the entries' sizes add up to `|es|`. */
  lemma {:induction false} GroupsCount(es: seq<Graded>)
    ensures Counted(Groups(es)) == |es|
  {
    if es != [] {
      var init, e := es[..|es| - 1], es[|es| - 1];
      GroupsCount(init);
      assert init + [e] == es;
      var gs := Groups(init);
      var j := FindGroup(gs, e.topic);
      GroupsSnoc(init, e);
      if j < |gs| {
        var g := Group(e.topic, gs[j].scores + [e.evaluation.score]);
        assert Groups(es) == gs[j := g];
        CountedUpdate(gs, j, g);
      } else {
        var g := Group(e.topic, [e.evaluation.score]);
        assert Groups(es) == gs + [g];
        CountedAppend(gs, [g]);
        assert [g][..0] == [];
      }
    }
  }

  // ----- weak topics of the next-question route -----

  /** `avg < 6` with `avg = sum / scores.length`, stated without division. */
  predicate WeakGroup(g: Group) {
    Sum(g.scores) < 6 * |g.scores|
  }

  /** The topics of the weak entries, in map order. */
  function WeakOf(gs: seq<Group>): seq<string> {
    if gs == [] then []
    else WeakOf(gs[..|gs| - 1]) + (if WeakGroup(gs[|gs| - 1]) then [gs[|gs| - 1].topic] else [])
  }

  /** `weakTopics` of the next-question route. */
  function WeakTopics(es: seq<Graded>): seq<string> {
    WeakOf(Groups(es))
  }

  lemma {:induction false} WeakOfMembers(gs: seq<Group>, t: string)
    ensures t in WeakOf(gs) <==> exists k :: 0 <= k < |gs| && gs[k].topic == t && WeakGroup(gs[k])
  {
    if gs != [] {
      var init := gs[..|gs| - 1];
      WeakOfMembers(init, t);
      if t in WeakOf(init) {
        var k :| 0 <= k < |init| && init[k].topic == t && WeakGroup(init[k]);
        assert gs[k] == init[k];
      }
      if exists k :: 0 <= k < |gs| && gs[k].topic == t && WeakGroup(gs[k]) {
        var k :| 0 <= k < |gs| && gs[k].topic == t && WeakGroup(gs[k]);
        if k < |init| {
          assert init[k] == gs[k];
        }
      }
    }
  }

  lemma {:induction false} WeakOfNoDup(gs: seq<Group>)
    requires forall i, j :: 0 <= i < j < |gs| ==> gs[i].topic != gs[j].topic
    ensures NoDup(WeakOf(gs))
  {
    if gs != [] {
      var init := gs[..|gs| - 1];
      WeakOfNoDup(init);
      var last := gs[|gs| - 1];
      if WeakGroup(last) {
        WeakOfMembers(init, last.topic);
        forall k | 0 <= k < |init| ensures init[k].topic != last.topic {
          assert init[k] == gs[k];
        }
        var w := WeakOf(init);
        forall i, j | 0 <= i < j < |w + [last.topic]| ensures (w + [last.topic])[i] != (w + [last.topic])[j] {
          if j < |w| {
            assert (w + [last.topic])[i] == w[i] && (w + [last.topic])[j] == w[j];
          }
        }
      }
    }
  }

  /**
   * A topic is weak exactly when it occurs and the mean of its scores (follow-ups
   * included) is strictly below 6; each weak topic is listed once.
   */
  lemma WeakTopicsSpec(es: seq<Graded>, t: string)
    ensures t in WeakTopics(es) <==>
      t in Topics(es) && Sum(ScoresOf(es, t)) < 6 * |ScoresOf(es, t)|
    ensures NoDup(WeakTopics(es))
  {
    var gs := Groups(es);
    var d := Distinct(Topics(es));
    WeakOfMembers(gs, t);
    if t in Topics(es) {
      var k :| 0 <= k < |d| && d[k] == t;
      assert gs[k].topic == t;
    }
    WeakOfNoDup(gs);
  }

  /**
   * The two loops of the next-question route (lines 98-108): the topic map is filled, then
   * `forEach` pushes every topic whose mean is below 6.
   */
  method CollectWeakTopics(es: seq<Graded>) returns (weak: seq<string>)
    ensures weak == WeakTopics(es)
  {
    var groups := GroupScores(es);
    weak := [];
    for i := 0 to |groups|
      invariant weak == WeakOf(groups[..i])
    {
      assert groups[..i + 1][..i] == groups[..i];
      if Sum(groups[i].scores) < 6 * |groups[i].scores| {
        weak := weak + [groups[i].topic];
      }
    }
    assert groups[..|groups|] == groups;
  }

  // ----- the report -----

  /** One element of `topicScores`: the topic, its rounded mean in tenths, its count. */
  datatype TopicScore = TopicScore(topic: string, avgTenths: int, questionCount: nat)

  function TopicScoreOf(g: Group): TopicScore
    requires g.scores != []
  {
    TopicScore(g.topic, RoundedTenths(Sum(g.scores), |g.scores|), |g.scores|)
  }

  /** `Array.from(topicMap.entries()).map(...)`, before the sort. */
  function TopicScores(gs: seq<Group>): (r: seq<TopicScore>)
    requires forall i :: 0 <= i < |gs| ==> gs[i].scores != []
    ensures |r| == |gs| && forall i :: 0 <= i < |gs| ==> r[i] == TopicScoreOf(gs[i])
  {
    seq(|gs|, i requires 0 <= i < |gs| => TopicScoreOf(gs[i]))
  }

  /** The sum of the `questionCount`s. */
  function Total(ts: seq<TopicScore>): nat {
    if ts == [] then 0 else Total(ts[..|ts| - 1]) + ts[|ts| - 1].questionCount
  }

  lemma {:induction false} TotalAppend(a: seq<TopicScore>, b: seq<TopicScore>)
    ensures Total(a + b) == Total(a) + Total(b)
  {
    if b != [] {
      assert (a + b)[..|a + b| - 1] == a + b[..|b| - 1];
      TotalAppend(a, b[..|b| - 1]);
    } else {
      assert a + b == a;
    }
  }

  lemma {:induction false} TotalOfTopicScores(gs: seq<Group>)
    requires forall i :: 0 <= i < |gs| ==> gs[i].scores != []
    ensures Total(TopicScores(gs)) == Counted(gs)
  {
    if gs != [] {
      var init := gs[..|gs| - 1];
      TotalOfTopicScores(init);
      assert TopicScores(gs)[..|gs| - 1] == TopicScores(init);
    }
  }

  predicate SortedByAvg(ts: seq<TopicScore>) {
    forall i, j :: 0 <= i < j < |ts| ==> ts[i].avgTenths <= ts[j].avgTenths
  }

  /** Puts `x` after every element whose mean is at most its own. */
  function Insert(x: TopicScore, s: seq<TopicScore>): seq<TopicScore> {
    if s == [] then [x]
    else if x.avgTenths < s[0].avgTenths then [x] + s
    else [s[0]] + Insert(x, s[1..])
  }

  /**
   * `topicScores.sort((a, b) => a.avgScore - b.avgScore)`: the ECMAScript sort is stable,
   * so it is the insertion of each element, in order, after all elements whose mean is at
   * most its own.
   */
  function SortByAvg(ts: seq<TopicScore>): seq<TopicScore> {
    if ts == [] then [] else Insert(ts[|ts| - 1], SortByAvg(ts[..|ts| - 1]))
  }

  /** The elements whose rounded mean is `v`, in order. */
  function WithAvg(s: seq<TopicScore>, v: int): seq<TopicScore> {
    if s == [] then [] else (if s[0].avgTenths == v then [s[0]] else []) + WithAvg(s[1..], v)
  }

  lemma {:induction false} WithAvgAppend(a: seq<TopicScore>, b: seq<TopicScore>, v: int)
    ensures WithAvg(a + b, v) == WithAvg(a, v) + WithAvg(b, v)
  {
    if a != [] {
      assert (a + b)[1..] == a[1..] + b;
      WithAvgAppend(a[1..], b, v);
    } else {
      assert a + b == b;
    }
  }

  lemma {:induction false} WithAvgNone(s: seq<TopicScore>, v: int)
    requires forall i :: 0 <= i < |s| ==> s[i].avgTenths != v
    ensures WithAvg(s, v) == []
  {
    if s != [] {
      WithAvgNone(s[1..], v);
    }
  }

  lemma {:induction false} InsertElements(x: TopicScore, s: seq<TopicScore>)
    ensures |Insert(x, s)| == |s| + 1
    ensures forall y :: y in Insert(x, s) ==> y == x || y in s
  {
    if s != [] && x.avgTenths >= s[0].avgTenths {
      InsertElements(x, s[1..]);
    }
  }

  lemma {:induction false} InsertSorted(x: TopicScore, s: seq<TopicScore>)
    requires SortedByAvg(s)
    ensures SortedByAvg(Insert(x, s))
  {
    if s != [] && x.avgTenths >= s[0].avgTenths {
      InsertSorted(x, s[1..]);
      InsertElements(x, s[1..]);
      var r := [s[0]] + Insert(x, s[1..]);
      forall j | 0 < j < |r| ensures s[0].avgTenths <= r[j].avgTenths {
        assert r[j] in Insert(x, s[1..]);
      }
    }
  }

  lemma {:induction false} InsertKeeps(x: TopicScore, s: seq<TopicScore>)
    ensures multiset(Insert(x, s)) == multiset(s) + multiset{x}
    ensures Total(Insert(x, s)) == Total(s) + x.questionCount
  {
    assert [x][..0] == [];
    if s != [] {
      assert s == [s[0]] + s[1..];
      if x.avgTenths < s[0].avgTenths {
        TotalAppend([x], s);
      } else {
        InsertKeeps(x, s[1..]);
        TotalAppend([s[0]], Insert(x, s[1..]));
        TotalAppend([s[0]], s[1..]);
        assert [s[0]][..0] == [];
      }
    }
  }

  lemma {:induction false} InsertStable(x: TopicScore, s: seq<TopicScore>, v: int)
    requires SortedByAvg(s)
    ensures WithAvg(Insert(x, s), v) == WithAvg(s, v) + (if x.avgTenths == v then [x] else [])
  {
    if s == [] {
      assert [x][1..] == [];
      assert WithAvg([x], v) == (if x.avgTenths == v then [x] else []) + WithAvg([], v);
    } else if x.avgTenths < s[0].avgTenths {
      var r := [x] + s;
      assert r[0] == x && r[1..] == s;
      assert WithAvg(r, v) == (if x.avgTenths == v then [x] else []) + WithAvg(s, v);
      if x.avgTenths == v {
        WithAvgNone(s, v);
      }
    } else {
      var t := Insert(x, s[1..]);
      InsertStable(x, s[1..], v);
      var r := [s[0]] + t;
      assert r[0] == s[0] && r[1..] == t;
      assert WithAvg(r, v) == (if s[0].avgTenths == v then [s[0]] else []) + WithAvg(t, v);
    }
  }

  lemma {:induction false} SortByAvgSorted(ts: seq<TopicScore>)
    ensures SortedByAvg(SortByAvg(ts))
  {
    if ts != [] {
      SortByAvgSorted(ts[..|ts| - 1]);
      InsertSorted(ts[|ts| - 1], SortByAvg(ts[..|ts| - 1]));
    }
  }

  /** The sort keeps the entries, and so their total count. */
  lemma {:induction false} SortByAvgKeeps(ts: seq<TopicScore>)
    ensures multiset(SortByAvg(ts)) == multiset(ts)
    ensures Total(SortByAvg(ts)) == Total(ts)
  {
    if ts != [] {
      var init, x := ts[..|ts| - 1], ts[|ts| - 1];
      SortByAvgKeeps(init);
      InsertKeeps(x, SortByAvg(init));
      assert ts == init + [x];
      TotalAppend(init, [x]);
      assert [x][..0] == [];
    }
  }

  /** The sort is stable: the entries with the same rounded mean keep their order. */
  lemma {:induction false} SortByAvgStable(ts: seq<TopicScore>, v: int)
    ensures WithAvg(SortByAvg(ts), v) == WithAvg(ts, v)
  {
    if ts != [] {
      var init, x := ts[..|ts| - 1], ts[|ts| - 1];
      var sorted := SortByAvg(init);
      SortByAvgStable(init, v);
      SortByAvgSorted(init);
      InsertStable(x, sorted, v);
      assert SortByAvg(ts) == Insert(x, sorted);
      assert ts == init + [x];
      WithAvgAppend(init, [x], v);
      assert [x][1..] == [];
      assert WithAvg([x], v) == (if x.avgTenths == v then [x] else []) + WithAvg([], v);
    }
  }

  /** `flatMap`: the lists one after another. */
  function Flatten(xss: seq<seq<string>>): seq<string> {
    if xss == [] then [] else Flatten(xss[..|xss| - 1]) + xss[|xss| - 1]
  }

  lemma {:induction false} FlattenMembers(xss: seq<seq<string>>, x: string)
    ensures x in Flatten(xss) <==> exists i :: 0 <= i < |xss| && x in xss[i]
  {
    if xss != [] {
      var init := xss[..|xss| - 1];
      FlattenMembers(init, x);
      if exists i :: 0 <= i < |xss| && x in xss[i] {
        var i :| 0 <= i < |xss| && x in xss[i];
        if i < |init| {
          assert init[i] == xss[i];
        }
      }
      if exists i :: 0 <= i < |init| && x in init[i] {
        var i :| 0 <= i < |init| && x in init[i];
        assert xss[i] == init[i];
      }
    }
  }

  function StrengthLists(es: seq<Graded>): (r: seq<seq<string>>)
    ensures |r| == |es| && forall i :: 0 <= i < |es| ==> r[i] == es[i].evaluation.strengths
  {
    seq(|es|, i requires 0 <= i < |es| => es[i].evaluation.strengths)
  }

  function MissingLists(es: seq<Graded>): (r: seq<seq<string>>)
    ensures |r| == |es| && forall i :: 0 <= i < |es| ==> r[i] == es[i].evaluation.missingPoints
  {
    seq(|es|, i requires 0 <= i < |es| => es[i].evaluation.missingPoints)
  }

  /** `[...new Set(all)].slice(0, 6)`. */
  function FirstSix(xss: seq<seq<string>>): seq<string> {
    Prefix(Distinct(Flatten(xss)), 6)
  }

  /**
   * `r` is what `[...new Set(xs)].slice(0, 6)` keeps: the first six distinct entries of `xs`,
   * or all of them when there are fewer; none twice, in the order they are first seen, and
   * no entry first seen before a kept one is dropped.
   */
  ghost predicate FirstSixOf(xs: seq<string>, r: seq<string>) {
    && |r| == (if |Distinct(xs)| < 6 then |Distinct(xs)| else 6)
    && NoDup(r)
    && InFirstSeenOrder(xs, r)
    && (|Distinct(xs)| <= 6 ==> forall x :: x in xs ==> x in r)
    && (forall x, y :: x in xs && y in xs && y in r && FirstIndex(xs, x) < FirstIndex(xs, y) ==> x in r)
  }

  /**
   * The aggregated strengths (or weaknesses) are the first six distinct entries over all
   * evaluations, in the order they are first seen, each taken from some evaluation; when
   * at most six distinct entries exist, every one of them is kept.
   */
  lemma FirstSixSpec(xss: seq<seq<string>>)
    ensures |FirstSix(xss)| <= 6 && NoDup(FirstSix(xss))
    ensures forall x :: x in FirstSix(xss) ==> exists i :: 0 <= i < |xss| && x in xss[i]
    ensures |Distinct(Flatten(xss))| <= 6 ==>
      forall i, x :: 0 <= i < |xss| && x in xss[i] ==> x in FirstSix(xss)
    ensures InFirstSeenOrder(Flatten(xss), FirstSix(xss))
    ensures FirstSixOf(Flatten(xss), FirstSix(xss))
  {
    var xs := Flatten(xss);
    var d := Distinct(xs);
    var r := FirstSix(xss);
    forall x | x in r ensures exists i :: 0 <= i < |xss| && x in xss[i] {
      FlattenMembers(xss, x);
    }
    forall i, x | 0 <= i < |xss| && x in xss[i] && |d| <= 6 ensures x in r {
      FlattenMembers(xss, x);
    }
    DistinctFirstSeenOrder(xs);
    forall i, j | 0 <= i < j < |r| ensures r[i] != r[j] {
      assert r[i] == d[i] && r[j] == d[j];
    }
    forall i, j | 0 <= i < j < |r| && r[i] in xs && r[j] in xs
      ensures FirstIndex(xs, r[i]) < FirstIndex(xs, r[j])
    {
      assert r[i] == d[i] && r[j] == d[j];
    }
    forall x, y | x in xs && y in xs && y in r && FirstIndex(xs, x) < FirstIndex(xs, y) ensures x in r {
      FirstSeenKept(xs, d, |r|, x, y);
    }
  }

  /**
   * In a first-seen listing `d` of the distinct entries of `xs`, an entry first seen
   * before one of the first `n` listed is itself among the first `n`.
   */
  lemma FirstSeenKept(xs: seq<string>, d: seq<string>, n: nat, x: string, y: string)
    requires NoDup(d) && (forall z :: z in d <==> z in xs) && InFirstSeenOrder(xs, d)
    requires n <= |d| && x in xs && y in d[..n] && FirstIndex(xs, x) < FirstIndex(xs, y)
    ensures x in d[..n]
  {
    var q :| 0 <= q < n && d[q] == y;
    var p :| 0 <= p < |d| && d[p] == x;
    // a later listing position would mean a later first occurrence
    assert p < q;
    assert d[..n][p] == x;
  }

  const TipTail: string :=
    ": Review core concepts and practice applying them in real scenarios. Focus on the gaps identified in your answers."

  /** The improvement tip for a weak topic. */
  function Tip(topic: string): (r: string)
    ensures Infix(topic, r)
  {
    InfixOfConcat("Strengthen ", topic, TipTail);
    "Strengthen " + topic + TipTail
  }

  /** `topicScores.filter((t) => t.avgScore < 6)`: the entries under 6.0, in order. */
  function WeakEntries(ts: seq<TopicScore>): seq<TopicScore> {
    if ts == [] then [] else WeakEntries(ts[..|ts| - 1]) + (if ts[|ts| - 1].avgTenths < 60 then [ts[|ts| - 1]] else [])
  }

  /** The entries kept are exactly those under 6.0 (in tenths, under 60). */
  lemma {:induction false} WeakEntriesSpec(ts: seq<TopicScore>, t: TopicScore)
    ensures t in WeakEntries(ts) <==> t in ts && t.avgTenths < 60
  {
    if ts != [] {
      var init := ts[..|ts| - 1];
      WeakEntriesSpec(init, t);
      assert ts == init + [ts[|ts| - 1]];
    }
  }

  function Tips(weak: seq<TopicScore>): (r: seq<string>)
    ensures |r| == |weak| && forall i :: 0 <= i < |weak| ==> r[i] == Tip(weak[i].topic)
  {
    seq(|weak|, i requires 0 <= i < |weak| => Tip(weak[i].topic))
  }

  /** The stored report, scores in tenths. */
  datatype Report = Report(
    overallTenths: int, topicScores: seq<TopicScore>,
    strengths: seq<string>, weaknesses: seq<string>, improvementTips: seq<string>)

  /** The report computed from the scored main questions `es`, before it is stored. */
  function ReportOf(es: seq<Graded>): Report
    requires es != []
  {
    var sorted := SortByAvg(TopicScores(Groups(es)));
    Report(RoundedTenths(Sum(Scores(es)), |es|), sorted,
           FirstSix(StrengthLists(es)), FirstSix(MissingLists(es)), Tips(WeakEntries(sorted)))
  }

  /**
   * The overall score and every topic mean are rounded means of scores in 0..10, so they
   * lie in 0.0..10.0.
   */
  lemma ReportScoreBounds(es: seq<Graded>)
    requires es != []
    ensures 0 <= ReportOf(es).overallTenths <= 100
    ensures forall k :: 0 <= k < |ReportOf(es).topicScores| ==> 0 <= ReportOf(es).topicScores[k].avgTenths <= 100
  {
    RoundedMeanBounds(Scores(es), 0, 10);
    var ts := TopicScores(Groups(es));
    SortByAvgSorted(ts);
    SortByAvgKeeps(ts);
    forall k | 0 <= k < |ReportOf(es).topicScores| ensures 0 <= ReportOf(es).topicScores[k].avgTenths <= 100 {
      var t := ReportOf(es).topicScores[k];
      assert t in multiset(ts);
      var i :| 0 <= i < |ts| && ts[i] == t;
      RoundedMeanBounds(Groups(es)[i].scores, 0, 10);
    }
  }

  /**
   * `topicScores` holds one entry per distinct topic, sorted by rounded mean, with the
   * counts adding up to the number of scored questions.
   */
  lemma ReportTopicOrder(es: seq<Graded>)
    requires es != []
    ensures var r := ReportOf(es);
      && SortedByAvg(r.topicScores)
      && |r.topicScores| == |Distinct(Topics(es))|
      && Total(r.topicScores) == |es|
  {
    var gs := Groups(es);
    var ts := TopicScores(gs);
    SortByAvgSorted(ts);
    SortByAvgKeeps(ts);
    GroupsCount(es);
    TotalOfTopicScores(gs);
    var sorted := ReportOf(es).topicScores;
    assert |sorted| == |multiset(sorted)| == |multiset(ts)| == |ts|;
  }

  /** Each entry of `topicScores` is a topic of the scored questions with its count and rounded mean. */
  lemma ReportTopicEntries(es: seq<Graded>, k: nat)
    requires es != [] && k < |ReportOf(es).topicScores|
    ensures var t := ReportOf(es).topicScores[k];
      && t.topic in Topics(es) && ScoresOf(es, t.topic) != []
      && t.questionCount == |ScoresOf(es, t.topic)|
      && t.avgTenths == RoundedTenths(Sum(ScoresOf(es, t.topic)), |ScoresOf(es, t.topic)|)
  {
    var gs := Groups(es);
    var ts := TopicScores(gs);
    SortByAvgKeeps(ts);
    var t := ReportOf(es).topicScores[k];
    assert t in multiset(ts);
    var i :| 0 <= i < |ts| && ts[i] == t;
    assert gs[i].topic in Distinct(Topics(es));
  }

  /**
   * There is one tip per entry under 6.0, in `topicScores` order, each naming its topic; no
   * tip at all when no entry is under 6.0.
   */
  lemma ReportTips(es: seq<Graded>)
    requires es != []
    ensures var r := ReportOf(es);
      && (r.improvementTips == [] <==> forall k :: 0 <= k < |r.topicScores| ==> r.topicScores[k].avgTenths >= 60)
      && |r.improvementTips| == |WeakEntries(r.topicScores)|
      && forall k :: 0 <= k < |r.improvementTips| ==>
           WeakEntries(r.topicScores)[k].avgTenths < 60 && Infix(WeakEntries(r.topicScores)[k].topic, r.improvementTips[k])
  {
    var sorted := ReportOf(es).topicScores;
    var w := WeakEntries(sorted);
    forall k | 0 <= k < |w| ensures w[k].avgTenths < 60 {
      WeakEntriesSpec(sorted, w[k]);
    }
    if w != [] {
      WeakEntriesSpec(sorted, w[0]);
    }
    forall k | 0 <= k < |sorted| && sorted[k].avgTenths < 60 ensures w != [] {
      WeakEntriesSpec(sorted, sorted[k]);
    }
  }

  /**
   * The strengths and weaknesses are the first six distinct strengths and missing points of
   * the scored evaluations, in the order they are first seen, each from some scored
   * evaluation; when at most six distinct ones exist, all are kept.
   */
  lemma ReportStrengths(es: seq<Graded>)
    requires es != []
    ensures var r := ReportOf(es);
      && |r.strengths| <= 6 && NoDup(r.strengths) && |r.weaknesses| <= 6 && NoDup(r.weaknesses)
      && (forall x :: x in r.strengths ==> exists i :: 0 <= i < |es| && x in es[i].evaluation.strengths)
      && (forall x :: x in r.weaknesses ==> exists i :: 0 <= i < |es| && x in es[i].evaluation.missingPoints)
      && FirstSixOf(Flatten(StrengthLists(es)), r.strengths)
      && FirstSixOf(Flatten(MissingLists(es)), r.weaknesses)
      && (|Distinct(Flatten(StrengthLists(es)))| <= 6 ==>
            forall i, x :: 0 <= i < |es| && x in es[i].evaluation.strengths ==> x in r.strengths)
      && (|Distinct(Flatten(MissingLists(es)))| <= 6 ==>
            forall i, x :: 0 <= i < |es| && x in es[i].evaluation.missingPoints ==> x in r.weaknesses)
  {
    FirstSixSpec(StrengthLists(es));
    FirstSixSpec(MissingLists(es));
  }

  function Repeat(n: nat, v: int): (r: seq<int>)
    ensures |r| == n && forall i :: 0 <= i < n ==> r[i] == v
  {
    seq(n, i => v)
  }

  lemma {:induction false} SumRepeat(n: nat, v: int)
    ensures Sum(Repeat(n, v)) == n * v
  {
    if n > 0 {
      assert Repeat(n, v)[..n - 1] == Repeat(n - 1, v);
      SumRepeat(n - 1, v);
    }
  }

  /**
   * The two routes use different thresholds: a topic scored 5 once and 6 nineteen times has
   * the mean 5.95, weak for the next-question route, but its rounded mean 6.0 gets no tip.
   */
  lemma WeakThresholdsDiffer()
    ensures var s := [5] + Repeat(19, 6);
      Sum(s) < 6 * |s| && RoundedTenths(Sum(s), |s|) == 60
  {
    var s := [5] + Repeat(19, 6);
    SumRepeat(19, 6);
    SumAppend([5], Repeat(19, 6));
    assert [5][..0] == [];
  }
}
