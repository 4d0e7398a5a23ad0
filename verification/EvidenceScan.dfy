/** The cutover evidence of one bot queue: its maximum score and a paged duplicate count, taken while
    consumers go on acknowledging, that is deleting, members. */
module EvidenceScan {
  import opened Prelude

  const QUEUE_SCAN_PAGE_SIZE := 500

  datatype Stats = Stats(members: nat, duplicates: nat, maxScore: int)

  predicate Sorted(s: seq<int>) {
    forall i, j :: 0 <= i < j < |s| ==> s[i] <= s[j]
  }

  /** Members by rank, named by their rank in the queue as it was at the start. */
  predicate Ranks(v: seq<nat>, n: nat) {
    && (forall i, j :: 0 <= i < j < |v| ==> v[i] < v[j])
    && (forall i :: 0 <= i < |v| ==> v[i] < n)
  }

  ghost predicate Within(v: seq<nat>, w: seq<nat>) {
    forall x :: x in v ==> x in w
  }

  function ScoresAt(scores: seq<int>, v: seq<nat>): (s: seq<int>)
    requires Ranks(v, |scores|)
    ensures |s| == |v|
  {
    seq(|v|, i requires 0 <= i < |v| => scores[v[i]])
  }

  function Distinct(s: seq<int>): set<int> {
    set x | x in s
  }

  function MaxScore(s: seq<int>): int {
    if s == [] then 0
    else
      var m := MaxScore(s[..|s| - 1]);
      if s[|s| - 1] > m then s[|s| - 1] else m
  }

  /** Adjacent equal scores. */
  function Repeats(s: seq<int>): nat {
    if |s| < 2 then 0
    else Repeats(s[..|s| - 1]) + if s[|s| - 1] == s[|s| - 2] then 1 else 0
  }

  // --------------------------------------------------------------------------- deletions and ranks

  lemma RankOrder(v: seq<nat>, n: nat, a: nat, b: nat)
    requires Ranks(v, n) && a < |v| && b < |v| && v[a] < v[b]
    ensures a < b
  {
  }

  lemma {:induction false} RankAt(v: seq<nat>, w: seq<nat>, n: nat, i: nat) returns (k: nat)
    requires Ranks(v, n) && Ranks(w, n) && Within(w, v) && i < |w|
    ensures i <= k < |v| && v[k] == w[i]
  {
    assert w[i] in v;
    k :| 0 <= k < |v| && v[k] == w[i];
    if i > 0 {
      var before := RankAt(v, w, n, i - 1);
      RankOrder(v, n, before, k);
    }
  }

  /** Deletions only move ranks down: what is at a rank now was at that rank or above before. */
  lemma RanksMoveDown(v: seq<nat>, w: seq<nat>, n: nat, i: nat)
    requires Ranks(v, n) && Ranks(w, n) && Within(w, v) && i < |w|
    ensures i < |v| && v[i] <= w[i]
  {
    var k := RankAt(v, w, n, i);
  }

  lemma WithinSize(v: seq<nat>, w: seq<nat>, n: nat)
    requires Ranks(v, n) && Ranks(w, n) && Within(w, v)
    ensures |w| <= |v|
  {
    if w != [] {
      RanksMoveDown(v, w, n, |w| - 1);
    }
  }

  // ------------------------------------------------------------------------------------ duplicates

  lemma NewScore(front: seq<int>, last: int)
    requires front != [] && Sorted(front + [last])
    ensures last in front <==> front[|front| - 1] == last
  {
    var s, n := front + [last], |front|;
    if last in front {
      var i :| 0 <= i < n && front[i] == last;
      assert s[n - 1] <= s[n] && (i < n - 1 ==> s[i] <= s[n - 1]);
    }
  }

  lemma DistinctStep(front: seq<int>, last: int)
    ensures |Distinct(front + [last])| == |Distinct(front)| + if last in front then 0 else 1
  {
    assert Distinct(front + [last]) == Distinct(front) + {last};
  }

  /** In a sorted list adjacent repeats count exactly the members beyond the distinct scores. */
  lemma {:induction false} RepeatsAreDuplicates(s: seq<int>)
    requires Sorted(s)
    ensures Repeats(s) + |Distinct(s)| == |s|
  {
    if s == [] {
      assert Distinct(s) == {};
    } else {
      var front, last := s[..|s| - 1], s[|s| - 1];
      RepeatsAreDuplicates(front);
      assert s == front + [last];
      DistinctStep(front, last);
      if front != [] {
        NewScore(front, last);
      }
    }
  }

  function IndexSet(v: seq<nat>): set<nat> {
    set x | x in v
  }

  lemma {:induction false} IndexSetSize(v: seq<nat>, n: nat)
    requires Ranks(v, n)
    ensures |IndexSet(v)| == |v|
  {
    if v == [] {
      assert IndexSet(v) == {};
    } else {
      var front, last := v[..|v| - 1], v[|v| - 1];
      IndexSetSize(front, n);
      assert v == front + [last];
      assert IndexSet(v) == IndexSet(front) + {last};
      assert last !in front;
    }
  }

  function ScoreSet(scores: seq<int>, xs: set<nat>): set<int>
    requires forall x :: x in xs ==> x < |scores|
  {
    set x | x in xs :: scores[x]
  }

  lemma {:induction false} ScoreSetSize(scores: seq<int>, xs: set<nat>)
    requires forall x :: x in xs ==> x < |scores|
    ensures |ScoreSet(scores, xs)| <= |xs|
    decreases xs
  {
    if xs != {} {
      var x :| x in xs;
      ScoreSetSize(scores, xs - {x});
      assert ScoreSet(scores, xs) == ScoreSet(scores, xs - {x}) + {scores[x]};
    }
  }

  lemma DistinctIsScoreSet(scores: seq<int>, v: seq<nat>)
    requires Ranks(v, |scores|)
    ensures Distinct(ScoresAt(scores, v)) == ScoreSet(scores, IndexSet(v))
  {
    var s := ScoresAt(scores, v);
    forall y ensures y in Distinct(s) <==> y in ScoreSet(scores, IndexSet(v)) {
      if y in Distinct(s) {
        var i :| 0 <= i < |s| && s[i] == y;
        assert v[i] in IndexSet(v) && scores[v[i]] == y;
      }
      if y in ScoreSet(scores, IndexSet(v)) {
        var x :| x in IndexSet(v) && scores[x] == y;
        var i :| 0 <= i < |v| && v[i] == x;
        assert s[i] == y;
      }
    }
  }

  lemma SortedAt(scores: seq<int>, v: seq<nat>)
    requires Sorted(scores) && Ranks(v, |scores|)
    ensures Sorted(ScoresAt(scores, v))
  {
  }

  /** Each member left out costs at most one distinct score. */
  lemma FewerScores(scores: seq<int>, a: set<nat>, b: set<nat>)
    requires b <= a && forall x :: x in a ==> x < |scores|
    ensures |ScoreSet(scores, a)| + |b| <= |ScoreSet(scores, b)| + |a|
  {
    var all, some, rest := ScoreSet(scores, a), ScoreSet(scores, b), ScoreSet(scores, a - b);
    ScoreSetSize(scores, a - b);
    assert |a - b| == |a| - |b|;
    assert all <= some + rest;
    hide ScoreSet;
    SubsetSize(all, some + rest);
    UnionSize(some, rest);
  }

  lemma {:induction false} SubsetSize(a: set<int>, b: set<int>)
    requires a <= b
    ensures |a| <= |b|
  {
    assert b == a + (b - a);
  }

  lemma UnionSize(a: set<int>, b: set<int>)
    ensures |a + b| <= |a| + |b|
  {
    assert a + b == a + (b - a);
    SubsetSize(b - a, b);
  }

  lemma DistinctSize(scores: seq<int>, v: seq<nat>)
    requires Sorted(scores) && Ranks(v, |scores|)
    ensures Repeats(ScoresAt(scores, v)) + |ScoreSet(scores, IndexSet(v))| == |IndexSet(v)|
  {
    SortedAt(scores, v);
    RepeatsAreDuplicates(ScoresAt(scores, v));
    DistinctIsScoreSet(scores, v);
    IndexSetSize(v, |scores|);
  }

  /** Seeing fewer members never reports more duplicates. */
  lemma DuplicatesAreALowerBound(scores: seq<int>, v: seq<nat>, w: seq<nat>)
    requires Sorted(scores) && Ranks(v, |scores|) && Ranks(w, |scores|) && Within(w, v)
    ensures Repeats(ScoresAt(scores, w)) <= Repeats(ScoresAt(scores, v))
  {
    DistinctSize(scores, v);
    DistinctSize(scores, w);
    assert IndexSet(w) <= IndexSet(v);
    hide Repeats, ScoresAt, ScoreSet, IndexSet, Sorted;
    FewerScores(scores, IndexSet(v), IndexSet(w));
  }

  lemma {:induction false} MaxScoreBounds(s: seq<int>)
    ensures 0 <= MaxScore(s) && (forall y :: y in s ==> y <= MaxScore(s)) && (MaxScore(s) == 0 || MaxScore(s) in s)
  {
    if s != [] {
      var front := s[..|s| - 1];
      MaxScoreBounds(front);
      assert s == front + [s[|s| - 1]];
    }
  }

  /** With the greatest score last, the maximum is that score, or 0. */
  lemma MaxOfSorted(s: seq<int>)
    requires Sorted(s) && s != []
    ensures MaxScore(s) == if s[|s| - 1] > 0 then s[|s| - 1] else 0
  {
    MaxScoreBounds(s);
    assert s[|s| - 1] in s;
  }

  // -------------------------------------------------------------------------------------- the walk

  class Queue {
    /** Scores by rank when the inspection starts. */
    const scores: seq<int>
    /** The ranks of the members still there. */
    var view: seq<nat>
    /** Consumers may delete members from here on. */
    const busy: bool

    ghost predicate Valid()
      reads this
    {
      Sorted(scores) && Ranks(view, |scores|)
    }

    constructor (scores: seq<int>, busy: bool)
      requires Sorted(scores)
      ensures this.scores == scores && this.busy == busy && Valid() && |view| == |scores|
    {
      this.scores, this.busy := scores, busy;
      view := seq(|scores|, i requires 0 <= i < |scores| => i);
    }

    /** Any members may go at any time. */
    method ConsumersAck()
      requires Valid()
      modifies this`view
      ensures Valid() && Within(view, old(view)) && |view| <= |old(view)|
      ensures !busy ==> view == old(view)
    {
      if busy {
        var gone: set<nat> := *;
        view := Survivors(view, gone, |scores|);
        WithinSize(old(view), view, |scores|);
      }
    }

    /** ZREVRANGE 0 0. */
    method FetchMax() returns (top: Option<int>)
      requires Valid()
      modifies this`view
      ensures Valid() && Within(view, old(view)) && |view| <= |old(view)| && (!busy ==> view == old(view))
      ensures top == if view == [] then None else Some(scores[view[|view| - 1]])
    {
      ConsumersAck();
      top := if view == [] then None else Some(scores[view[|view| - 1]]);
    }

    /** ZRANGE start stop. */
    method FetchPage(start: nat, stop: nat) returns (page: seq<int>, ghost ranks: seq<nat>)
      requires Valid() && start <= stop + 1
      modifies this`view
      ensures Valid() && Within(view, old(view)) && |view| <= |old(view)| && (!busy ==> view == old(view))
      ensures ranks == (if start >= |view| then [] else if stop < |view| then view[start..stop + 1] else view[start..])
      ensures Ranks(ranks, |scores|) && page == ScoresAt(scores, ranks)
    {
      ConsumersAck();
      var slice := if start >= |view| then [] else if stop < |view| then view[start..stop + 1] else view[start..];
      ranks := slice;
      page := ScoresAt(scores, slice);
    }
  }

  function Survivors(v: seq<nat>, gone: set<nat>, n: nat): (w: seq<nat>)
    requires Ranks(v, n)
    ensures Ranks(w, n) && Within(w, v)
  {
    if v == [] then []
    else
      var rest := Survivors(v[..|v| - 1], gone, n);
      if v[|v| - 1] in gone then rest
      else
        assert forall i :: 0 <= i < |rest| ==> rest[i] in v[..|v| - 1];
        rest + [v[|v| - 1]]
  }

  lemma RepeatsStep(s: seq<int>, x: int)
    ensures Repeats(s + [x]) == Repeats(s) + if s != [] && s[|s| - 1] == x then 1 else 0
    ensures MaxScore(s + [x]) == if x > MaxScore(s) then x else MaxScore(s)
  {
    assert (s + [x])[..|s|] == s;
  }

  /** What a walk that saw these members reports. */
  function Report(s: seq<int>): Stats {
    Stats(|s|, Repeats(s), MaxScore(s))
  }

  /** The inner loop, continuing over a page what the earlier pages began. */
  method Tally(ghost earlier: seq<int>, page: seq<int>, before: Stats, last: Option<int>)
    returns (stats: Stats, previous: Option<int>)
    requires before == Report(earlier)
    requires last == if earlier == [] then None else Some(earlier[|earlier| - 1])
    ensures stats == Report(earlier + page)
    ensures previous == if earlier + page == [] then None else Some((earlier + page)[|earlier + page| - 1])
  {
    stats, previous := before, last;
    assert earlier + page[..0] == earlier;
    for i := 0 to |page|
      invariant stats == Report(earlier + page[..i])
      invariant previous == var s := earlier + page[..i]; if s == [] then None else Some(s[|s| - 1])
    {
      assert earlier + page[..i + 1] == (earlier + page[..i]) + [page[i]];
      RepeatsStep(earlier + page[..i], page[i]);
      stats := stats.(members := stats.members + 1);
      if previous == Some(page[i]) {
        stats := stats.(duplicates := stats.duplicates + 1);
      }
      previous := Some(page[i]);
      if page[i] > stats.maxScore {
        stats := stats.(maxScore := page[i]);
      }
    }
    assert page[..|page|] == page;
  }

  /** Everything from this rank on lies after the last member seen. */
  ghost predicate Ahead(seen: seq<nat>, view: seq<nat>) {
    seen == [] || forall i :: |seen| <= i < |view| ==> seen[|seen| - 1] < view[i]
  }

  lemma StillAhead(seen: seq<nat>, v: seq<nat>, w: seq<nat>, n: nat)
    requires Ranks(v, n) && Ranks(w, n) && Within(w, v) && Ahead(seen, v)
    ensures Ahead(seen, w)
  {
    forall i | |seen| <= i < |w| ensures seen == [] || seen[|seen| - 1] < w[i] {
      RanksMoveDown(v, w, n, i);
    }
  }

  /** A page continues the members seen. */
  lemma PageAppended(seen: seq<nat>, ranks: seq<nat>, view: seq<nat>, all: seq<nat>, n: nat)
    requires Ranks(seen, n) && Ranks(view, n) && Ahead(seen, view) && Within(seen, all) && Within(view, all)
    requires ranks == if |seen| >= |view| then [] else if |seen| + 499 < |view| then view[|seen|..|seen| + 500] else view[|seen|..]
    ensures Ranks(ranks, n) && Ranks(seen + ranks, n)
    ensures Within(seen + ranks, all) && Ahead(seen + ranks, view) && |seen + ranks| <= Maximum(|seen|, |view|)
  {
  }

  lemma PagePrefix(seen: seq<nat>, ranks: seq<nat>, view: seq<nat>)
    requires ranks == if |seen| >= |view| then [] else if |seen| + 499 < |view| then view[|seen|..|seen| + 500] else view[|seen|..]
    ensures seen <= view ==> seen + ranks <= view && (|ranks| < 500 ==> seen + ranks == view)
  {
  }

  lemma PageScores(scores: seq<int>, seen: seq<nat>, ranks: seq<nat>)
    requires Ranks(seen, |scores|) && Ranks(ranks, |scores|) && Ranks(seen + ranks, |scores|)
    ensures ScoresAt(scores, seen) + ScoresAt(scores, ranks) == ScoresAt(scores, seen + ranks)
    ensures Last(scores, seen + ranks) == if ranks != [] then Some(ScoresAt(scores, ranks)[|ranks| - 1]) else Last(scores, seen)
  {
    assert ScoresAt(scores, seen) + ScoresAt(scores, ranks) == ScoresAt(scores, seen + ranks);
    assert seen + [] == seen;
  }

  function Maximum(a: nat, b: nat): nat {
    if a < b then b else a
  }

  /** The score seen last. */
  function Last(scores: seq<int>, seen: seq<nat>): Option<int>
    requires Ranks(seen, |scores|)
  {
    if seen == [] then None else Some(ScoresAt(scores, seen)[|seen| - 1])
  }

  /** scanQueueScores: pages by rank while members disappear. It ends, sees no member twice, and sees
      everything when nothing is deleted. */
  method ScanQueueScores(q: Queue) returns (stats: Stats, ghost seen: seq<nat>)
    requires q.Valid()
    modifies q`view
    ensures q.Valid() && Within(q.view, old(q.view))
    ensures Ranks(seen, |q.scores|) && Within(seen, old(q.view))
    ensures stats == Report(ScoresAt(q.scores, seen))
    ensures !q.busy ==> seen == old(q.view)
  {
    hide Repeats, MaxScore, Report, Ahead, Within, ScoresAt;
    stats, seen := Stats(0, 0, 0), [];
    var previous: Option<int>, start: nat := None, 0;
    NothingSeen(q.scores, q.view);
    while true
      invariant q.Valid() && Within(q.view, old(q.view)) && |q.view| <= |old(q.view)|
      invariant |seen| == start <= |old(q.view)| && Ranks(seen, |q.scores|) && Within(seen, old(q.view))
      invariant Ahead(seen, q.view)
      invariant stats == Report(ScoresAt(q.scores, seen))
      invariant previous == Last(q.scores, seen)
      invariant !q.busy ==> q.view == old(q.view) && seen <= old(q.view)
      decreases |old(q.view)| - start
    {
      ghost var before := q.view;
      var page;
      ghost var ranks;
      page, ranks := q.FetchPage(start, start + QUEUE_SCAN_PAGE_SIZE - 1);
      StillAhead(seen, before, q.view, |q.scores|);
      WithinTwice(q.view, before, old(q.view));
      PageAppended(seen, ranks, q.view, old(q.view), |q.scores|);
      PagePrefix(seen, ranks, q.view);
      PageScores(q.scores, seen, ranks);
      stats, previous := Tally(ScoresAt(q.scores, seen), page, stats, previous);
      seen := seen + ranks;
      if |page| < QUEUE_SCAN_PAGE_SIZE {
        return;
      }
      start := start + |page|;
    }
  }

  lemma WithinTwice(u: seq<nat>, v: seq<nat>, w: seq<nat>)
    requires Within(u, v) && Within(v, w)
    ensures Within(u, w)
  {
  }

  lemma NothingSeen(scores: seq<int>, view: seq<nat>)
    ensures Report(ScoresAt(scores, [])) == Stats(0, 0, 0)
    ensures Within([], view) && Within(view, view) && Ahead([], view)
  {
    assert ScoresAt(scores, []) == [];
  }

  /** inspectQueueScores: the maximum is read first, so under deletions it is exactly that of the queue
      at the first read, and bounds every survivor; the duplicates are a lower bound, exact when nothing
      is deleted. */
  method InspectQueueScores(q: Queue) returns (stats: Stats, ghost first: seq<nat>)
    requires q.Valid()
    modifies q`view
    ensures q.Valid() && Ranks(first, |q.scores|) && Within(first, old(q.view)) && Within(q.view, first)
    ensures stats.maxScore == MaxScore(ScoresAt(q.scores, first))
    ensures forall i :: 0 <= i < |q.view| ==> q.scores[q.view[i]] <= stats.maxScore
    ensures stats.members <= |first| && stats.duplicates <= Repeats(ScoresAt(q.scores, first))
    ensures !q.busy ==>
              && first == old(q.view) && stats.members == |first|
              && stats.duplicates == |first| - |Distinct(ScoresAt(q.scores, first))|
  {
    var top := q.FetchMax();
    first := q.view;
    ghost var seen;
    stats, seen := ScanQueueScores(q);
    FirstReadBounds(q.scores, first, seen);
    WithinSize(first, seen, |q.scores|);
    DuplicatesAreALowerBound(q.scores, first, seen);
    SortedAt(q.scores, first);
    RepeatsAreDuplicates(ScoresAt(q.scores, first));
    if top.Some? && top.value > stats.maxScore {
      stats := stats.(maxScore := top.value);
    }
    MaxScoreBounds(ScoresAt(q.scores, first));
    forall i | 0 <= i < |q.view| ensures q.scores[q.view[i]] <= stats.maxScore {
      assert q.view[i] in first;
      var k :| 0 <= k < |first| && first[k] == q.view[i];
      assert ScoresAt(q.scores, first)[k] == q.scores[q.view[i]];
    }
  }

  lemma FirstReadBounds(scores: seq<int>, first: seq<nat>, seen: seq<nat>)
    requires Sorted(scores) && Ranks(first, |scores|) && Ranks(seen, |scores|) && Within(seen, first)
    ensures var top := if first == [] then 0 else scores[first[|first| - 1]];
            var m := MaxScore(ScoresAt(scores, seen));
            MaxScore(ScoresAt(scores, first)) == if top > m then top else m
  {
    var s, t := ScoresAt(scores, first), ScoresAt(scores, seen);
    MaxScoreBounds(s);
    MaxScoreBounds(t);
    SortedAt(scores, first);
    if first != [] {
      MaxOfSorted(s);
    }
    forall y | y in t ensures y in s {
      var i :| 0 <= i < |t| && t[i] == y;
      assert seen[i] in first;
      var k :| 0 <= k < |first| && first[k] == seen[i];
      assert s[k] == y;
    }
  }
}
