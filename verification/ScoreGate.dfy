/** The score gate: which tracks count as true positives. Every frame adds one score to a track
    (0.0 when it was missed); hits and misses move a counter, and once that counter has passed
    its limit the median of the last scores decides. */
module ScoreGate {
  const SCORE_HISTORY := 10
  const MIN_HITS := 2

  datatype Gate = Gate(history: seq<real>, hits: nat, initCount: nat, initialized: bool, truePositive: bool)

  const EMPTY := Gate([], 0, 0, false, false)

  function Insert(x: real, s: seq<real>): seq<real> {
    if s == [] then [x]
    else if x <= s[0] then [x] + s
    else [s[0]] + Insert(x, s[1..])
  }

  function Sort(s: seq<real>): (r: seq<real>)
  {
    if s == [] then [] else Insert(s[0], Sort(s[1..]))
  }

  lemma {:induction false} InsertLength(x: real, s: seq<real>)
    ensures |Insert(x, s)| == |s| + 1
  {
    if s != [] && x > s[0] { InsertLength(x, s[1..]); }
  }

  lemma {:induction false} SortLength(s: seq<real>)
    ensures |Sort(s)| == |s|
  {
    if s != [] {
      SortLength(s[1..]);
      InsertLength(s[0], Sort(s[1..]));
    }
  }

  /** The median of a non-empty list, as Python's statistics.median: the mean of the two middle
      values of an even number of them. */
  function Median(s: seq<real>): real
    requires s != []
  {
    SortLength(s);
    var o := Sort(s);
    if |s| % 2 == 1 then o[|s| / 2] else (o[|s| / 2 - 1] + o[|s| / 2]) / 2.0
  }

  function LastScores(s: seq<real>): seq<real> {
    if |s| <= SCORE_HISTORY then s else s[|s| - SCORE_HISTORY..]
  }

  /** One frame's score, as the track update performs it. */
  function Record(g: Gate, score: real, limit: int, threshold: real): Gate {
    var history := LastScores(g.history + [score]);
    var hits := if score > 0.0 then g.hits + 1 else g.hits;
    var count := if score > 0.0 then g.initCount + 1 else if g.initCount == 0 then 0 else g.initCount - 1;
    var initialized := g.initialized || count > limit;
    Gate(history, hits, count, initialized,
         g.truePositive || (hits >= MIN_HITS && initialized && Median(history) >= threshold))
  }

  lemma RecordHasHistory(g: Gate, score: real, limit: int, threshold: real)
    ensures Record(g, score, limit, threshold).history != []
  {
    hide Median;
  }

  /** One frame's score, step by step. */
  method AddScore(g: Gate, score: real, limit: int, threshold: real) returns (r: Gate)
    ensures r == Record(g, score, limit, threshold)
  {
    hide Median;
    r := g.(history := LastScores(g.history + [score]));
    if score > 0.0 { r := r.(hits := r.hits + 1); }
    if score > 0.0 {
      r := r.(initCount := r.initCount + 1);
    } else if r.initCount > 0 {
      r := r.(initCount := r.initCount - 1);
    }
    if r.initCount > limit { r := r.(initialized := true); }
    if !r.truePositive && r.hits >= MIN_HITS && r.initialized {
      r := r.(truePositive := Median(r.history) >= threshold);
    }
  }

  /** The gate after a whole list of scores. */
  function Run(scores: seq<real>, limit: int, threshold: real): Gate {
    if scores == [] then EMPTY
    else Record(Run(scores[..|scores| - 1], limit, threshold), scores[|scores| - 1], limit, threshold)
  }

  function Weight(score: real): int {
    if score > 0.0 then 1 else -1
  }

  /** Hits minus misses among scores[from..to]. */
  function Balance(scores: seq<real>, from: nat, to: nat): int
    requires from <= to <= |scores|
  {
    if from == to then 0 else Balance(scores, from, to - 1) + Weight(scores[to - 1])
  }

  lemma {:induction false} BalancePrefix(scores: seq<real>, k: nat, from: nat, to: nat)
    requires from <= to <= k <= |scores|
    ensures Balance(scores[..k], from, to) == Balance(scores, from, to)
  {
    if from < to { BalancePrefix(scores, k, from, to - 1); }
  }

  /** The counter is the largest hits-minus-misses balance of any run of frames ending now (the
      empty run included). */
  lemma {:induction false} CounterIsBestSuffix(scores: seq<real>, limit: int, threshold: real)
    ensures forall i :: 0 <= i <= |scores| ==>
              Balance(scores, i, |scores|) <= Run(scores, limit, threshold).initCount
    ensures exists i :: 0 <= i <= |scores| &&
              Balance(scores, i, |scores|) == Run(scores, limit, threshold).initCount
  {
    var n := |scores|;
    assert Balance(scores, n, n) == 0;
    if n > 0 {
      var front := scores[..n - 1];
      CounterIsBestSuffix(front, limit, threshold);
      var c, c' := Run(front, limit, threshold).initCount, Run(scores, limit, threshold).initCount;
      forall i | 0 <= i < n
        ensures Balance(scores, i, n) == Balance(front, i, n - 1) + Weight(scores[n - 1])
      {
        BalancePrefix(scores, n - 1, i, n - 1);
      }
      var i :| 0 <= i <= n - 1 && Balance(front, i, n - 1) == c;
      if c' == c + Weight(scores[n - 1]) {
        assert Balance(scores, i, n) == c';
      } else {
        assert c' == 0 == Balance(scores, n, n);
      }
    }
  }

  predicate BusyWindow(scores: seq<real>, limit: int, from: nat, to: nat) {
    from <= to <= |scores| && to > 0 && Balance(scores, from, to) > limit
  }

  /** A track is initialised exactly when, over some contiguous window of its frames, hits minus
      misses went above the limit. */
  lemma {:induction false} InitializedIffBusyWindow(scores: seq<real>, limit: int, threshold: real)
    ensures Run(scores, limit, threshold).initialized <==>
            exists from: nat, to: nat :: BusyWindow(scores, limit, from, to)
  {
    var n := |scores|;
    if n > 0 {
      var front := scores[..n - 1];
      InitializedIffBusyWindow(front, limit, threshold);
      CounterIsBestSuffix(scores, limit, threshold);
      if Run(front, limit, threshold).initialized {
        var from: nat, to: nat :| BusyWindow(front, limit, from, to);
        BalancePrefix(scores, n - 1, from, to);
        assert BusyWindow(scores, limit, from, to);
      } else if Run(scores, limit, threshold).initCount > limit {
        var i :| 0 <= i <= n && Balance(scores, i, n) == Run(scores, limit, threshold).initCount;
        assert BusyWindow(scores, limit, i, n);
      }
      if from: nat, to: nat :| BusyWindow(scores, limit, from, to) {
        if to < n {
          BalancePrefix(scores, n - 1, from, to);
          assert BusyWindow(front, limit, from, to);
        } else {
          assert Run(scores, limit, threshold).initCount > limit;
        }
      }
    }
  }

  function AtLeast(s: seq<real>, threshold: real): nat {
    if s == [] then 0 else (if s[0] >= threshold then 1 else 0) + AtLeast(s[1..], threshold)
  }

  predicate Sorted(s: seq<real>) {
    |s| <= 1 || (s[0] <= s[1] && Sorted(s[1..]))
  }

  lemma {:induction false} InsertKeepsSorted(x: real, s: seq<real>)
    requires Sorted(s)
    ensures Sorted(Insert(x, s))
    ensures Insert(x, s) != [] && (Insert(x, s)[0] == x || (s != [] && Insert(x, s)[0] == s[0]))
  {
    if s != [] {
      if x <= s[0] {
        assert ([x] + s)[1..] == s;
      } else {
        var r := Insert(x, s[1..]);
        InsertKeepsSorted(x, s[1..]);
        assert ([s[0]] + r)[1..] == r;
      }
    }
  }

  lemma {:induction false} InsertKeepsCount(x: real, s: seq<real>, t: real)
    ensures AtLeast(Insert(x, s), t) == AtLeast(s, t) + (if x >= t then 1 else 0)
  {
    if s != [] {
      if x <= s[0] {
        assert ([x] + s)[1..] == s;
      } else {
        var r := Insert(x, s[1..]);
        InsertKeepsCount(x, s[1..], t);
        assert ([s[0]] + r)[1..] == r;
      }
    }
  }

  lemma {:induction false} InsertKeepsElements(x: real, s: seq<real>)
    ensures multiset(Insert(x, s)) == multiset(s) + multiset{x}
  {
    if s != [] && x > s[0] {
      InsertKeepsElements(x, s[1..]);
      assert s == [s[0]] + s[1..];
    }
  }

  /** Sorting really sorts, keeps every score, and so keeps how many reach a threshold. */
  lemma {:induction false} SortKeeps(s: seq<real>, t: real)
    ensures Sorted(Sort(s)) && multiset(Sort(s)) == multiset(s)
    ensures AtLeast(Sort(s), t) == AtLeast(s, t)
  {
    hide Sorted, AtLeast;
    if s == [] {
      NothingSorted(t);
    } else {
      SortKeeps(s[1..], t);
      InsertKeepsSorted(s[0], Sort(s[1..]));
      InsertKeepsCount(s[0], Sort(s[1..]), t);
      InsertKeepsElements(s[0], Sort(s[1..]));
      AtLeastOfAll(s, t);
      assert s == [s[0]] + s[1..];
    }
  }

  lemma NothingSorted(t: real)
    ensures Sorted([]) && AtLeast([], t) == 0
  {}

  lemma AtLeastOfAll(s: seq<real>, t: real)
    requires s != []
    ensures AtLeast(s, t) == (if s[0] >= t then 1 else 0) + AtLeast(s[1..], t)
  {}

  lemma {:induction false} SortedTail(s: seq<real>, k: nat, t: real)
    requires Sorted(s) && k < |s| && s[k] >= t
    ensures AtLeast(s, t) >= |s| - k
    decreases |s|
  {
    if k > 0 {
      SortedTail(s[1..], k - 1, t);
    } else if |s| > 1 {
      SortedTail(s[1..], 0, t);
    }
  }

  lemma {:induction false} SortedNeighbours(s: seq<real>, k: nat)
    requires Sorted(s) && k + 1 < |s|
    ensures s[k] <= s[k + 1]
  {
    if k > 0 { SortedNeighbours(s[1..], k - 1); }
  }

  /** A median at or above a threshold means at least half of the values are. */
  lemma MedianMeansHalf(s: seq<real>, t: real)
    requires s != [] && Median(s) >= t
    ensures 2 * AtLeast(s, t) >= |s|
  {
    SortLength(s);
    SortKeeps(s, t);
    var o, k := Sort(s), |s| / 2;
    if |s| % 2 == 0 { SortedNeighbours(o, k - 1); }
    assert o[k] >= t;
    SortedTail(o, k, t);
  }

  lemma LastScoresOfAppend(s: seq<real>, x: real)
    ensures LastScores(LastScores(s) + [x]) == LastScores(s + [x])
  {
    if |s| > SCORE_HISTORY {
      var k := |s| - SCORE_HISTORY;
      assert s[k..] + [x] == (s + [x])[k..];
    }
  }

  lemma {:induction false} RunHistory(scores: seq<real>, limit: int, threshold: real)
    ensures Run(scores, limit, threshold).history == LastScores(scores)
  {
    hide Record, LastScores;
    var n := |scores|;
    if n == 0 {
      LastOfNone();
    } else {
      var front, x := scores[..n - 1], scores[n - 1];
      RunHistory(front, limit, threshold);
      RecordHistory(Run(front, limit, threshold), x, limit, threshold);
      LastScoresOfAppend(front, x);
      assert scores == front + [x];
    }
  }

  lemma LastOfNone()
    ensures LastScores([]) == [] == EMPTY.history
  {}

  lemma RecordHistory(g: Gate, score: real, limit: int, threshold: real)
    ensures Record(g, score, limit, threshold).history == LastScores(g.history + [score])
  {
    hide Median, LastScores;
  }

  /** How many of the scores were hits. */
  function Hits(scores: seq<real>): nat {
    if scores == [] then 0
    else Hits(scores[..|scores| - 1]) + (if scores[|scores| - 1] > 0.0 then 1 else 0)
  }

  /** The frame on which the first k scores satisfy the gate. */
  ghost predicate Passes(scores: seq<real>, k: nat, limit: int, threshold: real) {
    && 0 < k <= |scores|
    && Hits(scores[..k]) >= MIN_HITS
    && (exists from: nat, to: nat :: BusyWindow(scores[..k], limit, from, to))
    && Median(LastScores(scores[..k])) >= threshold
  }

  lemma {:induction false} RunHits(scores: seq<real>, limit: int, threshold: real)
    ensures Run(scores, limit, threshold).hits == Hits(scores)
  {
    if scores != [] { RunHits(scores[..|scores| - 1], limit, threshold); }
  }

  lemma {:induction false} RunLatch(scores: seq<real>, limit: int, threshold: real)
    requires scores != []
    ensures Run(scores, limit, threshold).truePositive ==
            (Run(scores[..|scores| - 1], limit, threshold).truePositive || Passes(scores, |scores|, limit, threshold))
  {
    InitializedIffBusyWindow(scores, limit, threshold);
    RunHistory(scores, limit, threshold);
    RunHits(scores, limit, threshold);
    assert scores[..|scores|] == scores;
  }

  /** The gate latches exactly on the frames where there have been two hits, a busy window, and a
      median of the last scores at the threshold. */
  lemma {:induction false} TruePositiveIffPassed(scores: seq<real>, limit: int, threshold: real)
    ensures Run(scores, limit, threshold).truePositive <==>
            exists k: nat :: Passes(scores, k, limit, threshold)
  {
    hide Run, Passes;
    var n := |scores|;
    if n == 0 {
      NothingPassed(limit, threshold);
    } else {
      var front := scores[..n - 1];
      TruePositiveIffPassed(front, limit, threshold);
      RunLatch(scores, limit, threshold);
      forall k: nat
        ensures Passes(front, k, limit, threshold) <==> Passes(scores, k, limit, threshold) && k != n
      {
        SamePasses(scores, k, limit, threshold);
      }
    }
  }

  lemma NothingPassed(limit: int, threshold: real)
    ensures !Run([], limit, threshold).truePositive && forall k: nat :: !Passes([], k, limit, threshold)
  {}

  /** Whether an earlier frame passed does not depend on later ones. */
  lemma SamePasses(scores: seq<real>, k: nat, limit: int, threshold: real)
    requires scores != []
    ensures Passes(scores[..|scores| - 1], k, limit, threshold) <==> Passes(scores, k, limit, threshold) && k != |scores|
  {
    hide Median, Hits, BusyWindow;
    if k < |scores| { assert scores[..|scores| - 1][..k] == scores[..k]; }
  }

  /** When a track became a true positive, at least half of its last (up to ten) scores were at
      or above its type's threshold. */
  lemma TruePositiveHadHalf(scores: seq<real>, limit: int, threshold: real)
    requires Run(scores, limit, threshold).truePositive
    ensures exists k: nat :: 0 < k <= |scores|
              && 2 * AtLeast(LastScores(scores[..k]), threshold) >= |LastScores(scores[..k])|
  {
    TruePositiveIffPassed(scores, limit, threshold);
    var k: nat :| Passes(scores, k, limit, threshold);
    MedianMeansHalf(LastScores(scores[..k]), threshold);
  }
}
