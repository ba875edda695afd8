/** The vote ledger entries and the BFT quorum rule of the inference pass
    (src/parser/parser_logs.py, `VoteData`, line 200 and `_process_vote_threshold`). */
module Quorum {
  import opened Wrappers

  /** One broadcast vote (VoteData); `time` is in microseconds. */
  datatype Vote = Vote(kind: string, time: int, validator: nat, weight: nat)

  /** `(2 * total) // 3 + 1`: the least weight strictly greater than two thirds of `total`. */
  function WeightThreshold(total: nat): (r: nat)
    ensures 3 * r > 2 * total
    ensures 3 * (r - 1) <= 2 * total
  {
    (total * 2) / 3 + 1
  }

  lemma ThresholdExamples()
    ensures WeightThreshold(10) == 7
    ensures WeightThreshold(9) == 7
    ensures WeightThreshold(1) == 1
    ensures WeightThreshold(0) == 1
  {
  }

  /** A larger committee never needs less weight. */
  lemma ThresholdMonotone(total1: nat, total2: nat)
    requires total1 <= total2
    ensures 0 < WeightThreshold(total1) <= WeightThreshold(total2)
  {
  }

  /** Total weight of the votes cast at or before time `t`, in any order. */
  function WeightUpTo(votes: seq<Vote>, t: int): nat
  {
    if votes == [] then 0
    else (if votes[0].time <= t then votes[0].weight else 0) + WeightUpTo(votes[1..], t)
  }

  /** Total weight of all the votes. */
  function TotalWeight(votes: seq<Vote>): nat
  {
    if votes == [] then 0 else votes[0].weight + TotalWeight(votes[1..])
  }

  predicate SortedByTime(s: seq<Vote>)
  {
    forall i, j :: 0 <= i < j < |s| ==> s[i].time <= s[j].time
  }

  /** Inserts `v` before the first vote of `s` that is not earlier than it. */
  function InsertByTime(v: Vote, s: seq<Vote>): (r: seq<Vote>)
    ensures multiset(r) == multiset(s) + multiset{v}
  {
    if s == [] || v.time <= s[0].time then [v] + s
    else
      assert s == [s[0]] + s[1..];
      [s[0]] + InsertByTime(v, s[1..])
  }

  lemma ConsSorted(x: Vote, rest: seq<Vote>)
    requires SortedByTime(rest)
    requires forall i :: 0 <= i < |rest| ==> x.time <= rest[i].time
    ensures SortedByTime([x] + rest)
  {
    var r := [x] + rest;
    forall i, j | 0 <= i < j < |r| ensures r[i].time <= r[j].time {
      if i > 0 {
        assert r[i] == rest[i - 1] && r[j] == rest[j - 1];
      }
    }
  }

  /** Inserting into a time-ordered list keeps it time-ordered. */
  lemma {:induction false} InsertSorted(v: Vote, s: seq<Vote>)
    requires SortedByTime(s)
    ensures SortedByTime(InsertByTime(v, s))
    decreases |s|
  {
    if s == [] || v.time <= s[0].time {
      ConsSorted(v, s);
    } else {
      var tail := s[1..];
      var rest := InsertByTime(v, tail);
      InsertSorted(v, tail);
      forall i | 0 <= i < |rest| ensures s[0].time <= rest[i].time {
        assert rest[i] in multiset(rest);
        if rest[i] != v {
          assert rest[i] in multiset(tail);
          var j :| 0 <= j < |tail| && tail[j] == rest[i];
          assert s[j + 1] == rest[i];
        }
      }
      ConsSorted(s[0], rest);
    }
  }

  /** `sorted(votes, key=lambda x: x.t_ms)`: ascending by time; a vote is placed
      before later-listed votes with the same time, so the sort is stable. */
  function SortByTime(votes: seq<Vote>): (r: seq<Vote>)
    ensures SortedByTime(r)
    ensures multiset(r) == multiset(votes)
  {
    if votes == [] then []
    else
      assert votes == [votes[0]] + votes[1..];
      var rest := SortByTime(votes[1..]);
      InsertSorted(votes[0], rest);
      InsertByTime(votes[0], rest)
  }

  lemma {:induction false} InsertKeepsWeights(v: Vote, s: seq<Vote>, t: int)
    ensures WeightUpTo(InsertByTime(v, s), t) == (if v.time <= t then v.weight else 0) + WeightUpTo(s, t)
    ensures TotalWeight(InsertByTime(v, s)) == v.weight + TotalWeight(s)
  {
    if s != [] && v.time > s[0].time {
      InsertKeepsWeights(v, s[1..], t);
      var r := InsertByTime(v, s);
      assert r[1..] == InsertByTime(v, s[1..]);
    }
  }

  /** Sorting does not change how much weight was cast by any time. */
  lemma {:induction false} SortKeepsWeights(votes: seq<Vote>)
    ensures forall t :: WeightUpTo(SortByTime(votes), t) == WeightUpTo(votes, t)
    ensures TotalWeight(SortByTime(votes)) == TotalWeight(votes)
  {
    if votes != [] {
      SortKeepsWeights(votes[1..]);
      forall t ensures WeightUpTo(SortByTime(votes), t) == WeightUpTo(votes, t) {
        InsertKeepsWeights(votes[0], SortByTime(votes[1..]), t);
      }
      InsertKeepsWeights(votes[0], SortByTime(votes[1..]), 0);
    }
  }

  /** Walks `s` in order, still needing weight `need`; the time of the vote
      that brings the accumulated weight to `need`, or None. */
  function FirstCrossing(s: seq<Vote>, need: int): Option<int>
  {
    if s == [] then None
    else if s[0].weight >= need then Some(s[0].time)
    else FirstCrossing(s[1..], need - s[0].weight)
  }

  /** The crossing time `_process_vote_threshold` returns for these votes. */
  function CrossingTime(votes: seq<Vote>, threshold: int): Option<int>
  {
    FirstCrossing(SortByTime(votes), threshold)
  }

  /** `t` is a vote time, the votes cast by `t` reach `threshold`, and the votes
      cast by any earlier time do not: `t` is the earliest instant of quorum. */
  ghost predicate IsEarliestQuorum(votes: seq<Vote>, threshold: int, t: int)
  {
    && (exists v :: v in votes && v.time == t)
    && WeightUpTo(votes, t) >= threshold
    && forall u :: u < t ==> WeightUpTo(votes, u) < threshold
  }

  lemma {:induction false} FirstCrossingSorted(s: seq<Vote>, need: int)
    requires SortedByTime(s) && need > 0
    ensures FirstCrossing(s, need).None? <==> TotalWeight(s) < need
    ensures FirstCrossing(s, need).Some? ==> IsEarliestQuorum(s, need, FirstCrossing(s, need).value)
  {
    if s == [] {
    } else if s[0].weight >= need {
      CrossingAtHead(s, need);
    } else {
      var rest, w := s[1..], s[0].weight;
      FirstCrossingSorted(rest, need - w);
      var c := FirstCrossing(rest, need - w);
      if c.Some? {
        CrossingAfterHead(s, need, c.value);
      }
    }
  }

  /** A first vote that alone reaches `need` is the earliest quorum. */
  lemma CrossingAtHead(s: seq<Vote>, need: int)
    requires SortedByTime(s) && s != [] && need > 0 && s[0].weight >= need
    ensures IsEarliestQuorum(s, need, s[0].time)
  {
    assert s[0] in s;
    forall u | u < s[0].time ensures WeightUpTo(s, u) < need {
      WeightBefore(s, u);
    }
  }

  /** When the first vote falls short, the earliest quorum of the rest for
      the remaining need is the earliest quorum of the whole list. */
  lemma CrossingAfterHead(s: seq<Vote>, need: int, t: int)
    requires SortedByTime(s) && s != [] && s[0].weight < need
    requires IsEarliestQuorum(s[1..], need - s[0].weight, t)
    ensures IsEarliestQuorum(s, need, t)
  {
    var rest := s[1..];
    var v :| v in rest && v.time == t;
    assert v in s;
    assert s[0].time <= t by {
      var i :| 0 <= i < |rest| && rest[i] == v;
      assert s[i + 1] == v;
    }
    forall u | u < t ensures WeightUpTo(s, u) < need {
    }
  }

  /** In a sorted list no weight is cast before its first vote. */
  lemma {:induction false} WeightBefore(s: seq<Vote>, u: int)
    requires SortedByTime(s) && s != [] && u < s[0].time
    ensures WeightUpTo(s, u) == 0
  {
    if |s| > 1 {
      WeightBefore(s[1..], u);
    }
  }

  /** The crossing time is the earliest instant at which the votes cast so far
      reach the threshold, and there is none exactly when all the votes together
      stay below it. Neither depends on the order in which votes were logged. */
  lemma {:induction false} CrossingTimeIsEarliestQuorum(votes: seq<Vote>, threshold: int)
    requires threshold > 0
    ensures CrossingTime(votes, threshold).None? <==> TotalWeight(votes) < threshold
    ensures CrossingTime(votes, threshold).Some? ==>
              IsEarliestQuorum(votes, threshold, CrossingTime(votes, threshold).value)
  {
    var sorted := SortByTime(votes);
    FirstCrossingSorted(sorted, threshold);
    SortKeepsWeights(votes);
    var c := CrossingTime(votes, threshold);
    if c.Some? {
      var v :| v in sorted && v.time == c.value;
      assert v in multiset(sorted);
      assert v in votes;
    }
  }

  /** At most one instant is the earliest quorum. */
  lemma EarliestQuorumUnique(votes: seq<Vote>, threshold: int, t1: int, t2: int)
    requires IsEarliestQuorum(votes, threshold, t1) && IsEarliestQuorum(votes, threshold, t2)
    ensures t1 == t2
  {
  }

  /** Taking the vote at index `i` out of a list takes exactly its weight out
      of the weight cast by any time and out of the total. */
  lemma {:induction false} WeightUpToRemove(a: seq<Vote>, i: nat, t: int)
    requires i < |a|
    ensures WeightUpTo(a, t) == (if a[i].time <= t then a[i].weight else 0) + WeightUpTo(a[..i] + a[i + 1..], t)
    ensures TotalWeight(a) == a[i].weight + TotalWeight(a[..i] + a[i + 1..])
    decreases |a|
  {
    if i == 0 {
      assert a[..i] + a[i + 1..] == a[1..];
    } else {
      var rest := a[1..];
      WeightUpToRemove(rest, i - 1, t);
      var removed := a[..i] + a[i + 1..];
      assert removed[0] == a[0];
      assert removed[1..] == rest[..i - 1] + rest[i..];
    }
  }

  /** A vote of a list can be taken out of it: the rest holds one copy fewer,
      and has exactly that vote's weight less by any time and in total. */
  lemma RemoveVote(s: seq<Vote>, x: Vote, t: int) returns (rest: seq<Vote>)
    requires x in multiset(s)
    ensures multiset(rest) == multiset(s) - multiset{x}
    ensures WeightUpTo(s, t) == (if x.time <= t then x.weight else 0) + WeightUpTo(rest, t)
    ensures TotalWeight(s) == x.weight + TotalWeight(rest)
  {
    var i :| 0 <= i < |s| && s[i] == x;
    rest := s[..i] + s[i + 1..];
    assert s == s[..i] + [s[i]] + s[i + 1..];
    WeightUpToRemove(s, i, t);
  }

  /** Two lists holding the same votes, in any order, cast the same weight by
      every time and in total. */
  lemma {:induction false} WeightUpToPerm(a: seq<Vote>, b: seq<Vote>, t: int)
    requires multiset(a) == multiset(b)
    ensures WeightUpTo(a, t) == WeightUpTo(b, t)
    ensures TotalWeight(a) == TotalWeight(b)
    decreases |a|
  {
    if a == [] {
      assert |b| == |multiset(b)| == 0;
    } else {
      var others := RemoveVote(b, a[0], t);
      assert multiset(a[1..]) == multiset(others) by {
        assert a == [a[0]] + a[1..];
      }
      WeightUpToPerm(a[1..], others, t);
    }
  }

  /** The crossing time does not depend on the order in which the votes were
      logged: any rearrangement of the same votes crosses at the same time. */
  lemma CrossingOrderFree(a: seq<Vote>, b: seq<Vote>, threshold: int)
    requires threshold > 0 && multiset(a) == multiset(b)
    ensures CrossingTime(a, threshold) == CrossingTime(b, threshold)
  {
    CrossingTimeIsEarliestQuorum(a, threshold);
    CrossingTimeIsEarliestQuorum(b, threshold);
    forall t ensures WeightUpTo(a, t) == WeightUpTo(b, t) {
      WeightUpToPerm(a, b, t);
    }
    WeightUpToPerm(a, b, 0);
    var ca, cb := CrossingTime(a, threshold), CrossingTime(b, threshold);
    if ca.Some? && cb.Some? {
      var v :| v in a && v.time == ca.value;
      assert v in multiset(b);
      assert IsEarliestQuorum(b, threshold, ca.value);
      EarliestQuorumUnique(b, threshold, ca.value, cb.value);
    }
  }

  /** A larger committee total never makes the same votes reach quorum earlier. */
  lemma {:induction false} CrossingMonotone(votes: seq<Vote>, total1: nat, total2: nat)
    requires total1 <= total2
    requires CrossingTime(votes, WeightThreshold(total2)).Some?
    ensures CrossingTime(votes, WeightThreshold(total1)).Some?
    ensures CrossingTime(votes, WeightThreshold(total1)).value
            <= CrossingTime(votes, WeightThreshold(total2)).value
  {
    var thr1, thr2 := WeightThreshold(total1), WeightThreshold(total2);
    ThresholdMonotone(total1, total2);
    CrossingTimeIsEarliestQuorum(votes, thr1);
    CrossingTimeIsEarliestQuorum(votes, thr2);
    var t2 := CrossingTime(votes, thr2).value;
    assert WeightUpTo(votes, t2) >= thr1;
    assert WeightUpTo(votes, t2) <= TotalWeight(votes) by {
      WeightUpToAtMostTotal(votes, t2);
    }
  }

  lemma {:induction false} WeightUpToAtMostTotal(votes: seq<Vote>, t: int)
    ensures WeightUpTo(votes, t) <= TotalWeight(votes)
  {
    if votes != [] {
      WeightUpToAtMostTotal(votes[1..], t);
    }
  }

  /** The accumulating loop of `_process_vote_threshold`: votes in time order,
      weight added one vote at a time, stop at the first that reaches the threshold. */
  method AccumulateVotes(votes: seq<Vote>, threshold: int) returns (crossing: Option<int>)
    ensures crossing == CrossingTime(votes, threshold)
    ensures threshold > 0 ==> (crossing.None? <==> TotalWeight(votes) < threshold)
    ensures threshold > 0 && crossing.Some? ==> IsEarliestQuorum(votes, threshold, crossing.value)
  {
    var sorted := SortByTime(votes);
    var currentWeight := 0;
    var i := 0;
    crossing := None;
    while i < |sorted|
      invariant 0 <= i <= |sorted|
      invariant CrossingTime(votes, threshold) == FirstCrossing(sorted[i..], threshold - currentWeight)
    {
      assert sorted[i..][1..] == sorted[i + 1..];
      currentWeight := currentWeight + sorted[i].weight;
      if currentWeight >= threshold {
        crossing := Some(sorted[i].time);
        break;
      }
      i := i + 1;
    }
    if threshold > 0 {
      CrossingTimeIsEarliestQuorum(votes, threshold);
    }
  }
}
