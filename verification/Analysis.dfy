/** The choice prepare_analysis makes from retrieved memory, and the explanation it attaches to every
    candidate (service.py). */
module Analysis {
  import opened Common
  import opened Governance
  import opened Retrieval

  /** The service's thresholds, and how it normalizes an action before comparing. */
  datatype Policy = Policy(
    minSimilarity: real, minConfidence: real, minRank: real, minMargin: real, normalize: string -> string)

  datatype Reason =
    | NoGovernedMemory | SimilarityBelowThreshold | ConfidenceBelowThreshold | RankBelowThreshold
    | VersionIncompatible | OutcomeNotPositive | TopCandidatesAmbiguous

  function When(condition: bool, reason: Reason): seq<Reason> {
    if condition then [reason] else []
  }

  /** _top_candidates_conflict: the first two are close in score and differ in action. */
  predicate Conflict(p: Policy, candidates: seq<Retrieved>) {
    && |candidates| >= 2
    && candidates[0].rank - candidates[1].rank < p.minMargin
    && p.normalize(candidates[0].memory.action) != p.normalize(candidates[1].memory.action)
  }

  /** The thresholds one candidate fails. */
  function Shortfalls(p: Policy, x: Retrieved): seq<Reason> {
    When(x.similarity < p.minSimilarity, SimilarityBelowThreshold)
    + When(x.confidence < p.minConfidence, ConfidenceBelowThreshold)
    + When(x.rank < p.minRank, RankBelowThreshold)
    + When(x.compatibility < 1.0, VersionIncompatible)
  }

  function AbstentionReasons(p: Policy, candidates: seq<Retrieved>): seq<Reason> {
    if candidates == [] then [NoGovernedMemory]
    else Shortfalls(p, candidates[0]) + When(Conflict(p, candidates), TopCandidatesAmbiguous)
  }

  function Positives(memories: seq<Retrieved>): seq<Retrieved> {
    if memories == [] then []
    else (if memories[0].memory.Outcome() == Positive then [memories[0]] else []) + Positives(memories[1..])
  }

  function Abstention(p: Policy, memories: seq<Retrieved>): seq<Reason> {
    if memories != [] && Positives(memories) == [] then [OutcomeNotPositive]
    else AbstentionReasons(p, Positives(memories))
  }

  /** The recommended memory: the best positive one, unless there is a reason to abstain. */
  function Best(p: Policy, memories: seq<Retrieved>): Option<Retrieved> {
    if Positives(memories) != [] && Abstention(p, memories) == [] then Some(Positives(memories)[0]) else None
  }

  datatype Disposition = Selected | Rejected | EligibleNotSelected

  datatype Decision = Decision(memory: Uuid, disposition: Disposition, reasons: seq<Reason>, rank: real)

  function DecisionFor(p: Policy, memories: seq<Retrieved>, best: Option<Retrieved>, i: nat): Decision
    requires i < |memories|
  {
    var x := memories[i];
    var reasons := Shortfalls(p, x) + When(x.memory.outcomeScore <= 0.0, OutcomeNotPositive)
                   + When(i == 0 && Conflict(p, memories), TopCandidatesAmbiguous);
    Decision(x.memory.id,
             if best == Some(x) then Selected else if reasons != [] then Disposition.Rejected else EligibleNotSelected,
             reasons, x.rank)
  }

  method CollectShortfalls(p: Policy, x: Retrieved) returns (reasons: seq<Reason>)
    ensures reasons == Shortfalls(p, x)
  {
    reasons := [];
    if x.similarity < p.minSimilarity {
      reasons := reasons + [SimilarityBelowThreshold];
    }
    if x.confidence < p.minConfidence {
      reasons := reasons + [ConfidenceBelowThreshold];
    }
    if x.rank < p.minRank {
      reasons := reasons + [RankBelowThreshold];
    }
    if x.compatibility < 1.0 {
      reasons := reasons + [VersionIncompatible];
    }
  }

  /** _candidate_decisions. */
  method CandidateDecisions(p: Policy, memories: seq<Retrieved>, best: Option<Retrieved>) returns (decisions: seq<Decision>)
    ensures |decisions| == |memories|
    ensures forall i :: 0 <= i < |memories| ==> decisions[i] == DecisionFor(p, memories, best, i)
  {
    decisions := [];
    for i := 0 to |memories|
      invariant |decisions| == i
      invariant forall k :: 0 <= k < i ==> decisions[k] == DecisionFor(p, memories, best, k)
    {
      var x := memories[i];
      var reasons := CollectShortfalls(p, x);
      if x.memory.outcomeScore <= 0.0 {
        reasons := reasons + [OutcomeNotPositive];
      }
      if i == 0 && Conflict(p, memories) {
        reasons := reasons + [TopCandidatesAmbiguous];
      }
      var disposition := if best == Some(x) then Selected else if reasons != [] then Disposition.Rejected else EligibleNotSelected;
      decisions := decisions + [Decision(x.memory.id, disposition, reasons, x.rank)];
    }
  }

  lemma {:induction false} FirstPositive(memories: seq<Retrieved>) returns (i: nat)
    requires Positives(memories) != []
    ensures i < |memories| && memories[i] == Positives(memories)[0] && memories[i].memory.Outcome() == Positive
    ensures forall k :: 0 <= k < i ==> memories[k].memory.Outcome() != Positive
  {
    if memories[0].memory.Outcome() == Positive {
      i := 0;
    } else {
      var j := FirstPositive(memories[1..]);
      i := j + 1;
    }
  }

  lemma {:induction false} PositivesAreCandidates(memories: seq<Retrieved>)
    ensures forall x :: x in Positives(memories) <==> x in memories && x.memory.Outcome() == Positive
  {
    if memories != [] {
      PositivesAreCandidates(memories[1..]);
      assert memories == [memories[0]] + memories[1..];
    }
  }

  /** A recommendation is a retrieved positive memory that passes every threshold; nothing before it
      in the ranking is positive, its positive runner-up is no close rival, and it alone is reported
      as selected. */
  lemma RecommendationIsJustified(p: Policy, memories: seq<Retrieved>) returns (i: nat)
    requires Best(p, memories).Some?
    ensures i < |memories| && Best(p, memories) == Some(memories[i])
    ensures memories[i].memory.Outcome() == Positive && Shortfalls(p, memories[i]) == []
    ensures forall k :: 0 <= k < i ==> memories[k].memory.Outcome() != Positive
    ensures !Conflict(p, Positives(memories))
    ensures DistinctIds(memories) ==> forall k :: 0 <= k < |memories| ==>
              (DecisionFor(p, memories, Best(p, memories), k).disposition == Selected <==> k == i)
  {
    i := FirstPositive(memories);
  }

  predicate IsPositive(x: Retrieved) {
    x.memory.outcomeScore > 0.0
  }

  predicate MeetsThresholds(p: Policy, x: Retrieved) {
    x.similarity >= p.minSimilarity && x.confidence >= p.minConfidence && x.rank >= p.minRank && x.compatibility >= 1.0
  }

  /** y is far enough behind x, or says the same. */
  predicate NoRival(p: Policy, x: Retrieved, y: Retrieved) {
    x.rank - y.rank >= p.minMargin || p.normalize(x.memory.action) == p.normalize(y.memory.action)
  }

  /** j is the next positive candidate after the i-th. */
  predicate IsNext(memories: seq<Retrieved>, i: nat, j: nat)
    requires i < |memories|
  {
    i < j < |memories| && IsPositive(memories[j]) && forall k :: i < k < j ==> !IsPositive(memories[k])
  }

  /** The i-th candidate is the first positive one, passes, and the next positive one is no rival. */
  predicate Recommendable(p: Policy, memories: seq<Retrieved>, i: nat)
    requires i < |memories|
  {
    && IsPositive(memories[i]) && MeetsThresholds(p, memories[i])
    && (forall k :: 0 <= k < i ==> !IsPositive(memories[k]))
    && (forall j :: i < j < |memories| && IsNext(memories, i, j) ==> NoRival(p, memories[i], memories[j]))
  }

  lemma ShortfallsExactly(p: Policy, x: Retrieved)
    ensures Shortfalls(p, x) == [] <==> MeetsThresholds(p, x)
  {
  }

  /** Where the first two positive candidates stand. */
  lemma {:induction false} FirstTwoPositives(memories: seq<Retrieved>, i: nat)
    requires i < |memories| && IsPositive(memories[i]) && forall k :: 0 <= k < i ==> !IsPositive(memories[k])
    ensures Positives(memories) == [memories[i]] + Positives(memories[i + 1..])
    decreases |memories|
  {
    if i > 0 {
      FirstTwoPositives(memories[1..], i - 1);
      assert memories[1..][i..] == memories[i + 1..];
    }
  }

  lemma {:induction false} NoPositives(memories: seq<Retrieved>)
    ensures Positives(memories) == [] <==> forall k :: 0 <= k < |memories| ==> !IsPositive(memories[k])
  {
    if memories != [] {
      NoPositives(memories[1..]);
      assert forall k :: 0 < k < |memories| ==> memories[1..][k - 1] == memories[k];
    }
  }

  lemma NextIsSecond(memories: seq<Retrieved>, i: nat, j: nat)
    requires i < |memories| && IsPositive(memories[i]) && (forall k :: 0 <= k < i ==> !IsPositive(memories[k])) && IsNext(memories, i, j)
    ensures |Positives(memories)| >= 2 && Positives(memories)[0] == memories[i] && Positives(memories)[1] == memories[j]
  {
    var rest := memories[i + 1..];
    FirstTwoPositives(memories, i);
    assert forall k :: 0 <= k < |rest| ==> rest[k] == memories[i + 1 + k];
    FirstTwoPositives(rest, j - i - 1);
  }

  lemma SecondIsNext(memories: seq<Retrieved>, i: nat) returns (j: nat)
    requires i < |memories| && IsPositive(memories[i]) && forall k :: 0 <= k < i ==> !IsPositive(memories[k])
    requires |Positives(memories)| >= 2
    ensures IsNext(memories, i, j)
  {
    var rest := memories[i + 1..];
    FirstTwoPositives(memories, i);
    var n := FirstPositive(rest);
    j := i + 1 + n;
    assert forall k :: i < k < j ==> memories[k] == rest[k - i - 1];
  }

  /** A candidate is recommended exactly when it is recommendable, and there is a recommendation exactly
      when there is such a candidate. */
  lemma RecommendedExactly(p: Policy, memories: seq<Retrieved>)
    ensures forall i :: 0 <= i < |memories| && Recommendable(p, memories, i) ==> Best(p, memories) == Some(memories[i])
    ensures Best(p, memories).Some? ==> exists i :: 0 <= i < |memories| && Recommendable(p, memories, i)
  {
    forall i | 0 <= i < |memories| && Recommendable(p, memories, i)
      ensures Best(p, memories) == Some(memories[i])
    {
      FirstTwoPositives(memories, i);
      ShortfallsExactly(p, memories[i]);
      if |Positives(memories)| >= 2 {
        var j := SecondIsNext(memories, i);
        NextIsSecond(memories, i, j);
      }
    }
    if Best(p, memories).Some? {
      var i := RecommendationIsJustified(p, memories);
      ShortfallsExactly(p, memories[i]);
      forall j | i < j < |memories| && IsNext(memories, i, j)
        ensures NoRival(p, memories[i], memories[j])
      {
        NextIsSecond(memories, i, j);
      }
      assert Recommendable(p, memories, i);
    }
  }

  /** Each reason against a candidate. */
  predicate Against(p: Policy, x: Retrieved, judged: bool, ambiguous: bool, r: Reason) {
    match r
    case NoGovernedMemory => false
    case SimilarityBelowThreshold => !(x.similarity >= p.minSimilarity)
    case ConfidenceBelowThreshold => !(x.confidence >= p.minConfidence)
    case RankBelowThreshold => !(x.rank >= p.minRank)
    case VersionIncompatible => !(x.compatibility >= 1.0)
    case OutcomeNotPositive => judged && !IsPositive(x)
    case TopCandidatesAmbiguous => ambiguous
  }

  /** Of a list of reasons, the ones that hold, in its order. */
  function Holding(all: seq<Reason>, holds: Reason -> bool): seq<Reason> {
    if all == [] then [] else if holds(all[0]) then [all[0]] + Holding(all[1..], holds) else Holding(all[1..], holds)
  }

  const FAILURES := [SimilarityBelowThreshold, ConfidenceBelowThreshold, RankBelowThreshold, VersionIncompatible,
                     OutcomeNotPositive, TopCandidatesAmbiguous]

  lemma {:induction false} HoldingAppends(all: seq<Reason>, r: Reason, holds: Reason -> bool)
    ensures Holding(all + [r], holds) == Holding(all, holds) + When(holds(r), r)
  {
    if all == [] {
      assert [] + [r] == [r] && [r][1..] == [];
    } else {
      assert (all + [r])[1..] == all[1..] + [r];
      HoldingAppends(all[1..], r, holds);
    }
  }

  lemma HoldingThresholds(holds: Reason -> bool)
    ensures Holding(FAILURES[..4], holds)
            == When(holds(SimilarityBelowThreshold), SimilarityBelowThreshold)
               + When(holds(ConfidenceBelowThreshold), ConfidenceBelowThreshold)
               + When(holds(RankBelowThreshold), RankBelowThreshold)
               + When(holds(VersionIncompatible), VersionIncompatible)
  {
    var one, two := [SimilarityBelowThreshold], [SimilarityBelowThreshold] + [ConfidenceBelowThreshold];
    HoldingAppends([], SimilarityBelowThreshold, holds);
    assert [] + one == one;
    HoldingAppends(one, ConfidenceBelowThreshold, holds);
    HoldingAppends(two, RankBelowThreshold, holds);
    HoldingAppends(two + [RankBelowThreshold], VersionIncompatible, holds);
    assert FAILURES[..4] == two + [RankBelowThreshold] + [VersionIncompatible];
  }

  lemma HoldingFailures(holds: Reason -> bool)
    ensures Holding(FAILURES, holds)
            == Holding(FAILURES[..4], holds) + When(holds(OutcomeNotPositive), OutcomeNotPositive)
               + When(holds(TopCandidatesAmbiguous), TopCandidatesAmbiguous)
  {
    HoldingAppends(FAILURES[..4], OutcomeNotPositive, holds);
    HoldingAppends(FAILURES[..4] + [OutcomeNotPositive], TopCandidatesAmbiguous, holds);
    assert FAILURES == FAILURES[..4] + [OutcomeNotPositive] + [TopCandidatesAmbiguous];
  }

  lemma JudgedGive(p: Policy, x: Retrieved, judged: bool, ambiguous: bool, holds: Reason -> bool)
    requires forall r :: holds(r) == Against(p, x, judged, ambiguous, r)
    ensures Shortfalls(p, x) + When(judged && !IsPositive(x), OutcomeNotPositive) + When(ambiguous, TopCandidatesAmbiguous)
            == Holding(FAILURES, holds)
  {
    HoldingThresholds(holds);
    HoldingFailures(holds);
  }

  /** When nothing is recommended the reasons say why: no candidate, none positive, or, in order, what the
      first positive one fails. */
  lemma AbstentionExactly(p: Policy, memories: seq<Retrieved>)
    ensures Abstention(p, memories) == [] <==> Best(p, memories).Some?
    ensures memories == [] ==> Abstention(p, memories) == [NoGovernedMemory]
    ensures memories != [] && (forall k :: 0 <= k < |memories| ==> !IsPositive(memories[k])) ==>
              Abstention(p, memories) == [OutcomeNotPositive]
  {
    NoPositives(memories);
  }

  lemma AbstentionNamesShortfalls(p: Policy, memories: seq<Retrieved>, i: nat)
    requires i < |memories| && IsPositive(memories[i]) && forall k :: 0 <= k < i ==> !IsPositive(memories[k])
    ensures Abstention(p, memories)
            == Holding(FAILURES, r => Against(p, memories[i], false, Conflict(p, Positives(memories)), r))
  {
    FirstTwoPositives(memories, i);
    JudgedGive(p, memories[i], false, Conflict(p, Positives(memories)),
               r => Against(p, memories[i], false, Conflict(p, Positives(memories)), r));
    assert Shortfalls(p, memories[i]) + [] == Shortfalls(p, memories[i]);
  }

  /** Every candidate is explained: the reasons given are those that hold, in a fixed order, and a candidate that is not selected is rejected exactly when there is one. */
  lemma DecisionExactly(p: Policy, memories: seq<Retrieved>, best: Option<Retrieved>, i: nat)
    requires i < |memories|
    ensures var d, x := DecisionFor(p, memories, best, i), memories[i];
            && d.memory == x.memory.id && d.rank == x.rank
            && d.reasons
               == Holding(FAILURES, r => Against(p, x, true, i == 0 && |memories| >= 2 && !NoRival(p, memories[0], memories[1]), r))
            && (d.disposition == Selected <==> best == Some(x))
            && (d.disposition == Disposition.Rejected <==> best != Some(x) && d.reasons != [])
  {
    var x, ambiguous := memories[i], i == 0 && |memories| >= 2 && !NoRival(p, memories[0], memories[1]);
    assert ambiguous <==> i == 0 && Conflict(p, memories);
    JudgedGive(p, x, true, ambiguous, r => Against(p, x, true, ambiguous, r));
  }

  /** The selected candidate carries no reason against it, except exactly when it tops the ranking
      and the candidate right behind it, positive or not, is a close rival: abstention compares
      positive candidates only, the explanation compares all of them. */
  lemma SelectedWithoutReasonsExactly(p: Policy, memories: seq<Retrieved>, i: nat)
    requires i < |memories| && Best(p, memories) == Some(memories[i])
    ensures DecisionFor(p, memories, Best(p, memories), i).reasons
            == When(i == 0 && Conflict(p, memories), TopCandidatesAmbiguous)
    ensures i == 0 && Conflict(p, memories) ==> memories[1].memory.Outcome() != Positive
  {
    var k := RecommendationIsJustified(p, memories);
    assert memories[i].memory.outcomeScore > 0.0;
    if i == 0 && Conflict(p, memories) && memories[1].memory.Outcome() == Positive {
      TopTwoPositives(memories);
    }
  }

  lemma TopTwoPositives(memories: seq<Retrieved>)
    requires |memories| >= 2 && memories[0].memory.Outcome() == Positive && memories[1].memory.Outcome() == Positive
    ensures |Positives(memories)| >= 2 && Positives(memories)[..2] == memories[..2]
  {
    assert Positives(memories) == [memories[0]] + Positives(memories[1..]);
    assert Positives(memories[1..]) == [memories[1]] + Positives(memories[1..][1..]);
  }

  /** The exception is real: a close non-positive rival marks the selected candidate as ambiguous. */
  lemma SelectedYetAmbiguous(p: Policy, best: Retrieved, rival: Retrieved)
    requires best.memory.Outcome() == Positive && rival.memory.Outcome() == Negative && Shortfalls(p, best) == []
    requires Conflict(p, [best, rival])
    ensures Best(p, [best, rival]) == Some(best)
    ensures DecisionFor(p, [best, rival], Best(p, [best, rival]), 0)
            == Decision(best.memory.id, Selected, [TopCandidatesAmbiguous], best.rank)
  {
    var memories := [best, rival];
    assert memories[1..] == [rival] && [rival][1..] == [];
    assert Positives([rival]) == [] && Positives(memories) == [best];
  }
}
