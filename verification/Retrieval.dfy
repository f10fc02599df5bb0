/** Governed retrieval (store.py, service.py): the in-memory filter, sort and cut; the database's
    three lanes merged in application code; and the pre-review counterfactual. */
module Retrieval {
  import opened Common
  import opened Canonical
  import opened Governance
  import MemoryStore

  // ----- ranking -----

  datatype Query = Query(tenant: string, service: string, serviceVersion: string, space: string, asOf: int)

  /** The floating-point inputs of ranking: cosine similarity to the query, and age decay. */
  datatype Scoring = Scoring(similarity: Memory -> real, freshness: Memory -> real)

  datatype Retrieved = Retrieved(
    memory: Memory, similarity: real, compatibility: real, freshness: real, confidence: real, rank: real)

  function RankScore(similarity: real, outcome: real, compatibility: real, confidence: real): real {
    0.55 * similarity + 0.25 * outcome + 0.15 * compatibility + 0.05 * confidence
  }

  function Clamp(x: real): real {
    if x > 1.0 then 1.0 else if x < -1.0 then -1.0 else x
  }

  function RankMemory(env: Scoring, q: Query, m: Memory): (r: Retrieved)
    ensures r.memory == m
  {
    var decay := env.freshness(m);
    var confidence := m.confidence * decay;
    var outcome := if m.outcomeScore > 0.0 then m.outcomeScore * decay else m.outcomeScore;
    var compatibility := VersionCompatibility(m.serviceVersion, q.serviceVersion, m.policy);
    var similarity := env.similarity(m);
    Retrieved(m, Clamp(similarity), compatibility, decay, confidence,
              RankScore(similarity, outcome, compatibility, confidence))
  }

  /** The descending sort key: rank, similarity, creation time, id. */
  predicate Before(a: Retrieved, b: Retrieved) {
    if a.rank != b.rank then a.rank > b.rank
    else if a.similarity != b.similarity then a.similarity > b.similarity
    else if a.memory.createdAt != b.memory.createdAt then a.memory.createdAt > b.memory.createdAt
    else a.memory.id > b.memory.id
  }

  ghost predicate Descending(xs: seq<Retrieved>) {
    forall i, j :: 0 <= i < j < |xs| ==> Before(xs[i], xs[j])
  }

  ghost predicate DistinctIds(xs: seq<Retrieved>) {
    forall i, j :: 0 <= i < j < |xs| ==> xs[i].memory.id != xs[j].memory.id
  }

  // ----- sorted(..., reverse=True) -----

  function Insert(x: Retrieved, xs: seq<Retrieved>): seq<Retrieved> {
    if xs == [] || Before(x, xs[0]) then [x] + xs else [xs[0]] + Insert(x, xs[1..])
  }

  function Sorted(xs: seq<Retrieved>): seq<Retrieved> {
    if xs == [] then [] else Insert(xs[0], Sorted(xs[1..]))
  }

  lemma {:induction false} InsertPermutes(x: Retrieved, xs: seq<Retrieved>)
    ensures multiset(Insert(x, xs)) == multiset([x] + xs)
    ensures forall y :: y in Insert(x, xs) <==> y == x || y in xs
  {
    if xs != [] && !Before(x, xs[0]) {
      InsertPermutes(x, xs[1..]);
      assert xs == [xs[0]] + xs[1..];
    }
  }

  lemma BeforeOrders(a: Retrieved, b: Retrieved, c: Retrieved)
    ensures Before(a, b) && Before(b, c) ==> Before(a, c)
    ensures a.memory.id != b.memory.id ==> Before(a, b) || Before(b, a)
    ensures !(Before(a, b) && Before(b, a))
  {
  }

  lemma {:induction false} InsertDescends(x: Retrieved, xs: seq<Retrieved>)
    requires Descending(xs)
    requires forall y :: y in xs ==> y.memory.id != x.memory.id
    ensures Descending(Insert(x, xs))
  {
    if xs != [] && !Before(x, xs[0]) {
      var rest := Insert(x, xs[1..]);
      InsertDescends(x, xs[1..]);
      InsertPermutes(x, xs[1..]);
      BeforeOrders(x, xs[0], xs[0]);
      forall i | 0 <= i < |rest|
        ensures Before(xs[0], rest[i])
      {
        assert rest[i] == x || rest[i] in xs[1..];
      }
    } else if xs != [] {
      forall i | 0 <= i < |xs|
        ensures Before(x, xs[i])
      {
        BeforeOrders(x, xs[0], xs[i]);
      }
    }
  }

  lemma {:induction false} SortedKeeps(xs: seq<Retrieved>)
    ensures multiset(Sorted(xs)) == multiset(xs)
    ensures DistinctIds(xs) ==> Descending(Sorted(xs))
  {
    if xs != [] {
      SortedKeeps(xs[1..]);
      InsertPermutes(xs[0], Sorted(xs[1..]));
      assert xs == [xs[0]] + xs[1..];
      forall y | y in Sorted(xs[1..])
        ensures y in xs[1..]
      {
        assert y in multiset(Sorted(xs[1..]));
      }
      if DistinctIds(xs) {
        InsertDescends(xs[0], Sorted(xs[1..]));
      }
    }
  }

  lemma SortedMembers(xs: seq<Retrieved>)
    ensures |Sorted(xs)| == |xs|
    ensures forall x :: x in Sorted(xs) <==> x in xs
  {
    SortedKeeps(xs);
    assert |multiset(Sorted(xs))| == |multiset(xs)|;
    forall x
      ensures x in Sorted(xs) <==> x in xs
    {
      assert x in multiset(Sorted(xs)) <==> x in multiset(xs);
    }
  }

  /** A descending list is determined by its members. */
  lemma {:induction false} DescendingUnique(a: seq<Retrieved>, b: seq<Retrieved>)
    requires Descending(a) && Descending(b)
    requires forall x :: x in a <==> x in b
    ensures a == b
    decreases |a|
  {
    assert b != [] ==> b[0] in a;
    if a != [] {
      assert a[0] in b;
      assert a[0] == b[0];
      forall x
        ensures x in a[1..] <==> x in b[1..]
      {
        TailMembers(a, x);
        TailMembers(b, x);
      }
      DescendingUnique(a[1..], b[1..]);
    }
  }

  lemma TailMembers(a: seq<Retrieved>, x: Retrieved)
    requires a != [] && Descending(a)
    ensures x in a[1..] <==> x in a && x != a[0]
  {
    if x in a && x != a[0] {
      var i :| 0 <= i < |a| && a[i] == x;
      assert a[1..][i - 1] == x;
    }
  }

  // ----- InMemoryStore.find_memories -----

  predicate InScope(m: Memory, q: Query) {
    m.tenant == q.tenant && m.service == q.service && m.embeddingSpace == q.space
  }

  predicate Eligible(m: Memory, q: Query) {
    && InScope(m, q)
    && m.valid
    && m.state == Active
    && m.Outcome() != Inconclusive
    && (m.expiresAt.None? || m.expiresAt.value > q.asOf)
    && m.supersededAt.None?
    && m.revokedAt.None?
  }

  function RankEligible(env: Scoring, q: Query, memories: seq<Memory>): seq<Retrieved> {
    if memories == [] then []
    else if Eligible(memories[0], q) then [RankMemory(env, q, memories[0])] + RankEligible(env, q, memories[1..])
    else RankEligible(env, q, memories[1..])
  }

  /** xs[:limit], with Python's reading of a negative limit. */
  function Cut<T>(xs: seq<T>, limit: int): seq<T> {
    if limit >= |xs| then xs
    else if limit >= 0 then xs[..limit]
    else if |xs| + limit > 0 then xs[..|xs| + limit]
    else []
  }

  function InMemoryFind(env: Scoring, q: Query, memories: seq<Memory>, limit: int): seq<Retrieved> {
    Cut(Sorted(RankEligible(env, q, memories)), limit)
  }

  ghost predicate UniqueMemories(memories: seq<Memory>) {
    forall i, j :: 0 <= i < j < |memories| ==> memories[i].id != memories[j].id
  }

  lemma {:induction false} RankEligibleMembers(env: Scoring, q: Query, memories: seq<Memory>)
    ensures forall x :: x in RankEligible(env, q, memories)
                        <==> x.memory in memories && Eligible(x.memory, q) && x == RankMemory(env, q, x.memory)
    ensures UniqueMemories(memories) ==> DistinctIds(RankEligible(env, q, memories))
  {
    if memories != [] {
      RankEligibleMembers(env, q, memories[1..]);
      assert memories == [memories[0]] + memories[1..];
    }
  }

  // ----- PostgresStore.find_memories -----

  /** A correct answer to SELECT ... WHERE wanted ORDER BY distance LIMIT n: ties may fall anyhow. */
  ghost predicate Nearest(answer: seq<Memory>, table: set<Memory>, wanted: set<Memory>, distance: Memory -> real, n: nat) {
    && wanted <= table
    && (forall m :: m in answer ==> m in wanted)
    && (forall i, j :: 0 <= i < j < |answer| ==> answer[i] != answer[j] && distance(answer[i]) <= distance(answer[j]))
    && |answer| == (if |wanted| < n then |wanted| else n)
    && (forall m, a :: m in wanted && m !in answer && a in answer ==> distance(a) <= distance(m))
  }

  function Rows(memories: seq<Memory>): set<Memory> {
    set m | m in memories
  }

  function Where(table: set<Memory>, keep: Memory -> bool): (r: set<Memory>)
    ensures r <= table
  {
    set m | m in table && keep(m)
  }

  /** What the three queries answer; `nearest` is the third one's inner query. */
  datatype Lanes = Lanes(exact: seq<Memory>, policy: seq<Memory>, nearest: seq<Memory>, semantic: seq<Memory>) {
    function Merge(): seq<Memory> {
      exact + policy + semantic
    }
  }

  /** What the three queries may return for a table and the store's limits. */
  ghost predicate LaneAnswers(env: Scoring, q: Query, table: set<Memory>, limit: nat, multiplier: nat, lanes: Lanes) {
    var distance := (m: Memory) => 1.0 - env.similarity(m);
    var n := limit * multiplier;
    && Nearest(lanes.exact, table,
               Where(table, m => Eligible(m, q) && m.serviceVersion == q.serviceVersion && m.outcomeScore > 0.0),
               distance, n)
    && Nearest(lanes.policy, table, Where(table, m => Eligible(m, q) && m.policy != Exact && m.outcomeScore > 0.0),
               distance, n)
    && Nearest(lanes.nearest, table, Where(table, m => InScope(m, q)), distance, n * 4)
    && Nearest(lanes.semantic, Rows(lanes.nearest), Where(Rows(lanes.nearest), m => Eligible(m, q)), distance, n)
  }

  /** No lane cuts anything off: the scope fits the semantic pool, the eligible rows the candidate limit. */
  ghost predicate Uncut(q: Query, table: set<Memory>, limit: int, multiplier: nat) {
    && |Where(table, m => InScope(m, q))| <= limit * multiplier * 4
    && |Where(table, m => Eligible(m, q))| <= limit * multiplier
  }

  /** The merge of the lanes: first occurrence of each id, in lane order, then sort and cut. */
  function Merged(rows: seq<Memory>, seen: set<Uuid>): seq<Memory> {
    if rows == [] then []
    else if rows[0].id in seen then Merged(rows[1..], seen)
    else [rows[0]] + Merged(rows[1..], seen + {rows[0].id})
  }

  function RankAll(env: Scoring, q: Query, rows: seq<Memory>): (r: seq<Retrieved>)
    ensures |r| == |rows|
  {
    seq(|rows|, i requires 0 <= i < |rows| => RankMemory(env, q, rows[i]))
  }

  function LaneFind(env: Scoring, q: Query, rows: seq<Memory>, limit: int): seq<Retrieved> {
    if limit <= 0 then [] else Cut(Sorted(RankAll(env, q, Merged(rows, {}))), limit)
  }

  lemma RankAllAppend(env: Scoring, q: Query, rows: seq<Memory>, m: Memory)
    ensures RankAll(env, q, rows + [m]) == RankAll(env, q, rows) + [RankMemory(env, q, m)]
  {
  }

  lemma MergedStep(rows: seq<Memory>, i: nat, seen: set<Uuid>)
    requires i < |rows|
    ensures Merged(rows[i..], seen)
            == if rows[i].id in seen then Merged(rows[i + 1..], seen)
               else [rows[i]] + Merged(rows[i + 1..], seen + {rows[i].id})
  {
    assert rows[i..][1..] == rows[i + 1..];
  }

  /** The application half of the database retrieval: one pass over the lanes' rows. */
  method FindMemories(env: Scoring, q: Query, exact: seq<Memory>, policy: seq<Memory>, semantic: seq<Memory>, limit: int)
    returns (r: seq<Retrieved>)
    ensures r == LaneFind(env, q, exact + policy + semantic, limit)
  {
    if limit <= 0 {
      return [];
    }
    var rows := exact + policy + semantic;
    var ranked: seq<Retrieved> := [];
    var seen: set<Uuid> := {};
    ghost var kept: seq<Memory> := [];
    for i := 0 to |rows|
      invariant ranked == RankAll(env, q, kept)
      invariant Merged(rows, {}) == kept + Merged(rows[i..], seen)
    {
      MergedStep(rows, i, seen);
      if rows[i].id !in seen {
        RankAllAppend(env, q, kept, rows[i]);
        seen := seen + {rows[i].id};
        ranked := ranked + [RankMemory(env, q, rows[i])];
        kept := kept + [rows[i]];
      }
    }
    assert Merged(rows, {}) == kept;
    r := Cut(Sorted(ranked), limit);
  }

  lemma {:induction false} MergedMembers(rows: seq<Memory>, seen: set<Uuid>)
    ensures forall m :: m in Merged(rows, seen) ==> m in rows && m.id !in seen
    ensures UniqueMemories(Merged(rows, seen))
  {
    if rows != [] {
      MergedMembers(rows[1..], if rows[0].id in seen then seen else seen + {rows[0].id});
      assert rows == [rows[0]] + rows[1..];
    }
  }

  /** Every row's id survives the merge. */
  lemma {:induction false} MergedCovers(rows: seq<Memory>, seen: set<Uuid>, m: Memory) returns (k: nat)
    requires m in rows && m.id !in seen
    ensures k < |Merged(rows, seen)| && Merged(rows, seen)[k].id == m.id
  {
    if m.id == rows[0].id {
      k := 0;
    } else {
      assert rows == [rows[0]] + rows[1..];
      k := MergedCovers(rows[1..], if rows[0].id in seen then seen else seen + {rows[0].id}, m);
      if rows[0].id !in seen {
        k := k + 1;
      }
    }
  }

  lemma RankAllMembers(env: Scoring, q: Query, rows: seq<Memory>)
    ensures forall x :: x in RankAll(env, q, rows) <==> x.memory in rows && x == RankMemory(env, q, x.memory)
    ensures UniqueMemories(rows) ==> DistinctIds(RankAll(env, q, rows))
  {
    var ranked := RankAll(env, q, rows);
    forall m | m in rows
      ensures RankMemory(env, q, m) in ranked
    {
      var i :| 0 <= i < |rows| && rows[i] == m;
      assert ranked[i] == RankMemory(env, q, m);
    }
  }

  lemma CutMembers<T>(xs: seq<T>, limit: int)
    ensures Cut(xs, limit) <= xs
    ensures limit >= 0 ==> |Cut(xs, limit)| <= limit
  {
  }

  /** Whatever eligible rows the lanes answer with, in whatever order and however often, the merged
      retrieval is a duplicate-free, eligible list in strictly descending order, no longer than the
      limit, and every entry is ranked as the in-memory store would rank it. */
  lemma LaneFindIsSound(env: Scoring, q: Query, table: set<Memory>, limit: int,
                        exact: seq<Memory>, policy: seq<Memory>, semantic: seq<Memory>)
    requires limit > 0 ==> forall m :: m in exact || m in policy || m in semantic ==> m in table && Eligible(m, q)
    ensures var r := LaneFind(env, q, exact + policy + semantic, limit);
            && DistinctIds(r) && Descending(r)
            && (limit >= 0 ==> |r| <= limit)
            && forall x :: x in r ==> x.memory in table && Eligible(x.memory, q) && x == RankMemory(env, q, x.memory)
  {
    if limit > 0 {
      var rows := exact + policy + semantic;
      var merged := Merged(rows, {});
      var ranked := RankAll(env, q, merged);
      MergedMembers(rows, {});
      RankAllMembers(env, q, merged);
      SortedKeeps(ranked);
      SortedMembers(ranked);
      CutMembers(Sorted(ranked), limit);
      DescendingHasDistinctIds(Sorted(ranked), ranked);
    }
  }

  lemma LaneRowsEligible(env: Scoring, q: Query, table: set<Memory>, limit: nat, multiplier: nat, lanes: Lanes,
                         m: Memory)
    requires LaneAnswers(env, q, table, limit, multiplier, lanes)
    requires m in lanes.Merge()
    ensures m in table && Eligible(m, q)
  {
  }

  lemma DescendingHasDistinctIds(xs: seq<Retrieved>, ys: seq<Retrieved>)
    requires Descending(xs) && DistinctIds(ys)
    requires forall x :: x in xs <==> x in ys
    ensures DistinctIds(xs)
  {
    forall i, j | 0 <= i < j < |xs|
      ensures xs[i].memory.id != xs[j].memory.id
    {
      BeforeOrders(xs[i], xs[j], xs[j]);
      assert xs[i] in ys && xs[j] in ys;
    }
  }

  lemma SubsetOfSameSize<T>(a: set<T>, b: set<T>)
    requires a <= b && |a| == |b|
    ensures a == b
  {
    assert |b - a| == |b| - |a|;
  }

  lemma {:induction false} DistinctSize(xs: seq<Memory>)
    requires forall i, j :: 0 <= i < j < |xs| ==> xs[i] != xs[j]
    ensures |Rows(xs)| == |xs|
  {
    if xs != [] {
      DistinctSize(xs[1..]);
      assert Rows(xs) == {xs[0]} + Rows(xs[1..]);
    }
  }

  /** An answer that was not cut off holds every wanted row. */
  lemma UncutAnswerIsComplete(answer: seq<Memory>, table: set<Memory>, wanted: set<Memory>,
                              distance: Memory -> real, n: nat)
    requires Nearest(answer, table, wanted, distance, n) && |wanted| <= n
    ensures Rows(answer) == wanted
  {
    DistinctSize(answer);
    SubsetOfSameSize(Rows(answer), wanted);
  }

  /** When the scope fits the semantic pool and the eligible rows fit the candidate limit, the
      three lanes retrieve exactly what the in-memory filter, sort and cut would. */
  lemma LanesAgreeWithFilterSortCut(env: Scoring, q: Query, memories: seq<Memory>, limit: int, multiplier: nat, lanes: Lanes)
    requires UniqueMemories(memories) && limit >= 0
    requires limit > 0 ==> LaneAnswers(env, q, Rows(memories), limit, multiplier, lanes)
    requires Uncut(q, Rows(memories), limit, multiplier)
    ensures LaneFind(env, q, lanes.Merge(), limit) == InMemoryFind(env, q, memories, limit)
  {
    if limit > 0 {
      var rows := lanes.Merge();
      var merged := Merged(rows, {});
      var a, b := RankAll(env, q, merged), RankEligible(env, q, memories);
      MergedMembers(rows, {});
      RankAllMembers(env, q, merged);
      RankEligibleMembers(env, q, memories);
      forall m
        ensures m in merged <==> m in memories && Eligible(m, q)
      {
        MergedIsEligible(env, q, memories, limit, multiplier, lanes, m);
      }
      SortedKeeps(a);
      SortedKeeps(b);
      SortedMembers(a);
      SortedMembers(b);
      DescendingUnique(Sorted(a), Sorted(b));
    }
  }

  lemma MergedIsEligible(env: Scoring, q: Query, memories: seq<Memory>, limit: nat, multiplier: nat, lanes: Lanes,
                         m: Memory)
    requires UniqueMemories(memories) && limit > 0
    requires LaneAnswers(env, q, Rows(memories), limit, multiplier, lanes)
    requires Uncut(q, Rows(memories), limit, multiplier)
    ensures m in Merged(lanes.Merge(), {}) <==> m in memories && Eligible(m, q)
  {
    var rows := lanes.Merge();
    var merged := Merged(rows, {});
    MergedMembers(rows, {});
    if m in merged {
      LaneRowsEligible(env, q, Rows(memories), limit, multiplier, lanes, m);
    }
    if m in memories && Eligible(m, q) {
      SemanticLaneComplete(env, q, Rows(memories), limit, multiplier, lanes);
      assert m in Rows(lanes.semantic) && m in rows;
      var k := MergedCovers(rows, {}, m);
      LaneRowsEligible(env, q, Rows(memories), limit, multiplier, lanes, merged[k]);
      assert merged[k] in memories;
    }
  }

  lemma SemanticLaneComplete(env: Scoring, q: Query, table: set<Memory>, limit: nat, multiplier: nat, lanes: Lanes)
    requires LaneAnswers(env, q, table, limit, multiplier, lanes)
    requires Uncut(q, table, limit, multiplier)
    ensures Rows(lanes.semantic) == Where(table, m => Eligible(m, q))
  {
    var distance := (m: Memory) => 1.0 - env.similarity(m);
    var n := limit * multiplier;
    UncutAnswerIsComplete(lanes.nearest, table, Where(table, m => InScope(m, q)), distance, n * 4);
    assert Where(Rows(lanes.nearest), m => Eligible(m, q)) == Where(table, m => Eligible(m, q));
    UncutAnswerIsComplete(lanes.semantic, Rows(lanes.nearest), Where(Rows(lanes.nearest), m => Eligible(m, q)), distance, n);
  }

  /** A negative limit, which the settings exclude, means nothing to the database and a shorter list
      to the in-memory slice: the two agree exactly when the slice drops everything. */
  lemma NegativeLimitExactly(env: Scoring, q: Query, memories: seq<Memory>, rows: seq<Memory>, limit: int)
    requires limit < 0
    ensures LaneFind(env, q, rows, limit) == []
    ensures LaneFind(env, q, rows, limit) == InMemoryFind(env, q, memories, limit)
            <==> |RankEligible(env, q, memories)| + limit <= 0
  {
    SortedMembers(RankEligible(env, q, memories));
  }

  // ----- what the order means -----

  /** What a memory's outcome counts for: only success fades with age. */
  function FadedOutcome(env: Scoring, m: Memory): real {
    if m.Outcome() == Positive then m.outcomeScore * env.freshness(m) else m.outcomeScore
  }

  /** The lead of a over b: 11 parts similarity, 5 parts outcome, 3 parts compatibility, 1 part faded
      confidence. */
  function Lead(env: Scoring, q: Query, a: Memory, b: Memory): real {
    11.0 * (env.similarity(a) - env.similarity(b))
    + 5.0 * (FadedOutcome(env, a) - FadedOutcome(env, b))
    + 3.0 * (VersionCompatibility(a.serviceVersion, q.serviceVersion, a.policy)
             - VersionCompatibility(b.serviceVersion, q.serviceVersion, b.policy))
    + (a.confidence * env.freshness(a) - b.confidence * env.freshness(b))
  }

  /** A similarity as it is reported. */
  function Reported(x: real): (r: real)
    ensures -1.0 <= r <= 1.0 && (-1.0 <= x <= 1.0 ==> r == x)
  {
    if x > 1.0 then 1.0 else if x < -1.0 then -1.0 else x
  }

  /** Who stands before whom: the one in the lead, and of equals the more similar, then the newer, then
      the one with the larger id. */
  predicate Ahead(env: Scoring, q: Query, a: Memory, b: Memory) {
    var lead, s, t := Lead(env, q, a, b), Reported(env.similarity(a)), Reported(env.similarity(b));
    || lead > 0.0
    || (lead == 0.0 && s > t)
    || (lead == 0.0 && s == t && a.createdAt > b.createdAt)
    || (lead == 0.0 && s == t && a.createdAt == b.createdAt && a.id > b.id)
  }

  lemma WeightedDifference(s: real, o: real, c: real, f: real, s': real, o': real, c': real, f': real)
    ensures 20.0 * (RankScore(s, o, c, f) - RankScore(s', o', c', f'))
            == 11.0 * (s - s') + 5.0 * (o - o') + 3.0 * (c - c') + (f - f')
  {
  }

  lemma LeadIsRank(env: Scoring, q: Query, a: Memory, b: Memory)
    ensures 20.0 * (RankMemory(env, q, a).rank - RankMemory(env, q, b).rank) == Lead(env, q, a, b)
  {
    WeightedDifference(env.similarity(a), FadedOutcome(env, a), VersionCompatibility(a.serviceVersion, q.serviceVersion, a.policy),
                       a.confidence * env.freshness(a),
                       env.similarity(b), FadedOutcome(env, b), VersionCompatibility(b.serviceVersion, q.serviceVersion, b.policy),
                       b.confidence * env.freshness(b));
  }

  lemma RankedAhead(env: Scoring, q: Query, a: Memory, b: Memory)
    ensures Before(RankMemory(env, q, a), RankMemory(env, q, b)) <==> Ahead(env, q, a, b)
  {
    LeadIsRank(env, q, a, b);
  }

  /** a stands before b, or b is not there. */
  predicate StandsBefore(found: seq<Retrieved>, a: Memory, b: Memory) {
    forall j :: 0 <= j < |found| && found[j].memory == b ==> exists i :: 0 <= i < j && found[i].memory == a
  }

  lemma PlacesFollow(all: seq<Retrieved>, i: nat, j: nat)
    requires Descending(all) && i < |all| && j < |all| && Before(all[i], all[j])
    ensures i < j
  {
    BeforeOrders(all[i], all[j], all[i]);
  }

  lemma FirstOfDescending(all: seq<Retrieved>, n: int, x: Retrieved, y: Retrieved)
    requires Descending(all) && DistinctIds(all) && x in all && Before(x, y)
    requires forall z :: z in all && z.memory == y.memory ==> z == y
    ensures StandsBefore(Cut(all, n), x.memory, y.memory)
  {
    var i :| 0 <= i < |all| && all[i] == x;
    CutMembers(all, n);
    forall j | 0 <= j < |Cut(all, n)| && Cut(all, n)[j].memory == y.memory
      ensures exists k :: 0 <= k < j && Cut(all, n)[k].memory == x.memory
    {
      assert all[j] == y;
      PlacesFollow(all, i, j);
      assert Cut(all, n)[i] == x;
    }
  }

  /** The in-memory store returns a memory only behind every eligible one that is ahead of it, whatever
      the limit. */
  lemma FindsInOrder(env: Scoring, q: Query, memories: seq<Memory>, limit: int, a: Memory, b: Memory)
    requires UniqueMemories(memories) && a in memories && Eligible(a, q) && Ahead(env, q, a, b)
    ensures StandsBefore(InMemoryFind(env, q, memories, limit), a, b)
  {
    var ranked := RankEligible(env, q, memories);
    RankEligibleMembers(env, q, memories);
    SortedKeeps(ranked);
    SortedMembers(ranked);
    DescendingHasDistinctIds(Sorted(ranked), ranked);
    RankedAhead(env, q, a, b);
    assert RankMemory(env, q, a) in ranked;
    FirstOfDescending(Sorted(ranked), limit, RankMemory(env, q, a), RankMemory(env, q, b));
  }

  /** So does the database, among the rows its lanes answered with. */
  lemma LanesFindInOrder(env: Scoring, q: Query, rows: seq<Memory>, limit: int, a: Memory, b: Memory)
    requires forall m, m' :: m in rows && m' in rows && m.id == m'.id ==> m == m'
    requires a in rows && Ahead(env, q, a, b)
    ensures StandsBefore(LaneFind(env, q, rows, limit), a, b)
  {
    if limit > 0 {
      var merged := Merged(rows, {});
      var ranked := RankAll(env, q, merged);
      MergedMembers(rows, {});
      var k := MergedCovers(rows, {}, a);
      assert merged[k] in rows;
      RankAllMembers(env, q, merged);
      SortedKeeps(ranked);
      SortedMembers(ranked);
      DescendingHasDistinctIds(Sorted(ranked), ranked);
      RankedAhead(env, q, a, b);
      assert RankMemory(env, q, a) in ranked;
      FirstOfDescending(Sorted(ranked), limit, RankMemory(env, q, a), RankMemory(env, q, b));
    }
  }

  /** a's leads over b in similarity, outcome, compatibility and faded confidence. */
  predicate Leads(env: Scoring, q: Query, a: Memory, b: Memory, s: real, o: real, c: real, f: real) {
    && s == env.similarity(a) - env.similarity(b)
    && o == FadedOutcome(env, a) - FadedOutcome(env, b)
    && c == VersionCompatibility(a.serviceVersion, q.serviceVersion, a.policy)
            - VersionCompatibility(b.serviceVersion, q.serviceVersion, b.policy)
    && f == a.confidence * env.freshness(a) - b.confidence * env.freshness(b)
  }

  lemma LeadIsWeighted(env: Scoring, q: Query, a: Memory, b: Memory, s: real, o: real, c: real, f: real)
    requires Leads(env, q, a, b, s, o, c, f)
    ensures Lead(env, q, a, b) == 11.0 * s + 5.0 * o + 3.0 * c + f
    ensures Lead(env, q, b, a) == -Lead(env, q, a, b)
  {
    LeadIsRank(env, q, a, b);
    LeadIsRank(env, q, b, a);
  }

  /** Two eligible memories that are in the one table and among the rows of the other. */
  ghost predicate BothHold(q: Query, memories: seq<Memory>, rows: seq<Memory>, a: Memory, b: Memory) {
    && UniqueMemories(memories) && (forall m, m' :: m in rows && m' in rows && m.id == m'.id ==> m == m')
    && a in memories && a in rows && b in memories && b in rows && Eligible(a, q) && Eligible(b, q)
  }

  predicate FirstInBoth(env: Scoring, q: Query, memories: seq<Memory>, rows: seq<Memory>, limit: int, a: Memory, b: Memory) {
    StandsBefore(InMemoryFind(env, q, memories, limit), a, b) && StandsBefore(LaneFind(env, q, rows, limit), a, b)
  }

  lemma LeaderStandsFirst(env: Scoring, q: Query, memories: seq<Memory>, rows: seq<Memory>, limit: int, a: Memory, b: Memory)
    requires BothHold(q, memories, rows, a, b) && Lead(env, q, a, b) > 0.0
    ensures FirstInBoth(env, q, memories, rows, limit, a, b)
  {
    FindsInOrder(env, q, memories, limit, a, b);
    LanesFindInOrder(env, q, rows, limit, a, b);
  }

  /** In both stores, at least as good in all four respects and better in one stands first.  A lead in
      similarity outweighs a deficit in outcome at 11 to 5, in compatibility at 11 to 3 and in faded
      confidence at 11 to 1, and a smaller one does not. */
  lemma WeightsDecide(env: Scoring, q: Query, memories: seq<Memory>, rows: seq<Memory>, limit: int, a: Memory, b: Memory,
                      s: real, o: real, c: real, f: real)
    requires BothHold(q, memories, rows, a, b) && Leads(env, q, a, b, s, o, c, f)
    ensures s >= 0.0 && o >= 0.0 && c >= 0.0 && f >= 0.0 && (s > 0.0 || o > 0.0 || c > 0.0 || f > 0.0) ==>
              FirstInBoth(env, q, memories, rows, limit, a, b)
    ensures c == 0.0 && f == 0.0 && 11.0 * s > 5.0 * -o ==> FirstInBoth(env, q, memories, rows, limit, a, b)
    ensures c == 0.0 && f == 0.0 && 11.0 * s < 5.0 * -o ==> FirstInBoth(env, q, memories, rows, limit, b, a)
    ensures o == 0.0 && f == 0.0 && 11.0 * s > 3.0 * -c ==> FirstInBoth(env, q, memories, rows, limit, a, b)
    ensures o == 0.0 && f == 0.0 && 11.0 * s < 3.0 * -c ==> FirstInBoth(env, q, memories, rows, limit, b, a)
    ensures o == 0.0 && c == 0.0 && 11.0 * s > -f ==> FirstInBoth(env, q, memories, rows, limit, a, b)
    ensures o == 0.0 && c == 0.0 && 11.0 * s < -f ==> FirstInBoth(env, q, memories, rows, limit, b, a)
  {
    LeadIsWeighted(env, q, a, b, s, o, c, f);
    if Lead(env, q, a, b) > 0.0 {
      LeaderStandsFirst(env, q, memories, rows, limit, a, b);
    } else if Lead(env, q, a, b) < 0.0 {
      LeaderStandsFirst(env, q, memories, rows, limit, b, a);
    }
  }

  /** If the limit leaves room for one, it is the one that is ahead of all others. */
  lemma OneSlotGoesToTheFirst(env: Scoring, q: Query, memories: seq<Memory>, a: Memory)
    requires UniqueMemories(memories) && a in memories && Eligible(a, q)
    requires forall b :: b in memories && Eligible(b, q) && b != a ==> Ahead(env, q, a, b)
    ensures InMemoryFind(env, q, memories, 1) == [RankMemory(env, q, a)]
  {
    var ranked := RankEligible(env, q, memories);
    RankEligibleMembers(env, q, memories);
    SortedMembers(ranked);
    assert RankMemory(env, q, a) in ranked;
    var found := InMemoryFind(env, q, memories, 1);
    CutMembers(Sorted(ranked), 1);
    assert |found| == 1 && found[0] in ranked;
    if found[0].memory != a {
      FindsInOrder(env, q, memories, 1, a, found[0].memory);
    }
  }

  // ----- what may be found -----

  /** A memory in force for the query: live, conclusive authority of its tenant, service and embedding. */
  predicate InForce(m: Memory, q: Query) {
    && m.tenant == q.tenant && m.service == q.service && m.embeddingSpace == q.space
    && m.state == Active && m.valid && m.outcomeScore != 0.0
    && m.supersededAt == None && m.revokedAt == None && (m.expiresAt.Some? ==> q.asOf < m.expiresAt.value)
  }

  /** With room for all, the in-memory store finds exactly the memories in force, each once. */
  lemma FindsExactlyThoseInForce(env: Scoring, q: Query, memories: seq<Memory>, limit: int, m: Memory)
    requires UniqueMemories(memories) && limit >= |memories|
    ensures (exists x :: x in InMemoryFind(env, q, memories, limit) && x.memory == m) <==> m in memories && InForce(m, q)
    ensures DistinctIds(InMemoryFind(env, q, memories, limit))
  {
    var ranked := RankEligible(env, q, memories);
    RankEligibleMembers(env, q, memories);
    RankEligibleIsShort(env, q, memories);
    SortedKeeps(ranked);
    SortedMembers(ranked);
    DescendingHasDistinctIds(Sorted(ranked), ranked);
    if m in memories && InForce(m, q) {
      assert RankMemory(env, q, m) in ranked;
    }
  }

  lemma {:induction false} RankEligibleIsShort(env: Scoring, q: Query, memories: seq<Memory>)
    ensures |RankEligible(env, q, memories)| <= |memories|
  {
    if memories != [] {
      RankEligibleIsShort(env, q, memories[1..]);
    }
  }

  /** The rows of a kind that are as similar as m. */
  function Crowd(env: Scoring, table: set<Memory>, kind: Memory -> bool, m: Memory): set<Memory> {
    set w | w in table && kind(w) && env.similarity(w) >= env.similarity(m)
  }

  /** A wanted row in a crowd of at most n is in the answer. */
  lemma NearRowIsAnswered(env: Scoring, answer: seq<Memory>, table: set<Memory>, kind: Memory -> bool, n: nat, m: Memory)
    requires Nearest(answer, table, Where(table, kind), (w: Memory) => 1.0 - env.similarity(w), n)
    requires m in table && kind(m) && |Crowd(env, table, kind, m)| <= n
    ensures m in answer
  {
    var wanted := Where(table, kind);
    DistinctSize(answer);
    if |wanted| <= n {
      SubsetOfSameSize(Rows(answer), wanted);
      assert m in Rows(answer);
    } else if m !in answer {
      forall a | a in Rows(answer)
        ensures a in Crowd(env, table, kind, m)
      {
        assert 1.0 - env.similarity(a) <= 1.0 - env.similarity(m);
      }
      SubsetIsSmaller(Rows(answer) + {m}, Crowd(env, table, kind, m));
    }
  }

  /** A larger crowd of a table contains that of a part of it. */
  lemma CrowdGrows(env: Scoring, part: set<Memory>, table: set<Memory>, kind: Memory -> bool, wider: Memory -> bool, m: Memory)
    requires part <= table && forall w :: w in part && kind(w) ==> wider(w)
    ensures |Crowd(env, part, kind, m)| <= |Crowd(env, table, wider, m)|
  {
    SubsetIsSmaller(Crowd(env, part, kind, m), Crowd(env, table, wider, m));
  }

  predicate ExactSuccess(m: Memory, q: Query) {
    InForce(m, q) && m.serviceVersion == q.serviceVersion && m.outcomeScore > 0.0
  }

  predicate PolicySuccess(m: Memory, q: Query) {
    InForce(m, q) && (m.policy == SemverPatch || m.policy == SemverMinor) && m.outcomeScore > 0.0
  }

  /** What the lanes keep from being crowded out: a success for the exact version or under a wider
      compatibility policy of which at most n are as similar, and any memory in force if at most n in force
      and 4 n of the scope are. */
  predicate Protected(env: Scoring, q: Query, table: set<Memory>, n: nat, m: Memory) {
    || (ExactSuccess(m, q) && |Crowd(env, table, w => ExactSuccess(w, q), m)| <= n)
    || (PolicySuccess(m, q) && |Crowd(env, table, w => PolicySuccess(w, q), m)| <= n)
    || (InForce(m, q) && |Crowd(env, table, w => InForce(w, q), m)| <= n && |Crowd(env, table, w => InScope(w, q), m)| <= 4 * n)
  }

  lemma ExactLaneKeeps(env: Scoring, q: Query, table: set<Memory>, limit: nat, multiplier: nat, lanes: Lanes, m: Memory)
    requires LaneAnswers(env, q, table, limit, multiplier, lanes)
    requires m in table && ExactSuccess(m, q) && |Crowd(env, table, w => ExactSuccess(w, q), m)| <= limit * multiplier
    ensures m in lanes.exact
  {
    var kind := (w: Memory) => Eligible(w, q) && w.serviceVersion == q.serviceVersion && w.outcomeScore > 0.0;
    CrowdGrows(env, table, table, kind, w => ExactSuccess(w, q), m);
    NearRowIsAnswered(env, lanes.exact, table, kind, limit * multiplier, m);
  }

  lemma PolicyLaneKeeps(env: Scoring, q: Query, table: set<Memory>, limit: nat, multiplier: nat, lanes: Lanes, m: Memory)
    requires LaneAnswers(env, q, table, limit, multiplier, lanes)
    requires m in table && PolicySuccess(m, q) && |Crowd(env, table, w => PolicySuccess(w, q), m)| <= limit * multiplier
    ensures m in lanes.policy
  {
    var kind := (w: Memory) => Eligible(w, q) && w.policy != Exact && w.outcomeScore > 0.0;
    CrowdGrows(env, table, table, kind, w => PolicySuccess(w, q), m);
    NearRowIsAnswered(env, lanes.policy, table, kind, limit * multiplier, m);
  }

  lemma SemanticLaneKeeps(env: Scoring, q: Query, table: set<Memory>, limit: nat, multiplier: nat, lanes: Lanes, m: Memory)
    requires LaneAnswers(env, q, table, limit, multiplier, lanes)
    requires m in table && InForce(m, q) && |Crowd(env, table, w => InForce(w, q), m)| <= limit * multiplier
    requires |Crowd(env, table, w => InScope(w, q), m)| <= 4 * (limit * multiplier)
    ensures m in lanes.semantic
  {
    NearRowIsAnswered(env, lanes.nearest, table, w => InScope(w, q), limit * multiplier * 4, m);
    assert Rows(lanes.nearest) <= table && m in Rows(lanes.nearest);
    CrowdGrows(env, Rows(lanes.nearest), table, w => Eligible(w, q), w => InForce(w, q), m);
    NearRowIsAnswered(env, lanes.semantic, Rows(lanes.nearest), w => Eligible(w, q), limit * multiplier, m);
  }

  /** Whatever else the table holds, the merged lanes keep every protected memory. */
  lemma LanesKeepProtected(env: Scoring, q: Query, table: set<Memory>, limit: nat, multiplier: nat, lanes: Lanes, m: Memory)
    requires LaneAnswers(env, q, table, limit, multiplier, lanes)
    requires m in table && Protected(env, q, table, limit * multiplier, m)
    ensures m in lanes.Merge()
  {
    if ExactSuccess(m, q) && |Crowd(env, table, w => ExactSuccess(w, q), m)| <= limit * multiplier {
      ExactLaneKeeps(env, q, table, limit, multiplier, lanes, m);
    } else if PolicySuccess(m, q) && |Crowd(env, table, w => PolicySuccess(w, q), m)| <= limit * multiplier {
      PolicyLaneKeeps(env, q, table, limit, multiplier, lanes, m);
    } else {
      SemanticLaneKeeps(env, q, table, limit, multiplier, lanes, m);
    }
  }

  // ----- governed recurrence (service.recurrence_view) -----

  predicate Usable(x: Retrieved) {
    x.memory.Outcome() == Positive && x.compatibility == 1.0
  }

  /** The first usable candidate other than the excluded memory. */
  function Choice(candidates: seq<Retrieved>, excluded: Option<Uuid>): (r: Option<Retrieved>)
    ensures r.Some? ==> r.value in candidates && Usable(r.value) && Some(r.value.memory.id) != excluded
  {
    if candidates == [] then None
    else if Usable(candidates[0]) && Some(candidates[0].memory.id) != excluded then Some(candidates[0])
    else Choice(candidates[1..], excluded)
  }

  datatype Recurrence = Recurrence(governed: Option<Retrieved>, preReview: Option<Retrieved>, changedAuthority: bool)

  /** The view over whatever the bound store retrieves. */
  function RecurrenceView(candidates: seq<Retrieved>, reviewed: Option<Uuid>): Recurrence {
    var governed := Choice(candidates, None);
    var preReview := Choice(candidates, reviewed);
    Recurrence(governed, preReview,
               reviewed.Some? && governed.Some? && governed.value.memory.id == reviewed.value
               && (preReview.None? || preReview.value.memory.id != governed.value.memory.id))
  }

  /** The store as it would be had the reviewed memory never been written. */
  function WithoutMemory(memories: seq<Memory>, id: Uuid): seq<Memory> {
    if memories == [] then []
    else if memories[0].id == id then WithoutMemory(memories[1..], id)
    else [memories[0]] + WithoutMemory(memories[1..], id)
  }

  function Without(xs: seq<Retrieved>, id: Uuid): seq<Retrieved> {
    if xs == [] then []
    else if xs[0].memory.id == id then Without(xs[1..], id)
    else [xs[0]] + Without(xs[1..], id)
  }

  lemma {:induction false} RankEligibleWithout(env: Scoring, q: Query, memories: seq<Memory>, id: Uuid)
    ensures RankEligible(env, q, WithoutMemory(memories, id)) == Without(RankEligible(env, q, memories), id)
  {
    if memories != [] {
      RankEligibleWithout(env, q, memories[1..], id);
      var m, rest := memories[0], WithoutMemory(memories[1..], id);
      if m.id != id {
        assert ([m] + rest)[1..] == rest;
      }
      if Eligible(m, q) {
        var x, tail := RankMemory(env, q, m), RankEligible(env, q, memories[1..]);
        assert ([x] + tail)[1..] == tail;
      }
    }
  }

  lemma {:induction false} WithoutMembers(xs: seq<Retrieved>, id: Uuid)
    ensures forall x :: x in Without(xs, id) <==> x in xs && x.memory.id != id
  {
    if xs != [] {
      WithoutMembers(xs[1..], id);
      assert xs == [xs[0]] + xs[1..];
    }
  }

  lemma {:induction false} WithoutDescends(xs: seq<Retrieved>, id: Uuid)
    requires Descending(xs)
    ensures Descending(Without(xs, id))
  {
    if xs != [] {
      WithoutDescends(xs[1..], id);
      WithoutMembers(xs[1..], id);
    }
  }

  lemma {:induction false} WithoutDistinct(xs: seq<Retrieved>, id: Uuid)
    requires DistinctIds(xs)
    ensures DistinctIds(Without(xs, id))
  {
    if xs != [] {
      WithoutDistinct(xs[1..], id);
      WithoutMembers(xs[1..], id);
    }
  }

  /** Sorting commutes with removing a memory. */
  lemma SortedWithout(xs: seq<Retrieved>, id: Uuid)
    requires DistinctIds(xs)
    ensures Sorted(Without(xs, id)) == Without(Sorted(xs), id)
  {
    WithoutMembers(xs, id);
    WithoutDistinct(xs, id);
    SortedKeeps(xs);
    SortedMembers(xs);
    SortedKeeps(Without(xs, id));
    SortedMembers(Without(xs, id));
    WithoutMembers(Sorted(xs), id);
    WithoutDescends(Sorted(xs), id);
    DescendingUnique(Sorted(Without(xs, id)), Without(Sorted(xs), id));
  }

  predicate HasId(xs: seq<Retrieved>, id: Uuid) {
    exists k :: 0 <= k < |xs| && xs[k].memory.id == id
  }

  lemma CutCons(x: Retrieved, rest: seq<Retrieved>, n: nat)
    requires n > 0
    ensures Cut([x] + rest, n) == [x] + Cut(rest, n - 1)
  {
  }

  lemma CutOneMore(rest: seq<Retrieved>, n: nat)
    requires n > 0
    ensures Cut(rest, n) == Cut(rest, n - 1) + (if n <= |rest| then [rest[n - 1]] else [])
  {
  }

  /** The head is the removed one. */
  lemma CutWithoutHead(x: Retrieved, rest: seq<Retrieved>, id: Uuid, n: nat)
    requires n > 0 && x.memory.id == id && forall k :: 0 <= k < |rest| ==> rest[k].memory.id != id
    ensures Cut(Without([x] + rest, id), n)
            == Without(Cut([x] + rest, n), id) + (if n <= |rest| then [rest[n - 1]] else [])
    ensures HasId(Cut([x] + rest, n), id)
  {
    CutCons(x, rest, n);
    CutOneMore(rest, n);
    NothingToRemove(rest, id);
    NothingToRemove(Cut(rest, n - 1), id);
    assert ([x] + rest)[1..] == rest && ([x] + Cut(rest, n - 1))[1..] == Cut(rest, n - 1);
    assert ([x] + Cut(rest, n - 1))[0].memory.id == id;
  }

  /** The head stays, and so does what holds of the rest. */
  lemma CutWithoutTail(x: Retrieved, rest: seq<Retrieved>, id: Uuid, n: nat)
    requires n > 0 && x.memory.id != id
    ensures Cut(Without([x] + rest, id), n) == [x] + Cut(Without(rest, id), n - 1)
    ensures Without(Cut([x] + rest, n), id) == [x] + Without(Cut(rest, n - 1), id)
    ensures HasId(Cut([x] + rest, n), id) <==> HasId(Cut(rest, n - 1), id)
  {
    CutCons(x, rest, n);
    assert ([x] + rest)[1..] == rest && ([x] + Cut(rest, n - 1))[1..] == Cut(rest, n - 1);
    CutCons(x, Without(rest, id), n);
    HasIdTail([x] + Cut(rest, n - 1), id);
  }

  /** Cutting after removal sees the removed list's head plus the one candidate that moved up. */
  lemma {:induction false} CutWithout(xs: seq<Retrieved>, id: Uuid, n: nat)
    requires DistinctIds(xs)
    ensures Cut(Without(xs, id), n)
            == Without(Cut(xs, n), id) + (if HasId(Cut(xs, n), id) && n < |xs| then [xs[n]] else [])
  {
    if xs != [] && n > 0 {
      var x, rest := xs[0], xs[1..];
      assert xs == [x] + rest;
      if x.memory.id == id {
        CutWithoutHead(x, rest, id, n);
      } else {
        CutWithout(rest, id, n - 1);
        CutWithoutTail(x, rest, id, n);
      }
    } else if n == 0 {
      assert Cut(xs, 0) == [];
    }
  }

  lemma HasIdTail(xs: seq<Retrieved>, id: Uuid)
    requires xs != [] && xs[0].memory.id != id
    ensures HasId(xs, id) <==> HasId(xs[1..], id)
  {
    if HasId(xs, id) {
      var k :| 0 <= k < |xs| && xs[k].memory.id == id;
      assert xs[1..][k - 1].memory.id == id;
    }
  }

  lemma {:induction false} NothingToRemove(xs: seq<Retrieved>, id: Uuid)
    requires forall k :: 0 <= k < |xs| ==> xs[k].memory.id != id
    ensures Without(xs, id) == xs
  {
    if xs != [] {
      NothingToRemove(xs[1..], id);
    }
  }

  lemma {:induction false} ChoiceWithout(xs: seq<Retrieved>, id: Uuid)
    ensures Choice(Without(xs, id), None) == Choice(xs, Some(id))
  {
    if xs != [] {
      ChoiceWithout(xs[1..], id);
      var rest := Without(xs[1..], id);
      assert ([xs[0]] + rest)[1..] == rest;
    }
  }

  lemma {:induction false} ChoiceAppend(xs: seq<Retrieved>, ys: seq<Retrieved>)
    ensures Choice(xs + ys, None) == if Choice(xs, None).Some? then Choice(xs, None) else Choice(ys, None)
  {
    if xs == [] {
      assert [] + ys == ys;
    } else {
      assert (xs + ys)[1..] == xs[1..] + ys;
      ChoiceAppend(xs[1..], ys);
    }
  }

  /** The candidate that the cut kept out and that would move up without the reviewed memory. */
  predicate UsableRunnerUp(env: Scoring, q: Query, memories: seq<Memory>, limit: nat, reviewed: Uuid) {
    var all := Sorted(RankEligible(env, q, memories));
    limit < |all| && HasId(Cut(all, limit), reviewed) && Usable(all[limit])
  }

  /** The choice after removal and cut is the choice that skips the removed one, or else the one
      candidate that moved up. */
  lemma ChoiceAfterRemoval(all: seq<Retrieved>, limit: nat, reviewed: Uuid)
    requires DistinctIds(all)
    ensures var skipped := Choice(Cut(all, limit), Some(reviewed));
            Choice(Cut(Without(all, reviewed), limit), None)
            == if skipped.Some? then skipped
               else if HasId(Cut(all, limit), reviewed) && limit < |all| && Usable(all[limit]) then Some(all[limit])
               else None
  {
    CutWithout(all, reviewed, limit);
    ChoiceWithout(Cut(all, limit), reviewed);
    if HasId(Cut(all, limit), reviewed) && limit < |all| {
      ChoiceAppend(Without(Cut(all, limit), reviewed), [all[limit]]);
      assert [all[limit]][1..] == [];
    } else {
      ChoiceAppend(Without(Cut(all, limit), reviewed), []);
    }
  }

  /** On the in-memory store the pre-review choice is the choice made from the store without the
      reviewed memory, except exactly when it is empty while the cut kept a usable runner-up out. */
  lemma CounterfactualExactly(env: Scoring, q: Query, memories: seq<Memory>, limit: nat, reviewed: Uuid)
    requires UniqueMemories(memories)
    ensures var view := RecurrenceView(InMemoryFind(env, q, memories, limit), Some(reviewed));
            var counterfactual := Choice(InMemoryFind(env, q, WithoutMemory(memories, reviewed), limit), None);
            view.preReview == counterfactual
            <==> view.preReview.Some? || !UsableRunnerUp(env, q, memories, limit, reviewed)
  {
    var ranked := RankEligible(env, q, memories);
    var all := Sorted(ranked);
    RankEligibleMembers(env, q, memories);
    RankEligibleWithout(env, q, memories, reviewed);
    SortedWithout(ranked, reviewed);
    SortedKeeps(ranked);
    SortedMembers(ranked);
    DescendingHasDistinctIds(all, ranked);
    ChoiceAfterRemoval(all, limit, reviewed);
  }

  /** In particular the two agree whenever the pre-review choice is non-empty or nothing was cut. */
  lemma CounterfactualAgrees(env: Scoring, q: Query, memories: seq<Memory>, limit: nat, reviewed: Uuid)
    requires UniqueMemories(memories)
    requires RecurrenceView(InMemoryFind(env, q, memories, limit), Some(reviewed)).preReview.Some?
             || |RankEligible(env, q, memories)| <= limit
    ensures RecurrenceView(InMemoryFind(env, q, memories, limit), Some(reviewed)).preReview
            == Choice(InMemoryFind(env, q, WithoutMemory(memories, reviewed), limit), None)
  {
    CounterfactualExactly(env, q, memories, limit, reviewed);
    SortedMembers(RankEligible(env, q, memories));
  }

  lemma {:induction false} WithoutMemoryMembers(memories: seq<Memory>, id: Uuid)
    ensures forall m :: m in WithoutMemory(memories, id) <==> m in memories && m.id != id
    ensures UniqueMemories(memories) ==> UniqueMemories(WithoutMemory(memories, id))
  {
    if memories != [] {
      WithoutMemoryMembers(memories[1..], id);
      assert memories == [memories[0]] + memories[1..];
    }
  }

  lemma SubsetIsSmaller<T>(a: set<T>, b: set<T>)
    requires a <= b
    ensures |a| <= |b|
  {
    assert |b - a| == |b| - |a|;
  }

  /** The database's lanes, as long as they cut nothing off, meet the same condition; whatever ties
      the queries broke, with the reviewed memory and without it. */
  lemma LaneCounterfactualExactly(env: Scoring, q: Query, memories: seq<Memory>, limit: nat, multiplier: nat, reviewed: Uuid,
                                  lanes: Lanes, lanes': Lanes)
    requires UniqueMemories(memories) && Uncut(q, Rows(memories), limit, multiplier)
    requires limit > 0 ==>
               && LaneAnswers(env, q, Rows(memories), limit, multiplier, lanes)
               && LaneAnswers(env, q, Rows(WithoutMemory(memories, reviewed)), limit, multiplier, lanes')
    ensures var view := RecurrenceView(LaneFind(env, q, lanes.Merge(), limit), Some(reviewed));
            view.preReview == Choice(LaneFind(env, q, lanes'.Merge(), limit), None)
            <==> view.preReview.Some? || !UsableRunnerUp(env, q, memories, limit, reviewed)
  {
    var rest := WithoutMemory(memories, reviewed);
    WithoutMemoryMembers(memories, reviewed);
    SubsetIsSmaller(Where(Rows(rest), m => InScope(m, q)), Where(Rows(memories), m => InScope(m, q)));
    SubsetIsSmaller(Where(Rows(rest), m => Eligible(m, q)), Where(Rows(memories), m => Eligible(m, q)));
    LanesAgreeWithFilterSortCut(env, q, memories, limit, multiplier, lanes);
    LanesAgreeWithFilterSortCut(env, q, rest, limit, multiplier, lanes');
    CounterfactualExactly(env, q, memories, limit, reviewed);
  }

  function Sample(id: Uuid, outcome: real, digest: Digest): Memory {
    Memory(id, "tenant", "checkout", "1.0.0", CompatibilityPolicy.Exact, "recycle", outcome, 1.0, true, Active, None, None,
           None, None, None, None, None, None, digest, 1, None, None, None, "space", 0)
  }

  /** An in-memory store for which they differ: one slot, the reviewed memory in it, a usable one behind it. */
  lemma CounterfactualDiffers(digest: Digest)
    ensures var env, q := Scoring(m => 1.0, m => 1.0), Query("tenant", "checkout", "1.0.0", "space", 0);
            var memories := [Sample(1, 1.0, digest), Sample(2, 1.0, digest)];
            && RecurrenceView(InMemoryFind(env, q, memories, 1), Some(2)).preReview == None
            && Choice(InMemoryFind(env, q, WithoutMemory(memories, 2), 1), None) == Some(RankMemory(env, q, Sample(1, 1.0, digest)))
  {
    var env, q := Scoring(m => 1.0, m => 1.0), Query("tenant", "checkout", "1.0.0", "space", 0);
    var a, b := Sample(1, 1.0, digest), Sample(2, 1.0, digest);
    var x, y := RankMemory(env, q, a), RankMemory(env, q, b);
    assert [a, b][1..] == [b] && [b][1..] == [] && [x, y][1..] == [y] && [y][1..] == [];
    assert RankEligible(env, q, [b]) == [y] && RankEligible(env, q, [a, b]) == [x] + [y];
    assert [x] + [y] == [x, y];
    assert Sorted([y]) == [y];
    assert !Before(x, y) && Insert(x, []) == [x] && Insert(x, [y]) == [y] + Insert(x, [y][1..]);
    assert Sorted([x, y]) == Insert(x, Sorted([x, y][1..])) == [y, x];
    assert Cut([y, x], 1) == [y];
    assert WithoutMemory([b], 2) == [] && WithoutMemory([a, b], 2) == [a];
    assert RankEligible(env, q, [a]) == [x] && [a][1..] == [] && [x][1..] == [];
    assert Sorted([x]) == [x];
  }

  /** The first rows of a list in order of distance answer the query. */
  lemma FirstAreNearest(rows: seq<Memory>, table: set<Memory>, wanted: set<Memory>, distance: Memory -> real, n: nat)
    requires wanted == Rows(rows) && wanted <= table
    requires forall i, j :: 0 <= i < j < |rows| ==> rows[i] != rows[j] && distance(rows[i]) <= distance(rows[j])
    ensures Nearest(Cut(rows, n), table, wanted, distance, n)
  {
    DistinctSize(rows);
    var answer := Cut(rows, n);
    assert answer <= rows;
    forall m, a | m in wanted && m !in answer && a in answer
      ensures distance(a) <= distance(m)
    {
      var i, j :| 0 <= i < |rows| && rows[i] == m && 0 <= j < |answer| && answer[j] == a;
      assert i >= |answer| && rows[j] == a;
    }
  }

  /** Three memories of one service, of which the nearest two fill the candidate pool. */
  function Nearby(k: nat, digest: Digest): Memory {
    Sample(k, if k == 2 then 0.1 else 1.0, digest)
  }

  const CROWD_SCORING := Scoring((m: Memory) => if m.id == 1 then 0.9 else if m.id == 2 then 0.8 else 0.7, m => 1.0)

  const CROWD_QUERY := Query("tenant", "checkout", "1.0.0", "space", 0)

  /** What the lanes answer over such rows, given in order of distance. */
  lemma CrowdLanes(rows: seq<Memory>, nearest: seq<Memory>, digest: Digest)
    requires forall i :: 0 <= i < |rows| ==> rows[i].id > 0 && rows[i] == Nearby(rows[i].id, digest)
    requires nearest == Cut(rows, 2) && |rows| <= 8
    requires forall i, j :: 0 <= i < j < |rows| ==> rows[i].id < rows[j].id
    ensures LaneAnswers(CROWD_SCORING, CROWD_QUERY, Rows(rows), 2, 1, Lanes(nearest, [], rows, nearest))
  {
    var q, table, distance := CROWD_QUERY, Rows(rows), (m: Memory) => 1.0 - CROWD_SCORING.similarity(m);
    assert Where(table, m => Eligible(m, q) && m.serviceVersion == q.serviceVersion && m.outcomeScore > 0.0) == table;
    assert Where(table, m => Eligible(m, q) && m.policy != Exact && m.outcomeScore > 0.0) == {};
    assert Where(table, m => InScope(m, q)) == table && Where(table, m => Eligible(m, q)) == table;
    FirstAreNearest(rows, table, table, distance, 2);
    FirstAreNearest([], table, {}, distance, 2);
    FirstAreNearest(rows, table, table, distance, 8);
  }

  /** A pair of rows answered twice is merged to the pair. */
  lemma MergeTwo(a: Memory, b: Memory)
    requires a.id != b.id
    ensures Merged([a, b] + [] + [a, b], {}) == [a, b]
  {
    var rows := [a, b] + [] + [a, b];
    var one, two := {} + {a.id}, {} + {a.id} + {b.id};
    MergedStep(rows, 0, {});
    MergedStep(rows, 1, one);
    MergedStep(rows, 2, two);
    MergedStep(rows, 3, two);
    assert rows[0..] == rows && rows[4..] == [];
    assert Merged(rows[2..], two) == [];
  }

  lemma SortTwo(x: Retrieved, y: Retrieved)
    ensures Sorted([x, y]) == if Before(x, y) then [x, y] else [y, x]
  {
    assert [x, y][1..] == [y] && [y][1..] == [];
    assert Sorted([y]) == Insert(y, Sorted([])) == [y];
    assert Insert(x, []) == [x];
  }

  /** What two ranked rows retrieve. */
  lemma RetrieveTwo(env: Scoring, q: Query, a: Memory, b: Memory)
    requires a.id != b.id
    ensures var x, y := RankMemory(env, q, a), RankMemory(env, q, b);
            LaneFind(env, q, [a, b] + [] + [a, b], 2) == if Before(x, y) then [x, y] else [y, x]
  {
    MergeTwo(a, b);
    assert RankAll(env, q, [a, b]) == [RankMemory(env, q, a), RankMemory(env, q, b)];
    SortTwo(RankMemory(env, q, a), RankMemory(env, q, b));
  }

  /** The outer two outrank the middle one, and all are usable. */
  lemma CrowdOrder(k: nat, digest: Digest)
    requires k == 1 || k == 3
    ensures var x, y := RankMemory(CROWD_SCORING, CROWD_QUERY, Nearby(k, digest)), RankMemory(CROWD_SCORING, CROWD_QUERY, Nearby(2, digest));
            Before(x, y) && Usable(x) && Usable(y)
  {
  }

  lemma WithoutFirst(a: Memory, b: Memory, c: Memory)
    requires a.id != b.id && a.id != c.id
    ensures WithoutMemory([a, b, c], a.id) == [b, c]
  {
    assert [a, b, c][1..] == [b, c] && [b, c][1..] == [c] && [c][1..] == [];
    assert WithoutMemory([c], a.id) == [c] && WithoutMemory([b, c], a.id) == [b, c];
  }

  lemma RecallWithoutFirst(x: Retrieved, y: Retrieved)
    requires Usable(x) && Usable(y) && x.memory.id != y.memory.id
    ensures Choice([x, y], None) == Some(x) && Choice([x, y], Some(x.memory.id)) == Some(y)
  {
    assert [x, y][1..] == [y];
  }

  lemma CrowdWith(a: Memory, b: Memory, c: Memory, digest: Digest)
    requires a == Nearby(1, digest) && b == Nearby(2, digest) && c == Nearby(3, digest)
    ensures LaneAnswers(CROWD_SCORING, CROWD_QUERY, Rows([a, b, c]), 2, 1, Lanes([a, b], [], [a, b, c], [a, b]))
  {
    var rows := [a, b, c];
    assert rows[..2] == [a, b];
    CrowdLanes(rows, [a, b], digest);
  }

  lemma CrowdWithout(b: Memory, c: Memory, digest: Digest)
    requires b == Nearby(2, digest) && c == Nearby(3, digest)
    ensures LaneAnswers(CROWD_SCORING, CROWD_QUERY, Rows([b, c]), 2, 1, Lanes([b, c], [], [b, c], [b, c]))
  {
    CrowdLanes([b, c], [b, c], digest);
  }

  /** What the view chooses from two retrieved rows, the first of which outranks the second. */
  lemma ChooseFromTwo(env: Scoring, q: Query, a: Memory, b: Memory, rows: seq<Memory>)
    requires a.id != b.id && (rows == [a, b] || rows == [b, a])
    requires var x, y := RankMemory(env, q, a), RankMemory(env, q, b); Before(x, y) && Usable(x) && Usable(y)
    ensures var candidates := LaneFind(env, q, rows + [] + rows, 2);
            && Choice(candidates, None) == Some(RankMemory(env, q, a))
            && Choice(candidates, Some(a.id)) == Some(RankMemory(env, q, b))
  {
    var x, y := RankMemory(env, q, a), RankMemory(env, q, b);
    RetrieveTwo(env, q, rows[0], rows[1]);
    BeforeOrders(x, y, x);
    RecallWithoutFirst(x, y);
  }

  /** Where a lane cuts, a non-empty pre-review choice can be the wrong one: without the reviewed
      memory a better one enters the candidate pool. */
  lemma CutLanesHideTheCounterfactual(digest: Digest)
    ensures var env, q := CROWD_SCORING, CROWD_QUERY;
            var a, b, c := Nearby(1, digest), Nearby(2, digest), Nearby(3, digest);
            var memories := [a, b, c];
            var lanes := Lanes([a, b], [], [a, b, c], [a, b]);
            var lanes' := Lanes([b, c], [], [b, c], [b, c]);
            && LaneAnswers(env, q, Rows(memories), 2, 1, lanes)
            && LaneAnswers(env, q, Rows(WithoutMemory(memories, 1)), 2, 1, lanes')
            && RecurrenceView(LaneFind(env, q, lanes.Merge(), 2), Some(1)).preReview == Some(RankMemory(env, q, b))
            && Choice(LaneFind(env, q, lanes'.Merge(), 2), None) == Some(RankMemory(env, q, c))
  {
    var a, b, c := Nearby(1, digest), Nearby(2, digest), Nearby(3, digest);
    CrowdWith(a, b, c, digest);
    CrowdWithout(b, c, digest);
    WithoutFirst(a, b, c);
    CrowdOrder(1, digest);
    CrowdOrder(3, digest);
    ChooseFromTwo(CROWD_SCORING, CROWD_QUERY, a, b, [a, b]);
    ChooseFromTwo(CROWD_SCORING, CROWD_QUERY, c, b, [b, c]);
  }

  /** Review is said to have changed the authority exactly when the governed choice is the
      reviewed memory. */
  lemma ChangedAuthorityExactly(candidates: seq<Retrieved>, reviewed: Option<Uuid>)
    ensures var view := RecurrenceView(candidates, reviewed);
            view.changedAuthority <==> view.governed.Some? && Some(view.governed.value.memory.id) == reviewed
  {
  }

  // ----- only independently activated memories are retrieved -----

  /** In every reachable store, a memory that entered unreviewed and is now returned by retrieval
      has an activation entry in the log whose actor is not its observer. */
  lemma RetrievedWasIndependentlyActivated(env: Scoring, q: Query, limit: int,
                                           h: MemoryStore.History, steps: seq<MemoryStore.Step>, i: nat)
    requires MemoryStore.Initial(h) && MemoryStore.AdmissibleRun(h, steps)
    requires var end := MemoryStore.Run(h, steps);
             && i < |end.store.memories| && i < |end.entered|
             && end.entered[i].state == Pending
             && (exists x :: x in InMemoryFind(env, q, end.store.memories, limit) && x.memory == end.store.memories[i])
    ensures var end := MemoryStore.Run(h, steps);
            MemoryStore.IndependentlyActivated(end.store.events, end.entered[i])
  {
    MemoryStore.ReachableInv(h, steps);
    var end := MemoryStore.Run(h, steps);
    var ranked := RankEligible(env, q, end.store.memories);
    RankEligibleMembers(env, q, end.store.memories);
    SortedMembers(ranked);
    CutMembers(Sorted(ranked), limit);
  }
}
