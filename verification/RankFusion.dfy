/** Reciprocal rank fusion of two ranked candidate lists, with floating-point scores. */
module RankFusion {
  import opened Options
  import opened Sorting

  const RRF_RANK_CONSTANT: nat := 60
  const MAX_RETRIEVAL_CANDIDATES: nat := 40
  const MAX_FUSED_RESULTS: nat := 20

  type ChunkId = nat

  datatype FusedChunkRank = FusedChunkRank(
    chunkId: ChunkId,
    vectorRank: Option<nat>,
    lexicalRank: Option<nat>,
    score: real)

  predicate Distinct(ids: seq<ChunkId>) {
    forall i, j :: 0 <= i < j < |ids| ==> ids[i] != ids[j]
  }

  predicate ValidRanking(ids: seq<ChunkId>) {
    |ids| <= MAX_RETRIEVAL_CANDIDATES && Distinct(ids)
  }

  /** Position from one, if listed. */
  function RankIn(ids: seq<ChunkId>, id: ChunkId): Option<nat> {
    if ids == [] then None
    else if ids[|ids| - 1] == id then Some(|ids|)
    else RankIn(ids[..|ids| - 1], id)
  }

  // --------------------------------------------------------------------- scores

  /** The result of a floating-point operation whose exact result is given. */
  type Rounding = real -> real

  const EPSILON: real := 0.000001

  /** On the unit interval results are off by at most a millionth; double precision does far better. */
  ghost predicate Precise(round: Rounding) {
    forall x: real :: 0.0 <= x <= 1.0 ==> x - EPSILON <= round(x) <= x + EPSILON
  }

  /** The score in the order in which it is computed, rounding after every operation. */
  function Score(round: Rounding, vector: Option<nat>, lexical: Option<nat>): real {
    var first := if vector.Some? then round(0.0 + round(Exact(vector))) else 0.0;
    if lexical.Some? then round(first + round(Exact(lexical))) else first
  }

  /** The exact share of one rank. */
  function Exact(rank: Option<nat>): real {
    if rank.Some? then 1.0 / (60 + rank.value) as real else 0.0
  }

  function FusedOf(round: Rounding, vector: seq<ChunkId>, lexical: seq<ChunkId>, id: ChunkId): FusedChunkRank {
    var v, l := RankIn(vector, id), RankIn(lexical, id);
    FusedChunkRank(id, v, l, Score(round, v, l))
  }

  /** Higher score first; equal scores by identifier. */
  predicate Before(a: FusedChunkRank, b: FusedChunkRank) {
    a.score > b.score || (a.score == b.score && a.chunkId < b.chunkId)
  }

  function FuseAll(round: Rounding, vector: seq<ChunkId>, lexical: seq<ChunkId>,
                   order: seq<ChunkId>): seq<FusedChunkRank> {
    seq(|order|, i requires 0 <= i < |order| => FusedOf(round, vector, lexical, order[i]))
  }

  /** `order` lists every candidate of either list once: some iteration order of their union. */
  ghost predicate Enumerates(order: seq<ChunkId>, vector: seq<ChunkId>, lexical: seq<ChunkId>) {
    && Distinct(order)
    && forall id :: id in order <==> id in vector || id in lexical
  }

  /** All candidates in their final order. */
  function Ranking(round: Rounding, vector: seq<ChunkId>, lexical: seq<ChunkId>,
                   order: seq<ChunkId>): seq<FusedChunkRank> {
    Sort(Before, FuseAll(round, vector, lexical, order))
  }

  lemma {:induction false} RankInExactly(ids: seq<ChunkId>, id: ChunkId)
    requires Distinct(ids)
    ensures RankIn(ids, id).Some? <==> id in ids
    ensures forall i :: 0 <= i < |ids| && ids[i] == id ==> RankIn(ids, id) == Some(i + 1)
    ensures RankIn(ids, id).Some? ==> 1 <= RankIn(ids, id).value <= |ids|
  {
    if ids != [] {
      var front := ids[..|ids| - 1];
      RankInExactly(front, id);
      assert ids == front + [ids[|ids| - 1]];
    }
  }

  lemma BeforeOrders(round: Rounding, vector: seq<ChunkId>, lexical: seq<ChunkId>, order: seq<ChunkId>)
    ensures OrdersAll(Before, multiset(FuseAll(round, vector, lexical, order)))
  {
    var items := FuseAll(round, vector, lexical, order);
    forall x, y | x in multiset(items) && y in multiset(items) && x != y ensures Before(x, y) || Before(y, x) {
      assert x in items && y in items;
    }
  }

  /** How often an item occurs among the fused candidates. */
  lemma {:induction false} CountFused(round: Rounding, vector: seq<ChunkId>, lexical: seq<ChunkId>,
                                      order: seq<ChunkId>, x: FusedChunkRank)
    requires Distinct(order)
    ensures multiset(FuseAll(round, vector, lexical, order))[x]
         == if x.chunkId in order && x == FusedOf(round, vector, lexical, x.chunkId) then 1 else 0
  {
    if order != [] {
      CountFused(round, vector, lexical, order[1..], x);
      assert order == [order[0]] + order[1..];
      assert FuseAll(round, vector, lexical, order)
          == [FusedOf(round, vector, lexical, order[0])] + FuseAll(round, vector, lexical, order[1..]);
    }
  }

  /** The ranking does not depend on the iteration order of the candidate set. */
  lemma RankingIgnoresIterationOrder(round: Rounding, vector: seq<ChunkId>, lexical: seq<ChunkId>, a: seq<ChunkId>,
                                     b: seq<ChunkId>)
    requires Enumerates(a, vector, lexical) && Enumerates(b, vector, lexical)
    ensures Ranking(round, vector, lexical, a) == Ranking(round, vector, lexical, b)
  {
    forall x
      ensures multiset(FuseAll(round, vector, lexical, a))[x] == multiset(FuseAll(round, vector, lexical, b))[x]
    {
      CountFused(round, vector, lexical, a, x);
      CountFused(round, vector, lexical, b, x);
    }
    BeforeOrders(round, vector, lexical, a);
    SortIgnoresOrder(Before, FuseAll(round, vector, lexical, a), FuseAll(round, vector, lexical, b));
  }

  /** The ranking lists every candidate once, strictly ordered by score and identifier. */
  lemma RankingIsStrict(round: Rounding, vector: seq<ChunkId>, lexical: seq<ChunkId>, order: seq<ChunkId>)
    requires Enumerates(order, vector, lexical)
    ensures var all := Ranking(round, vector, lexical, order);
            && |all| == |order|
            && multiset(all) == multiset(FuseAll(round, vector, lexical, order))
            && Strict(Before, all)
  {
    BeforeOrders(round, vector, lexical, order);
    var items := FuseAll(round, vector, lexical, order);
    SortSorts(Before, items);
    var all := Ranking(round, vector, lexical, order);
    forall x ensures multiset(all)[x] <= 1 {
      CountFused(round, vector, lexical, order, x);
    }
    SortedIsStrict(Before, all);
  }

  /** The rank is the place of the item in the list, counted from one; none means it is not listed. */
  predicate RankTells(ids: seq<ChunkId>, id: ChunkId, rank: Option<nat>) {
    if rank.Some? then 1 <= rank.value <= |ids| && ids[rank.value - 1] == id else id !in ids
  }

  /** What a fused item says about its candidate. */
  predicate ItemTells(round: Rounding, vector: seq<ChunkId>, lexical: seq<ChunkId>, item: FusedChunkRank) {
    && (item.chunkId in vector || item.chunkId in lexical)
    && RankTells(vector, item.chunkId, item.vectorRank) && RankTells(lexical, item.chunkId, item.lexicalRank)
    && item.score == Score(round, item.vectorRank, item.lexicalRank)
  }

  /** Each item of a ranking carries its candidate's own places in the two lists, and the score of
      just these places; and every candidate has an item. */
  lemma RankingTells(round: Rounding, vector: seq<ChunkId>, lexical: seq<ChunkId>, order: seq<ChunkId>)
    requires Enumerates(order, vector, lexical) && Distinct(vector) && Distinct(lexical)
    ensures var all := Ranking(round, vector, lexical, order);
            && (forall item :: item in all ==> ItemTells(round, vector, lexical, item))
            && (forall id :: id in vector || id in lexical ==> exists item :: item in all && item.chunkId == id)
  {
    RankingIsStrict(round, vector, lexical, order);
    var all, items := Ranking(round, vector, lexical, order), FuseAll(round, vector, lexical, order);
    forall item | item in all ensures ItemTells(round, vector, lexical, item) {
      assert item in multiset(items);
      var i :| 0 <= i < |order| && items[i] == item;
      assert order[i] in order;
      RankIsPlace(vector, order[i]);
      RankIsPlace(lexical, order[i]);
    }
    forall id | id in vector || id in lexical ensures exists item :: item in all && item.chunkId == id {
      assert id in order;
      var i :| 0 <= i < |order| && order[i] == id;
      assert items[i] in items && items[i] in multiset(all);
    }
  }

  lemma RankIsPlace(ids: seq<ChunkId>, id: ChunkId)
    requires Distinct(ids)
    ensures RankTells(ids, id, RankIn(ids, id))
  {
    RankInExactly(ids, id);
    if id in ids {
      var i :| 0 <= i < |ids| && ids[i] == id;
    }
  }

  // -------------------------------------------------------------- who comes first

  lemma ProductGrows(a: real, b: real, c: real)
    requires a < b && 0.0 < c
    ensures a * c < b * c
  {
  }

  lemma BoundedProduct(x: real, y: real)
    requires 0.0 < x < 100.0 && 0.0 < y <= 100.0
    ensures 0.0 < x * y <= 10000.0
  {
    ProductGrows(0.0, x, y);
    ProductGrows(x, 100.0, y);
  }

  lemma UnitFactor(one: real, x: real)
    requires one == 1.0
    ensures one * x == x
  {
  }

  /** The gap between the reciprocals p of x and q of y, by multiplying it with x * y. */
  lemma ReciprocalGap(x: real, y: real, p: real, q: real)
    requires 1.0 <= x <= y - 1.0 && y <= 100.0 && p * x == 1.0 && q * y == 1.0
    ensures p - q >= 0.0001
  {
    BoundedProduct(x, y);
    UnitFactor(p * x, y);
    UnitFactor(q * y, x);
    assert (p - q) * (x * y) == y - x;
    GapFromProduct(p - q, x * y);
  }

  lemma GapFromProduct(gap: real, product: real)
    requires 0.0 < product <= 10000.0 && gap * product >= 1.0
    ensures gap >= 0.0001
  {
    if gap < 0.0001 {
      ProductGrows(gap, 0.0001, product);
      assert false;
    }
  }

  lemma RankGap(a: nat, b: nat)
    requires a < b <= MAX_RETRIEVAL_CANDIDATES
    ensures Exact(Some(a)) >= Exact(Some(b)) + 0.0001
  {
    var x, y := (60 + a) as real, (60 + b) as real;
    ReciprocalGap(x, y, 1.0 / x, 1.0 / y);
  }

  /** A listed rank within the cap has a share between 1/100 and 1/60. */
  lemma ShareBounds(rank: nat)
    requires rank <= MAX_RETRIEVAL_CANDIDATES
    ensures 0.01 <= Exact(Some(rank)) <= 0.0167
  {
    var x := (60 + rank) as real;
    var p := 1.0 / x;
    assert p * x == 1.0;
    if p < 0.01 {
      ProductGrows(p, 0.01, x);
      assert false;
    }
    if 0.0167 < p {
      ProductGrows(0.0167, p, x);
      assert false;
    }
  }

  predicate Capped(rank: Option<nat>) {
    rank.Some? ==> rank.value <= MAX_RETRIEVAL_CANDIDATES
  }

  /** Four roundings leave the score within four millionths of its exact value. */
  lemma ScoreIsClose(round: Rounding, v: Option<nat>, l: Option<nat>)
    requires Precise(round) && Capped(v) && Capped(l)
    ensures var exact := Exact(v) + Exact(l);
            exact - 0.000004 <= Score(round, v, l) <= exact + 0.000004
  {
    if v.Some? {
      ShareBounds(v.value);
    }
    if l.Some? {
      ShareBounds(l.value);
    }
  }

  /** `a` is listed at least as high as `b`; an absent rank is the lowest. */
  predicate NoWorse(a: Option<nat>, b: Option<nat>) {
    b.None? || (a.Some? && a.value <= b.value)
  }

  lemma NoWorseShares(a: Option<nat>, b: Option<nat>)
    requires NoWorse(a, b) && Capped(a) && Capped(b)
    ensures Exact(a) >= Exact(b) && (a != b ==> Exact(a) >= Exact(b) + 0.0001)
  {
    if a.Some? && b.Some? && a.value < b.value {
      RankGap(a.value, b.value);
    } else if a.Some? {
      ShareBounds(a.value);
    }
  }

  /** Exact shares fall with every rank, without any cap. */
  lemma SharesFall(a: nat, b: nat)
    requires a < b
    ensures Exact(Some(a)) > Exact(Some(b)) > 0.0
  {
    var x, y := (60 + a) as real, (60 + b) as real;
    PositiveReciprocal(y, 1.0 / y);
    SmallerReciprocal(x, y, 1.0 / x, 1.0 / y);
  }

  lemma PositiveReciprocal(y: real, q: real)
    requires 0.0 < y && q * y == 1.0
    ensures 0.0 < q
  {
    if q < 0.0 {
      ProductGrows(q, 0.0, y);
    }
  }

  lemma SmallerReciprocal(x: real, y: real, p: real, q: real)
    requires 0.0 < x < y && 0.0 < q && p * x == 1.0 && q * y == 1.0
    ensures q < p
  {
    ProductGrows(x, y, q);
    Commutes(x, q);
    Commutes(y, q);
    if p < q {
      ProductGrows(p, q, x);
    }
  }

  lemma Commutes(a: real, b: real)
    ensures a * b == b * a
  {
  }

  /** With exact scores dominance wins for lists of any length. */
  lemma ExactDominance(va: Option<nat>, la: Option<nat>, vb: Option<nat>, lb: Option<nat>)
    requires NoWorse(va, vb) && NoWorse(la, lb) && (va != vb || la != lb)
    ensures Exact(va) + Exact(la) > Exact(vb) + Exact(lb)
  {
    ExactNoWorse(va, vb);
    ExactNoWorse(la, lb);
  }

  lemma ExactNoWorse(a: Option<nat>, b: Option<nat>)
    requires NoWorse(a, b)
    ensures Exact(a) >= Exact(b) && (a != b ==> Exact(a) > Exact(b))
  {
    if a.Some? {
      SharesFall(a.value, if b.Some? && a.value < b.value then b.value else a.value + 1);
    }
  }

  lemma RanksAreCapped(ids: seq<ChunkId>, id: ChunkId)
    requires ValidRanking(ids)
    ensures Capped(RankIn(ids, id))
  {
    RankInExactly(ids, id);
  }

  /** Being no worse in both lists and better in one ranks first. */
  lemma DominanceWins(round: Rounding, vector: seq<ChunkId>, lexical: seq<ChunkId>, a: ChunkId, b: ChunkId)
    requires Precise(round) && ValidRanking(vector) && ValidRanking(lexical)
    requires NoWorse(RankIn(vector, a), RankIn(vector, b)) && NoWorse(RankIn(lexical, a), RankIn(lexical, b))
    requires RankIn(vector, a) != RankIn(vector, b) || RankIn(lexical, a) != RankIn(lexical, b)
    ensures Before(FusedOf(round, vector, lexical, a), FusedOf(round, vector, lexical, b))
  {
    RanksAreCapped(vector, a);
    RanksAreCapped(vector, b);
    RanksAreCapped(lexical, a);
    RanksAreCapped(lexical, b);
    NoWorseShares(RankIn(vector, a), RankIn(vector, b));
    NoWorseShares(RankIn(lexical, a), RankIn(lexical, b));
    ScoreIsClose(round, RankIn(vector, a), RankIn(lexical, a));
    ScoreIsClose(round, RankIn(vector, b), RankIn(lexical, b));
  }

  /** Under the candidate cap, whatever both searches found precedes whatever only one found. */
  lemma BothBeatOne(round: Rounding, vector: seq<ChunkId>, lexical: seq<ChunkId>, a: ChunkId, b: ChunkId)
    requires Precise(round) && ValidRanking(vector) && ValidRanking(lexical)
    requires a in vector && a in lexical
    requires !(b in vector && b in lexical)
    ensures Before(FusedOf(round, vector, lexical, a), FusedOf(round, vector, lexical, b))
  {
    RankInExactly(vector, a);
    RankInExactly(lexical, a);
    RankInExactly(vector, b);
    RankInExactly(lexical, b);
    ShareBounds(RankIn(vector, a).value);
    ShareBounds(RankIn(lexical, a).value);
    OneShare(RankIn(vector, b), RankIn(lexical, b));
    ScoreIsClose(round, RankIn(vector, a), RankIn(lexical, a));
    ScoreIsClose(round, RankIn(vector, b), RankIn(lexical, b));
  }

  lemma OneShare(v: Option<nat>, l: Option<nat>)
    requires Capped(v) && Capped(l) && (v.None? || l.None?)
    ensures Exact(v) + Exact(l) <= 0.0167
  {
    if v.Some? {
      ShareBounds(v.value);
    }
    if l.Some? {
      ShareBounds(l.value);
    }
  }

  // ------------------------------------------------------------------ the program

  datatype FusionError = InvalidLimit | InvalidCandidates

  datatype FusionResult = Fused(ranks: seq<FusedChunkRank>) | Refused(error: FusionError)

  /** The dictionary holds the rank of every listed id and nothing else. */
  ghost predicate RanksOf(ids: seq<ChunkId>, ranks: map<ChunkId, nat>) {
    && (forall id :: id in ranks <==> RankIn(ids, id).Some?)
    && (forall id :: id in ranks ==> RankIn(ids, id) == Some(ranks[id]))
  }

  method BuildRanks(ids: seq<ChunkId>) returns (ranks: map<ChunkId, nat>)
    requires Distinct(ids)
    ensures RanksOf(ids, ranks)
  {
    ranks := map[];
    var i := 0;
    while i < |ids|
      invariant 0 <= i <= |ids|
      invariant forall id :: id in ranks <==> id in ids[..i]
      invariant forall id :: id in ranks ==> RankIn(ids, id) == Some(ranks[id])
    {
      RankInExactly(ids, ids[i]);
      ranks := ranks[ids[i] := i + 1];
      assert ids[..i + 1] == ids[..i] + [ids[i]];
      i := i + 1;
    }
    assert ids[..|ids|] == ids;
    forall id ensures (id in ranks <==> RankIn(ids, id).Some?) {
      RankInExactly(ids, id);
    }
  }

  /** Fuse two ranked lists; `order` is the order in which the set of candidates happens to be
      visited. */
  method ReciprocalRankFuse(round: Rounding, vector: seq<ChunkId>, lexical: seq<ChunkId>, limit: int,
                            order: seq<ChunkId>)
    returns (result: FusionResult)
    requires Enumerates(order, vector, lexical)
    ensures result.Refused? <==>
              !(1 <= limit <= MAX_FUSED_RESULTS) || !ValidRanking(vector) || !ValidRanking(lexical)
    ensures result.Fused? ==>
              var all := Ranking(round, vector, lexical, order);
              result.ranks == if limit < |all| then all[..limit] else all
    ensures result.Fused? ==> forall item :: item in result.ranks ==> ItemTells(round, vector, lexical, item)
  {
    if !(1 <= limit <= MAX_FUSED_RESULTS) {
      return Refused(InvalidLimit);
    }
    if !ValidRanking(vector) || !ValidRanking(lexical) {
      return Refused(InvalidCandidates);
    }
    var fused := FuseCandidates(round, vector, lexical, order);
    var all := Sort(Before, fused);
    RankingTells(round, vector, lexical, order);
    result := Fused(if limit < |all| then all[..limit] else all);
  }

  /** The loop over the candidates, with their ranks looked up in two dictionaries. */
  method FuseCandidates(round: Rounding, vector: seq<ChunkId>, lexical: seq<ChunkId>, order: seq<ChunkId>)
    returns (fused: seq<FusedChunkRank>)
    requires Distinct(vector) && Distinct(lexical)
    ensures fused == FuseAll(round, vector, lexical, order)
  {
    var vectorRanks := BuildRanks(vector);
    var lexicalRanks := BuildRanks(lexical);
    fused := [];
    var i := 0;
    while i < |order|
      invariant 0 <= i <= |order|
      invariant fused == FuseAll(round, vector, lexical, order)[..i]
    {
      var item := FuseOne(round, vector, lexical, order[i], vectorRanks, lexicalRanks);
      fused := fused + [item];
      i := i + 1;
    }
  }

  method FuseOne(round: Rounding, ghost vector: seq<ChunkId>, ghost lexical: seq<ChunkId>, id: ChunkId,
                 vectorRanks: map<ChunkId, nat>, lexicalRanks: map<ChunkId, nat>)
    returns (item: FusedChunkRank)
    requires RanksOf(vector, vectorRanks) && RanksOf(lexical, lexicalRanks)
    ensures item == FusedOf(round, vector, lexical, id)
  {
    var v := if id in vectorRanks then Some(vectorRanks[id]) else None;
    var l := if id in lexicalRanks then Some(lexicalRanks[id]) else None;
    assert v == RankIn(vector, id) && l == RankIn(lexical, id);
    var score := 0.0;
    if v.Some? {
      score := round(score + round(1.0 / (RRF_RANK_CONSTANT + v.value) as real));
    }
    if l.Some? {
      score := round(score + round(1.0 / (RRF_RANK_CONSTANT + l.value) as real));
    }
    item := FusedChunkRank(id, v, l, score);
  }

  /** Smaller limits give prefixes of larger ones, whatever the iteration orders. */
  lemma SmallerLimitIsPrefix(round: Rounding, vector: seq<ChunkId>, lexical: seq<ChunkId>,
                             a: seq<ChunkId>, b: seq<ChunkId>, small: nat, large: nat)
    requires Enumerates(a, vector, lexical) && Enumerates(b, vector, lexical) && small <= large
    ensures var x, y := Ranking(round, vector, lexical, a), Ranking(round, vector, lexical, b);
            (if small < |x| then x[..small] else x) <= (if large < |y| then y[..large] else y)
  {
    RankingIgnoresIterationOrder(round, vector, lexical, a, b);
  }
}
