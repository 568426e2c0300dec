/** The largest-remainder split of an expense over weighted shareholders
    (Backend/backend/finance_ownership.py, create_call). */
module ContributionSplit {
  import opened Arithmetic
  import opened Sums
  import TextOrder

  type HolderId = string

  /** One entry of the `weights` dictionary, in iteration order. */
  datatype Weighted = Weighted(holder: HolderId, weight: nat)

  /** One element of the `pieces` list. */
  datatype Piece = Piece(holder: HolderId, weight: nat, amount: int, remainder: nat)

  function WeightOf(w: Weighted): int { w.weight }
  function AmountOf(p: Piece): int { p.amount }
  function RemainderOf(p: Piece): int { p.remainder }

  predicate DistinctHolders(ws: seq<Weighted>) {
    forall i, j :: 0 <= i < j < |ws| ==> ws[i].holder != ws[j].holder
  }

  /** What `create_call` has established when it reaches the arithmetic. */
  predicate Splittable(ws: seq<Weighted>, denominator: int) {
    && denominator > 0
    && DistinctHolders(ws)
    && (forall w :: w in ws ==> w.weight > 0)
    && SumBy(WeightOf, ws) == denominator
  }

  // ---------------------------------------------------------------- weights

  /** The two ways `create_call` obtains its weights. */
  datatype Basis =
    | Ownership(balances: seq<(HolderId, int)>)
    | CustomWeights(custom: seq<(HolderId, int)>)

  function PairValue(p: (HolderId, int)): int { p.1 }

  /** The model validator of FundingPolicyCreate. */
  predicate ValidCustomWeights(custom: seq<(HolderId, int)>) {
    && |custom| > 0
    && SumBy(PairValue, custom) == 10000
    && (forall p :: p in custom ==> 0 <= p.1 <= 10000)
  }

  function PositiveOnly(ps: seq<(HolderId, int)>): (ws: seq<Weighted>)
    ensures forall w :: w in ws ==> w.weight > 0 && (w.holder, w.weight) in ps
  {
    if |ps| == 0 then []
    else if ps[0].1 > 0 then [Weighted(ps[0].0, ps[0].1)] + PositiveOnly(ps[1..])
    else PositiveOnly(ps[1..])
  }

  function WeightsOf(b: Basis): seq<Weighted> {
    match b
    case Ownership(balances) => PositiveOnly(balances)
    case CustomWeights(custom) => PositiveOnly(custom)
  }

  function DenominatorOf(b: Basis): int {
    match b
    case Ownership(_) => SumBy(WeightOf, WeightsOf(b))
    case CustomWeights(_) => 10000
  }

  /** Dictionary keys are distinct; custom weights passed the validator. */
  predicate ValidBasis(b: Basis) {
    match b
    case Ownership(balances) => DistinctKeys(balances)
    case CustomWeights(custom) => DistinctKeys(custom) && ValidCustomWeights(custom)
  }

  predicate DistinctKeys(ps: seq<(HolderId, int)>) {
    forall i, j :: 0 <= i < j < |ps| ==> ps[i].0 != ps[j].0
  }

  lemma {:induction false} PositiveOnlyDistinct(ps: seq<(HolderId, int)>)
    requires DistinctKeys(ps)
    ensures DistinctHolders(PositiveOnly(ps))
  {
    if |ps| > 0 {
      PositiveOnlyDistinct(ps[1..]);
      var rest := PositiveOnly(ps[1..]);
      forall i | 0 <= i < |rest|
        ensures rest[i].holder != ps[0].0
      {
        assert rest[i] in rest;
        var k :| 0 <= k < |ps[1..]| && ps[1..][k] == (rest[i].holder, rest[i].weight);
        assert ps[k + 1].0 == rest[i].holder;
      }
    }
  }

  lemma {:induction false} PositiveOnlySum(ps: seq<(HolderId, int)>)
    requires forall p :: p in ps ==> p.1 >= 0
    ensures SumBy(WeightOf, PositiveOnly(ps)) == SumBy(PairValue, ps)
  {
    if |ps| > 0 {
      PositiveOnlySum(ps[1..]);
      assert ps[0] in ps;
      if ps[0].1 > 0 {
        var head := [Weighted(ps[0].0, ps[0].1)];
        SumAppend(WeightOf, head, PositiveOnly(ps[1..]));
        assert head[1..] == [];
      }
    }
  }

  /** Whichever basis is used, the positive weights sum to the denominator. */
  lemma BasisIsSplittable(b: Basis)
    requires ValidBasis(b)
    requires WeightsOf(b) != [] && DenominatorOf(b) > 0
    ensures Splittable(WeightsOf(b), DenominatorOf(b))
  {
    match b
    case Ownership(balances) => PositiveOnlyDistinct(balances);
    case CustomWeights(custom) => PositiveOnlyDistinct(custom); PositiveOnlySum(custom);
  }

  // ------------------------------------------------------------ the floors

  function FloorPiece(expense: nat, denominator: nat, w: Weighted): Piece
    requires denominator > 0
  {
    Piece(w.holder, w.weight, expense * w.weight / denominator, expense * w.weight % denominator)
  }

  function FloorPieces(expense: nat, denominator: nat, ws: seq<Weighted>): (ps: seq<Piece>)
    requires denominator > 0
    ensures |ps| == |ws|
    ensures forall i :: 0 <= i < |ws| ==> ps[i] == FloorPiece(expense, denominator, ws[i])
  {
    seq(|ws|, i requires 0 <= i < |ws| => FloorPiece(expense, denominator, ws[i]))
  }

  lemma {:induction false} FloorSums(expense: nat, denominator: nat, ws: seq<Weighted>)
    requires denominator > 0
    ensures var ps := FloorPieces(expense, denominator, ws);
            denominator * SumBy(AmountOf, ps) + SumBy(RemainderOf, ps) == expense * SumBy(WeightOf, ws)
  {
    var ps := FloorPieces(expense, denominator, ws);
    if |ws| > 0 {
      FloorSums(expense, denominator, ws[1..]);
      assert ps[1..] == FloorPieces(expense, denominator, ws[1..]);
      var raw := expense * ws[0].weight;
      DivMod(raw, denominator);
      var tail := ps[1..];
      Spread(denominator, ps[0].amount, SumBy(AmountOf, tail));
      Spread(expense, ws[0].weight, SumBy(WeightOf, ws[1..]));
      assert ps[0] == FloorPiece(expense, denominator, ws[0]);
    }
  }

  lemma Spread(p: int, x: int, y: int)
    ensures p * (x + y) == p * x + p * y
  {
  }

  // -------------------------------------------------------------- the sort

  /** The sort key `(-remainder, holder)`. */
  predicate SortsBefore(p: Piece, q: Piece) {
    p.remainder > q.remainder || (p.remainder == q.remainder && TextOrder.Before(p.holder, q.holder))
  }

  predicate Sorted(ps: seq<Piece>) {
    forall i, j :: 0 <= i < j < |ps| ==> SortsBefore(ps[i], ps[j])
  }

  predicate DistinctPieces(ps: seq<Piece>) {
    forall i, j :: 0 <= i < j < |ps| ==> ps[i].holder != ps[j].holder
  }

  lemma SortsBeforeTransitive(p: Piece, q: Piece, r: Piece)
    requires SortsBefore(p, q) && SortsBefore(q, r)
    ensures SortsBefore(p, r)
  {
    if p.remainder == q.remainder == r.remainder {
      TextOrder.Transitive(p.holder, q.holder, r.holder);
    }
  }

  function Insert(p: Piece, ps: seq<Piece>): (qs: seq<Piece>)
    ensures multiset(qs) == multiset{p} + multiset(ps)
  {
    if |ps| == 0 then [p]
    else if SortsBefore(p, ps[0]) then [p] + ps
    else
      assert ps == [ps[0]] + ps[1..];
      [ps[0]] + Insert(p, ps[1..])
  }

  function SortPieces(ps: seq<Piece>): (qs: seq<Piece>)
    ensures multiset(qs) == multiset(ps)
  {
    if |ps| == 0 then []
    else
      assert ps == [ps[0]] + ps[1..];
      Insert(ps[0], SortPieces(ps[1..]))
  }

  lemma {:induction false} InsertSorted(p: Piece, ps: seq<Piece>)
    requires Sorted(ps)
    requires forall q :: q in ps ==> q.holder != p.holder
    ensures Sorted(Insert(p, ps))
  {
    if |ps| > 0 {
      if SortsBefore(p, ps[0]) {
        forall j | 0 < j < |ps|
          ensures SortsBefore(p, ps[j])
        {
          SortsBeforeTransitive(p, ps[0], ps[j]);
        }
      } else {
        TextOrder.Total(p.holder, ps[0].holder);
        assert ps[0] in ps;
        InsertSorted(p, ps[1..]);
        var rest := Insert(p, ps[1..]);
        forall j | 0 <= j < |rest|
          ensures SortsBefore(ps[0], rest[j])
        {
          assert rest[j] in multiset(rest);
          if rest[j] != p {
            assert rest[j] in ps[1..];
          }
        }
      }
    }
  }

  lemma {:induction false} SortPiecesSorted(ps: seq<Piece>)
    requires DistinctPieces(ps)
    ensures Sorted(SortPieces(ps))
  {
    if |ps| > 0 {
      var tail := SortPieces(ps[1..]);
      SortPiecesSorted(ps[1..]);
      forall q | q in tail
        ensures q.holder != ps[0].holder
      {
        assert q in multiset(tail);
        assert q in ps[1..];
      }
      InsertSorted(ps[0], tail);
    }
  }

  /** Only one arrangement of a set of pieces is sorted. */
  lemma {:induction false} SortedIsUnique(ps: seq<Piece>, qs: seq<Piece>)
    requires Sorted(ps) && Sorted(qs)
    requires multiset(ps) == multiset(qs)
    ensures ps == qs
  {
    if |ps| == 0 {
      assert |multiset(qs)| == 0;
    } else {
      hide SortsBefore;
      assert |multiset(qs)| == |multiset(ps)|;
      SameHead(ps, qs);
      TailOf(ps);
      TailOf(qs);
      SortedIsUnique(ps[1..], qs[1..]);
      assert ps == [ps[0]] + ps[1..] && qs == [qs[0]] + qs[1..];
    }
  }

  lemma TailOf(ps: seq<Piece>)
    requires |ps| > 0
    ensures multiset(ps[1..]) == multiset(ps) - multiset{ps[0]}
  {
    assert ps == [ps[0]] + ps[1..];
  }

  /** The first pieces agree: each sorts before every other piece of its list. */
  lemma SameHead(ps: seq<Piece>, qs: seq<Piece>)
    requires Sorted(ps) && Sorted(qs) && |ps| > 0 && |qs| > 0 && multiset(ps) == multiset(qs)
    ensures ps[0] == qs[0]
  {
    if ps[0] != qs[0] {
      hide SortsBefore;
      assert ps[0] in multiset(qs) && qs[0] in multiset(ps);
      var i :| 0 <= i < |qs| && qs[i] == ps[0];
      var j :| 0 <= j < |ps| && ps[j] == qs[0];
      assert SortsBefore(qs[0], qs[i]) && SortsBefore(ps[0], ps[j]);
      SortsBeforeTransitive(ps[0], qs[0], ps[0]);
      NotBeforeItself(ps[0]);
    }
  }

  lemma NotBeforeItself(p: Piece)
    ensures !SortsBefore(p, p)
  {
    TextOrder.Irreflexive(p.holder);
  }

  // ----------------------------------------------------------- the residue

  function Bump(p: Piece): Piece { p.(amount := p.amount + 1) }

  /** The first `count` pieces each receive one more paisa. */
  function BumpFirst(ps: seq<Piece>, count: nat): (qs: seq<Piece>)
    requires count <= |ps|
    ensures |qs| == |ps|
    ensures forall i :: 0 <= i < |ps| ==> qs[i] == if i < count then Bump(ps[i]) else ps[i]
  {
    seq(|ps|, i requires 0 <= i < |ps| => if i < count then Bump(ps[i]) else ps[i])
  }

  lemma {:induction false} BumpFirstSum(ps: seq<Piece>, count: nat)
    requires count <= |ps|
    ensures SumBy(AmountOf, BumpFirst(ps, count)) == SumBy(AmountOf, ps) + count
  {
    if count == 0 {
      assert BumpFirst(ps, 0) == ps;
    } else {
      BumpFirstSum(ps, count - 1);
      assert BumpFirst(ps, count) == BumpFirst(ps, count - 1)[count - 1 := Bump(ps[count - 1])];
      SumUpdate(AmountOf, BumpFirst(ps, count - 1), count - 1, Bump(ps[count - 1]));
    }
  }

  function Residue(expense: nat, denominator: nat, ws: seq<Weighted>): int
    requires denominator > 0
  {
    expense - SumBy(AmountOf, FloorPieces(expense, denominator, ws))
  }

  function SortedFloors(expense: nat, denominator: nat, ws: seq<Weighted>): seq<Piece>
    requires denominator > 0
  {
    SortPieces(FloorPieces(expense, denominator, ws))
  }

  /** Sorting only rearranges the floors; together they miss the expense by the residue. */
  lemma SortedFloorFacts(expense: nat, denominator: nat, ws: seq<Weighted>)
    requires Splittable(ws, denominator)
    ensures var ps := SortedFloors(expense, denominator, ws);
            && |ps| == |ws|
            && Sorted(ps)
            && SumBy(AmountOf, ps) == expense - Residue(expense, denominator, ws)
            && SumBy(RemainderOf, ps) == denominator * Residue(expense, denominator, ws)
  {
    var floors := FloorPieces(expense, denominator, ws);
    var ps := SortedFloors(expense, denominator, ws);
    SortPiecesSorted(floors);
    assert |ps| == |multiset(ps)| == |floors|;
    SumPermutation(AmountOf, floors, ps);
    SumPermutation(RemainderOf, floors, ps);
    FloorSums(expense, denominator, ws);
    Distribute(denominator, expense, SumBy(AmountOf, floors));
  }

  lemma Distribute(d: int, a: int, b: int)
    ensures d * (a - b) == a * d - d * b
  {
  }

  predicate IsFloor(expense: nat, denominator: nat, p: Piece) {
    p.remainder < denominator && expense * p.weight == denominator * p.amount + p.remainder
  }

  lemma FloorPieceIsFloor(expense: nat, denominator: nat, w: Weighted)
    requires denominator > 0
    ensures IsFloor(expense, denominator, FloorPiece(expense, denominator, w))
  {
    DivMod(expense * w.weight, denominator);
  }

  /** The sorted list holds exactly the floor pieces of the weights. */
  lemma SortedFloorOrigin(expense: nat, denominator: nat, ws: seq<Weighted>, p: Piece) returns (w: Weighted)
    requires denominator > 0
    requires p in SortedFloors(expense, denominator, ws)
    ensures w in ws && p == FloorPiece(expense, denominator, w) && IsFloor(expense, denominator, p)
  {
    var floors := FloorPieces(expense, denominator, ws);
    assert p in multiset(SortPieces(floors));
    var i :| 0 <= i < |floors| && floors[i] == p;
    w := ws[i];
    FloorPieceIsFloor(expense, denominator, w);
  }

  lemma SortedFloorTarget(expense: nat, denominator: nat, ws: seq<Weighted>, w: Weighted)
    requires denominator > 0
    requires w in ws
    ensures FloorPiece(expense, denominator, w) in SortedFloors(expense, denominator, ws)
  {
    var floors := FloorPieces(expense, denominator, ws);
    var i :| 0 <= i < |ws| && ws[i] == w;
    assert floors[i] in multiset(floors);
    assert floors[i] in multiset(SortPieces(floors));
  }

  lemma SumTooSmall(d: int, r: int, n: int, total: int)
    requires d > 0 && n >= 0 && total == d * r && 0 <= total <= n * (d - 1)
    ensures 0 <= r <= n && (n > 0 ==> r < n)
  {
    MulSign(d, r);
    MulSign(d, r - n);
    assert d * (r - n) == total - d * n;
    assert n * (d - 1) == d * n - n;
  }

  /** In remainder order, a piece without a remainder would leave too little
      before it to make up the residue. */
  lemma ResidueReachesOnlyRemainders(ps: seq<Piece>, denominator: nat, residue: int)
    requires denominator > 0
    requires Sorted(ps)
    requires forall p :: p in ps ==> p.remainder < denominator
    requires SumBy(RemainderOf, ps) == denominator * residue
    ensures 0 <= residue <= |ps| && (|ps| > 0 ==> residue < |ps|)
    ensures forall i :: 0 <= i < residue ==> ps[i].remainder > 0
  {
    SumNonNegative(RemainderOf, ps);
    SumBounded(RemainderOf, ps, denominator - 1);
    SumTooSmall(denominator, residue, |ps|, SumBy(RemainderOf, ps));
    forall i | 0 <= i < residue
      ensures ps[i].remainder > 0
    {
      if ps[i].remainder == 0 {
        NothingAfterZero(ps, i);
        SumBounded(RemainderOf, ps[..i], denominator - 1);
        SumTooSmall(denominator, residue, i, SumBy(RemainderOf, ps));
        assert false;
      }
    }
  }

  lemma NothingAfterZero(ps: seq<Piece>, i: nat)
    requires Sorted(ps) && i < |ps| && ps[i].remainder == 0
    ensures SumBy(RemainderOf, ps) <= SumBy(RemainderOf, ps[..i])
  {
    var head, tail := ps[..i], ps[i..];
    assert ps == head + tail;
    SumAppend(RemainderOf, head, tail);
    forall p | p in tail
      ensures p.remainder <= 0
    {
      var k :| 0 <= k < |tail| && tail[k] == p;
      assert tail[k] == ps[i + k];
    }
    SumBounded(RemainderOf, tail, 0);
  }

  /** The bounds the residue loop relies on. */
  lemma ResidueBounds(expense: nat, denominator: nat, ws: seq<Weighted>)
    requires Splittable(ws, denominator)
    ensures var ps := SortedFloors(expense, denominator, ws);
            var residue := Residue(expense, denominator, ws);
            && |ps| == |ws|
            && 0 <= residue < |ps|
            && (forall i :: 0 <= i < residue ==> ps[i].remainder > 0)
  {
    var ps := SortedFloors(expense, denominator, ws);
    SortedFloorFacts(expense, denominator, ws);
    forall p | p in ps
      ensures p.remainder < denominator
    {
      var w := SortedFloorOrigin(expense, denominator, ws, p);
    }
    ResidueReachesOnlyRemainders(ps, denominator, Residue(expense, denominator, ws));
  }

  /** `create_call`'s split: floors, sorted, then one paisa each to the first
      `residue` of them. */
  function SplitSpec(expense: nat, denominator: nat, ws: seq<Weighted>): (ps: seq<Piece>)
    requires Splittable(ws, denominator)
  {
    ResidueBounds(expense, denominator, ws);
    BumpFirst(SortedFloors(expense, denominator, ws), Residue(expense, denominator, ws))
  }

  /** The first loop. */
  method BuildFloors(expense: nat, denominator: nat, ws: seq<Weighted>) returns (pieces: seq<Piece>, handedOut: int)
    requires denominator > 0
    ensures pieces == FloorPieces(expense, denominator, ws)
    ensures handedOut == SumBy(AmountOf, pieces)
  {
    pieces := [];
    handedOut := 0;
    for n := 0 to |ws|
      invariant pieces == FloorPieces(expense, denominator, ws[..n])
      invariant handedOut == SumBy(AmountOf, pieces)
    {
      var raw := expense * ws[n].weight;
      var amount, remainder := raw / denominator, raw % denominator;
      var piece := Piece(ws[n].holder, ws[n].weight, amount, remainder);
      SumSnoc(AmountOf, pieces, piece);
      pieces := pieces + [piece];
      handedOut := handedOut + amount;
      assert ws[..n + 1] == ws[..n] + [ws[n]];
    }
    assert ws[..|ws|] == ws;
  }

  /** The list code itself: build, sort, then hand out the residue one paisa at
      a time. The index `i % |pieces|` never wraps. */
  method Split(expense: nat, denominator: nat, ws: seq<Weighted>) returns (pieces: seq<Piece>)
    requires Splittable(ws, denominator)
    ensures pieces == SplitSpec(expense, denominator, ws)
    ensures SumBy(AmountOf, pieces) == expense
  {
    var handedOut;
    pieces, handedOut := BuildFloors(expense, denominator, ws);
    var residue := expense - handedOut;
    pieces := SortPieces(pieces);
    ghost var floors := pieces;
    SortedFloorFacts(expense, denominator, ws);
    ResidueBounds(expense, denominator, ws);
    for i := 0 to residue
      invariant pieces == BumpFirst(floors, i)
    {
      IndexDoesNotWrap(i, |pieces|);
      pieces := pieces[i % |pieces| := Bump(pieces[i % |pieces|])];
    }
    BumpFirstSum(floors, residue);
  }

  lemma IndexDoesNotWrap(i: nat, n: nat)
    requires i < n
    ensures i % n == i
  {
  }

  // ------------------------------------------------------------ properties

  /** A piece of the result and the floor piece it came from. */
  lemma PieceOrigin(expense: nat, denominator: nat, ws: seq<Weighted>, p: Piece) returns (i: nat, f: Piece, w: Weighted)
    requires Splittable(ws, denominator)
    requires p in SplitSpec(expense, denominator, ws)
    ensures i < |ws| == |SortedFloors(expense, denominator, ws)|
    ensures f == SortedFloors(expense, denominator, ws)[i] && IsFloor(expense, denominator, f)
    ensures w in ws && w == Weighted(f.holder, f.weight)
    ensures p == if i < Residue(expense, denominator, ws) then Bump(f) else f
    ensures i < Residue(expense, denominator, ws) ==> f.remainder > 0
  {
    ResidueBounds(expense, denominator, ws);
    var ps := SplitSpec(expense, denominator, ws);
    i :| 0 <= i < |ps| && ps[i] == p;
    f := SortedFloors(expense, denominator, ws)[i];
    w := SortedFloorOrigin(expense, denominator, ws, f);
  }

  /** The split hands out the expense exactly, to exactly the weighted holders. */
  lemma SplitIsExact(expense: nat, denominator: nat, ws: seq<Weighted>)
    requires Splittable(ws, denominator)
    ensures var ps := SplitSpec(expense, denominator, ws);
            && SumBy(AmountOf, ps) == expense
            && |ps| == |ws|
            && (forall p :: p in ps ==> Weighted(p.holder, p.weight) in ws)
            && (forall w :: w in ws ==> exists p :: p in ps && Weighted(p.holder, p.weight) == w)
  {
    var floors := SortedFloors(expense, denominator, ws);
    var residue := Residue(expense, denominator, ws);
    var ps := SplitSpec(expense, denominator, ws);
    SortedFloorFacts(expense, denominator, ws);
    ResidueBounds(expense, denominator, ws);
    BumpFirstSum(floors, residue);
    forall p | p in ps
      ensures Weighted(p.holder, p.weight) in ws
    {
      var _, _, w := PieceOrigin(expense, denominator, ws, p);
    }
    forall w | w in ws
      ensures exists p :: p in ps && Weighted(p.holder, p.weight) == w
    {
      SortedFloorTarget(expense, denominator, ws, w);
      var i :| 0 <= i < |floors| && floors[i] == FloorPiece(expense, denominator, w);
      assert ps[i] in ps && Weighted(ps[i].holder, ps[i].weight) == w;
    }
  }

  /** Every share is the floor or the ceiling of `expense * weight / denominator`,
      so an extra paisa goes only to a holder whose quota was cut off. */
  lemma SplitIsWithinQuota(expense: nat, denominator: nat, ws: seq<Weighted>)
    requires Splittable(ws, denominator)
    ensures forall p :: p in SplitSpec(expense, denominator, ws) ==> WithinQuota(expense, denominator, p)
  {
    hide SplitSpec, WithinQuota;
    forall p | p in SplitSpec(expense, denominator, ws) ensures WithinQuota(expense, denominator, p) {
      PieceIsWithinQuota(expense, denominator, ws, p);
    }
  }

  predicate WithinQuota(expense: nat, denominator: nat, p: Piece)
    requires denominator > 0
  {
    var quota := expense * p.weight;
    && p.amount >= 0
    && (p.amount == quota / denominator || (quota % denominator > 0 && p.amount == quota / denominator + 1))
  }

  lemma PieceIsWithinQuota(expense: nat, denominator: nat, ws: seq<Weighted>, p: Piece)
    requires Splittable(ws, denominator) && p in SplitSpec(expense, denominator, ws)
    ensures WithinQuota(expense, denominator, p)
  {
    hide SplitSpec, Splittable, WithinQuota, IsFloor, Residue, SortedFloors;
    var i, f, w := PieceOrigin(expense, denominator, ws, p);
    FloorIsWithinQuota(expense, denominator, f, p);
  }

  lemma FloorIsWithinQuota(expense: nat, denominator: nat, f: Piece, p: Piece)
    requires denominator > 0 && IsFloor(expense, denominator, f)
    requires p == f || (p == Bump(f) && f.remainder > 0)
    ensures WithinQuota(expense, denominator, p)
  {
    FloorIsQuotient(expense * f.weight, denominator, f.amount, f.remainder);
  }

  lemma FloorIsQuotient(quota: nat, denominator: nat, amount: int, remainder: nat)
    requires remainder < denominator && quota == denominator * amount + remainder
    ensures amount == quota / denominator && remainder == quota % denominator
    ensures amount >= 0
  {
    DivModUnique(quota, denominator, amount, remainder);
    MulSign(denominator, amount);
  }

  /** The piece got one of the paise left over. */
  predicate HasExtra(expense: nat, denominator: nat, p: Piece) { denominator * p.amount > expense * p.weight }

  /** Who gets the paise left over: a holder with one has a larger remainder than a holder
      without, or an equal one and an identifier that comes first in the text order. */
  lemma ExtraGoesByRank(expense: nat, denominator: nat, ws: seq<Weighted>, p: Piece, q: Piece)
    requires Splittable(ws, denominator)
    requires p in SplitSpec(expense, denominator, ws) && q in SplitSpec(expense, denominator, ws)
    requires HasExtra(expense, denominator, p) && !HasExtra(expense, denominator, q)
    ensures var r, t := expense * p.weight % denominator, expense * q.weight % denominator;
            r > t || (r == t && TextOrder.Before(p.holder, q.holder))
  {
    var i, f, _ := PieceOrigin(expense, denominator, ws, p);
    var j, g, _ := PieceOrigin(expense, denominator, ws, q);
    SortedFloorFacts(expense, denominator, ws);
    var residue := Residue(expense, denominator, ws);
    hide SplitSpec, Splittable, Residue, SortedFloors, HasExtra;
    ExtraIsBump(expense, denominator, f, p, i < residue);
    ExtraIsBump(expense, denominator, g, q, j < residue);
    assert i < residue <= j;
    assert SortsBefore(f, g);
  }

  lemma ExtraIsBump(expense: nat, denominator: nat, f: Piece, p: Piece, bumped: bool)
    requires denominator > 0 && IsFloor(expense, denominator, f) && p == if bumped then Bump(f) else f
    ensures HasExtra(expense, denominator, p) <==> bumped
    ensures f.remainder == expense * p.weight % denominator
  {
    FloorIsQuotient(expense * f.weight, denominator, f.amount, f.remainder);
    Spread(denominator, f.amount, 1);
  }

  /** A strictly larger weight never receives less. */
  lemma SplitIsMonotone(expense: nat, denominator: nat, ws: seq<Weighted>)
    requires Splittable(ws, denominator)
    ensures var ps := SplitSpec(expense, denominator, ws);
            forall p, q :: p in ps && q in ps && p.weight > q.weight ==> p.amount >= q.amount
  {
    hide SplitSpec, Splittable;
    forall p, q | p in SplitSpec(expense, denominator, ws) && q in SplitSpec(expense, denominator, ws) && p.weight > q.weight
      ensures p.amount >= q.amount
    {
      LargerWeight(expense, denominator, ws, p, q);
    }
  }

  lemma LargerWeight(expense: nat, denominator: nat, ws: seq<Weighted>, p: Piece, q: Piece)
    requires Splittable(ws, denominator)
    requires p in SplitSpec(expense, denominator, ws) && q in SplitSpec(expense, denominator, ws)
    requires p.weight > q.weight
    ensures p.amount >= q.amount
  {
    var residue := Residue(expense, denominator, ws);
    SortedFloorFacts(expense, denominator, ws);
    var i, f, _ := PieceOrigin(expense, denominator, ws, p);
    var j, g, _ := PieceOrigin(expense, denominator, ws, q);
    MulMono(expense, g.weight, f.weight);
    LargerQuota(denominator, expense * f.weight, f.amount, f.remainder, expense * g.weight, g.amount, g.remainder);
    if f.amount == g.amount && j < residue <= i {
      assert SortsBefore(g, f);
      EqualProducts(expense, f.weight, g.weight);
      NilQuota(denominator, g.amount, g.remainder);
    }
  }

  lemma NilQuota(d: int, a: int, r: int)
    requires 0 <= r < d && d * a + r == 0
    ensures r == 0
  {
    MulSign(d, a);
  }

  lemma LargerQuota(d: int, q: int, a: int, r: int, q': int, a': int, r': int)
    requires q >= q' && q == d * a + r && q' == d * a' + r' && 0 <= r < d && 0 <= r' < d
    ensures a >= a' && (a == a' ==> r >= r')
  {
    MulSign(d, a - a');
    assert d * (a - a') == d * a - d * a';
  }

  lemma EqualProducts(e: int, x: int, y: int)
    requires e * x == e * y && x > y
    ensures e == 0 && e * x == 0
  {
    assert e * (x - y) == 0;
  }

  /** The result depends on the weights only, not on dictionary order. */
  lemma SplitIgnoresOrder(expense: nat, denominator: nat, ws: seq<Weighted>, vs: seq<Weighted>)
    requires Splittable(ws, denominator) && Splittable(vs, denominator)
    requires multiset(ws) == multiset(vs)
    ensures SplitSpec(expense, denominator, ws) == SplitSpec(expense, denominator, vs)
  {
    FloorPiecesPermute(expense, denominator, ws, vs);
    SumPermutation(AmountOf, FloorPieces(expense, denominator, ws), FloorPieces(expense, denominator, vs));
    SortedFloorFacts(expense, denominator, ws);
    SortedFloorFacts(expense, denominator, vs);
    SortedIsUnique(SortedFloors(expense, denominator, ws), SortedFloors(expense, denominator, vs));
  }

  lemma {:induction false} FloorPiecesPermute(expense: nat, denominator: nat, ws: seq<Weighted>, vs: seq<Weighted>)
    requires denominator > 0
    requires multiset(ws) == multiset(vs)
    ensures multiset(FloorPieces(expense, denominator, ws)) == multiset(FloorPieces(expense, denominator, vs))
  {
    if |ws| == 0 {
      assert |multiset(vs)| == 0;
    } else {
      var a, b := Extract(ws, vs);
      FloorPiecesPermute(expense, denominator, ws[1..], a + b);
      assert ws == [] + [ws[0]] + ws[1..] && [] + ws[1..] == ws[1..];
      FloorPiecesSplice(expense, denominator, [], ws[0], ws[1..]);
      FloorPiecesSplice(expense, denominator, a, ws[0], b);
    }
  }

  lemma FloorPiecesSplice(expense: nat, denominator: nat, a: seq<Weighted>, w: Weighted, b: seq<Weighted>)
    requires denominator > 0
    ensures multiset(FloorPieces(expense, denominator, a + [w] + b))
         == multiset{FloorPiece(expense, denominator, w)} + multiset(FloorPieces(expense, denominator, a + b))
  {
    var one := FloorPiece(expense, denominator, w);
    var x, y := FloorPieces(expense, denominator, a), FloorPieces(expense, denominator, b);
    assert FloorPieces(expense, denominator, a + [w] + b) == x + [one] + y;
    assert FloorPieces(expense, denominator, a + b) == x + y;
  }

  // ------------------------------------------------------------- optimality

  /** (D*a - A*w)^2, the squared distance from the exact quota, scaled by D. */
  function Deviation(expense: nat, denominator: nat, weight: nat, amount: int): int {
    Square(denominator * amount - expense * weight)
  }

  function Square(x: int): int { x * x }

  /** The total squared deviation when the pieces' amounts are replaced by `amounts`. */
  function TotalDeviation(expense: nat, denominator: nat, ps: seq<Piece>, amounts: seq<int>): int
    requires |ps| == |amounts|
  {
    if |ps| == 0 then 0
    else Deviation(expense, denominator, ps[0].weight, amounts[0])
         + TotalDeviation(expense, denominator, ps[1..], amounts[1..])
  }

  function Total(amounts: seq<int>): int {
    if |amounts| == 0 then 0 else amounts[0] + Total(amounts[1..])
  }

  function Amounts(ps: seq<Piece>): (r: seq<int>)
    ensures |r| == |ps|
  {
    seq(|ps|, i requires 0 <= i < |ps| => ps[i].amount)
  }

  lemma SquareShift(u: int, v: int, p: int)
    ensures Square(u + v) - u * p - Square(v) == u * (u + 2 * v - p)
  {
  }

  lemma SlopeHasSign(d: int, e: int, slack: int)
    requires d > 0
    requires e >= 1 ==> d * e + slack >= 0
    requires e <= -1 ==> d * e + slack <= 0
    ensures (d * e) * (d * e + slack) >= 0
  {
    MulSign(d, e);
    if e >= 1 {
      MulNonNegative(d * e, d * e + slack);
    } else if e <= -1 {
      MulNonNegative(-(d * e), -(d * e + slack));
    }
  }

  /** Moving a share by `e` away from the chosen amount costs at least the price:
      `delta` is the chosen amount's own distance from the quota. */
  lemma MoveCosts(d: int, e: int, delta: int, t: int)
    requires d > 0
    requires e >= 1 ==> d * e + (2 * delta - (d - 2 * t)) >= 0
    requires e <= -1 ==> d * e + (2 * delta - (d - 2 * t)) <= 0
    ensures Square(d * e + delta) - d * (d - 2 * t) * e >= Square(delta)
  {
    SquareShift(d * e, delta, d - 2 * t);
    SlopeHasSign(d, e, 2 * delta - (d - 2 * t));
    assert d * e * (d - 2 * t) == d * (d - 2 * t) * e;
  }

  /** One holder's cost, minus a price per paisa, is least at the chosen amount:
      the price is set by the remainder at which the residue ran out. */
  lemma PointwiseBest(d: int, quota: int, floor: int, remainder: int, bumped: bool, t: int, x: int)
    requires 0 <= remainder < d && quota == d * floor + remainder
    requires 0 <= t <= d
    requires if bumped then remainder >= t else remainder <= t
    ensures var a := if bumped then floor + 1 else floor;
            var price := d * (d - 2 * t);
            Square(d * x - quota) - price * x >= Square(d * a - quota) - price * a
  {
    var a := if bumped then floor + 1 else floor;
    var e := x - a;
    var delta := if bumped then d - remainder else -remainder;
    assert d * a - quota == delta;
    assert d * x - quota == d * e + delta by {
      assert d * x == d * a + d * e;
    }
    MulSign(d, e);
    MoveCosts(d, e, delta, t);
    Subtract(d * (d - 2 * t), x, a);
  }

  lemma Subtract(p: int, x: int, a: int)
    ensures p * (x - a) == p * x - p * a
  {
  }

  lemma {:induction false} SummedBest(
    expense: nat, denominator: nat, floors: seq<Piece>, ps: seq<Piece>, threshold: nat, xs: seq<int>)
    requires denominator > 0 && threshold <= denominator
    requires |floors| == |ps| == |xs|
    requires forall i :: 0 <= i < |ps| ==> IsFloor(expense, denominator, floors[i])
    requires forall i :: 0 <= i < |ps| ==>
               || (ps[i] == Bump(floors[i]) && floors[i].remainder >= threshold)
               || (ps[i] == floors[i] && floors[i].remainder <= threshold)
    ensures var price := denominator * (denominator - 2 * threshold);
            TotalDeviation(expense, denominator, ps, xs) - price * Total(xs)
            >= TotalDeviation(expense, denominator, ps, Amounts(ps)) - price * Total(Amounts(ps))
  {
    if |ps| > 0 {
      var price := denominator * (denominator - 2 * threshold);
      SummedBest(expense, denominator, floors[1..], ps[1..], threshold, xs[1..]);
      assert Amounts(ps)[1..] == Amounts(ps[1..]);
      var f := floors[0];
      PointwiseBest(denominator, expense * f.weight, f.amount, f.remainder, ps[0] == Bump(f), threshold, xs[0]);
      Spread(price, xs[0], Total(xs[1..]));
      Spread(price, ps[0].amount, Total(Amounts(ps[1..])));
    }
  }

  lemma {:induction false} TotalOfAmounts(ps: seq<Piece>)
    ensures Total(Amounts(ps)) == SumBy(AmountOf, ps)
  {
    if |ps| > 0 {
      TotalOfAmounts(ps[1..]);
      assert Amounts(ps)[1..] == Amounts(ps[1..]);
    }
  }

  /** Optimality: no integer amounts with the same total are closer to the exact
      quotas in the sum of squares. */
  lemma SplitIsOptimal(expense: nat, denominator: nat, ws: seq<Weighted>, xs: seq<int>)
    requires Splittable(ws, denominator)
    requires |xs| == |SplitSpec(expense, denominator, ws)|
    requires Total(xs) == expense
    ensures var ps := SplitSpec(expense, denominator, ws);
            TotalDeviation(expense, denominator, ps, Amounts(ps)) <= TotalDeviation(expense, denominator, ps, xs)
  {
    var floors := SortedFloors(expense, denominator, ws);
    var residue := Residue(expense, denominator, ws);
    var ps := SplitSpec(expense, denominator, ws);
    SplitIsExact(expense, denominator, ws);
    var threshold := CutOff(expense, denominator, ws);
    SummedBest(expense, denominator, floors, ps, threshold, xs);
    TotalOfAmounts(ps);
  }

  lemma AllFloors(expense: nat, denominator: nat, ws: seq<Weighted>)
    requires denominator > 0
    ensures var floors := SortedFloors(expense, denominator, ws);
            forall i :: 0 <= i < |floors| ==> IsFloor(expense, denominator, floors[i])
  {
    var floors := SortedFloors(expense, denominator, ws);
    forall i | 0 <= i < |floors|
      ensures IsFloor(expense, denominator, floors[i])
    {
      var w := SortedFloorOrigin(expense, denominator, ws, floors[i]);
    }
  }

  /** The remainder that separates those who received an extra paisa. */
  lemma CutOff(expense: nat, denominator: nat, ws: seq<Weighted>) returns (threshold: nat)
    requires Splittable(ws, denominator)
    ensures threshold <= denominator
    ensures var floors := SortedFloors(expense, denominator, ws);
            var ps := SplitSpec(expense, denominator, ws);
            && |floors| == |ps|
            && (forall i :: 0 <= i < |ps| ==> IsFloor(expense, denominator, floors[i]))
            && (forall i :: 0 <= i < |ps| ==>
                  || (ps[i] == Bump(floors[i]) && floors[i].remainder >= threshold)
                  || (ps[i] == floors[i] && floors[i].remainder <= threshold))
  {
    hide SortedFloors, Residue, DistinctHolders;
    SortedFloorFacts(expense, denominator, ws);
    ResidueBounds(expense, denominator, ws);
    AllFloors(expense, denominator, ws);
    threshold := SortedCut(SortedFloors(expense, denominator, ws), Residue(expense, denominator, ws), denominator);
  }

  /** In a sorted list the last of the first `count` remainders separates them
      from the rest. */
  lemma SortedCut(ps: seq<Piece>, count: nat, top: nat) returns (threshold: nat)
    requires Sorted(ps) && count < |ps|
    requires forall i :: 0 <= i < |ps| ==> ps[i].remainder <= top
    ensures threshold <= top
    ensures forall i :: 0 <= i < count ==> ps[i].remainder >= threshold
    ensures forall i :: count <= i < |ps| ==> ps[i].remainder <= threshold
  {
    threshold := if count == 0 then top else ps[count - 1].remainder;
    if count > 0 {
      forall i | 0 <= i < |ps|
        ensures if i < count then ps[i].remainder >= threshold else ps[i].remainder <= threshold
      {
        if i < count - 1 {
          assert SortsBefore(ps[i], ps[count - 1]);
        } else if i >= count {
          assert SortsBefore(ps[count - 1], ps[i]);
        }
      }
    }
  }
}
