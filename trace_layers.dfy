/** The layers of a spine as a sequence of `MergeState`, index 0 being the
    smallest layer, and the facts the spine relies on about them:

    - the batches of all layers, read from the highest layer down, are
      adjacent intervals, and the hollow batches they stand for are exactly
      those ever inserted, in order;
    - no layer is "invaded": a merge at layer `k` sits above less than `2^k`
      units of capacity, and the work it still needs is at most four times
      the capacity left before it would be invaded. This is what makes the
      fuel handed out per insertion enough to finish every merge before a
      batch is pushed into its layer. */
module TraceLayers {
  import opened Wrappers
  import opened PowerOfTwo
  import opened TraceBatch

  /** The spine keeps fewer than 2^59 updates, so that the fuel `8 << level` of
      any insertion fits an `isize` and `isize::MAX` fuel finishes any merge. */
  const LEN_BOUND: nat := 0x800_0000_0000_0000

  function OptSeq(b: Option<SpineBatch>): seq<SpineBatch> {
    if b.Some? then [b.value] else []
  }

  /** The number of updates in an optional batch; `None` holds none. */
  function OptLen(b: Option<SpineBatch>): nat {
    if b.Some? then b.value.Len() else 0
  }

  /** The batches a layer shows to `map_batches`, older first. */
  function LayerBatches(s: MergeState): seq<SpineBatch> {
    match s
    case Single(Some(b)) => [b]
    case Double(InProgress(b1, b2, _)) => [b1, b2]
    case Double(Complete(Some(c))) => [c.batch]
    case _ => []
  }

  /** The batches of all layers, from the highest (oldest) layer down. */
  function Flatten(m: seq<MergeState>): seq<SpineBatch> {
    if m == [] then [] else Flatten(m[1..]) + LayerBatches(m[0])
  }

  /** The hollow batches a sequence of batches stands for, in order. */
  function AllParts(bs: seq<SpineBatch>): seq<HollowBatch> {
    if bs == [] then [] else bs[0].Parts() + AllParts(bs[1..])
  }

  /** Batch `i` starts where batch `i - 1` ends. */
  predicate Linked(bs: seq<SpineBatch>, i: nat)
    requires 0 < i < |bs|
  {
    bs[i - 1].Upper() == bs[i].Lower()
  }

  /** Each batch starts where the previous one ends. */
  ghost predicate Chain(bs: seq<SpineBatch>) {
    forall i | 0 < i < |bs| :: Linked(bs, i)
  }

  /** The batches chain from `lo` to `hi`; no batches cover only `lo == hi`. */
  ghost predicate Covers(bs: seq<SpineBatch>, lo: Frontier, hi: Frontier) {
    if bs == [] then lo == hi
    else bs[0].Lower() == lo && bs[|bs| - 1].Upper() == hi && Chain(bs)
  }

  /** `b` is `a` with some adjacent batches merged: the same hollow batches in
      the same order, over the same interval, still chained if `a` was. */
  ghost predicate Regrouped(a: seq<SpineBatch>, b: seq<SpineBatch>) {
    && AllParts(a) == AllParts(b)
    && (|a| == 0 <==> |b| == 0)
    && (|a| > 0 ==> a[0].Lower() == b[0].Lower() && a[|a| - 1].Upper() == b[|b| - 1].Upper())
    && (Chain(a) ==> Chain(b))
  }

  /** The number of updates held by all layers. */
  function TotalLen(m: seq<MergeState>): nat {
    SumLen(AllParts(Flatten(m)))
  }

  /** The capacity a layer claims: `1 << j` for a single batch and `2 << j`
      for a merge, as counted by `tidy_layers`. */
  function Acc(s: MergeState, j: nat): nat {
    match s
    case Vacant => 0
    case Single(_) => Pow2(j)
    case Double(_) => 2 * Pow2(j)
  }

  /** The capacity claimed by the layers below `k`. */
  function Below(m: seq<MergeState>, k: nat): nat
    requires k <= |m|
  {
    if k == 0 then 0 else Below(m, k - 1) + Acc(m[k - 1], k - 1)
  }

  /** The size bounds of a layer `s` at index `k` over `below` units of claimed
      capacity: batches are no larger than their layer, and a merge is not
      invaded and needs at most four units of work per unit of capacity left. */
  predicate LayerOkAt(s: MergeState, k: nat, below: nat) {
    match s
    case Vacant => true
    case Single(b) => b.Some? ==> b.value.Len() <= Pow2(k)
    case Double(InProgress(b1, b2, fm)) =>
      below < Pow2(k) && b1.Len() <= Pow2(k) && b2.Len() <= Pow2(k)
      && fm.Remaining() <= 4 * (Pow2(k) - below)
    case Double(Complete(r)) =>
      below < Pow2(k) && (r.Some? ==> r.value.batch.Len() <= 2 * Pow2(k))
  }

  ghost predicate LayerOk(m: seq<MergeState>, k: nat)
    requires k < |m|
  {
    LayerOkAt(m[k], k, Below(m, k))
  }

  /** The invariant of the spine's layers. */
  ghost predicate LayersOk(m: seq<MergeState>) {
    && (forall k | 0 <= k < |m| :: m[k].WellFormed() && LayerOk(m, k))
    && Chain(Flatten(m))
    && TotalLen(m) < LEN_BOUND
  }

  /** After `apply_fuel` with `fuel`: no merge waits to be drained, and every
      merge still in progress has taken `fuel` units of work without using up
      its allowance. */
  ghost predicate Settled(m: seq<MergeState>, k: nat, fuel: int)
    requires k < |m|
  {
    match m[k]
    case Double(Complete(_)) => false
    case Double(InProgress(_, _, fm)) =>
      fm.progress >= fuel && fm.Remaining() + fuel <= 4 * (Pow2(k) - Below(m, k))
    case _ => true
  }

  ghost predicate NoDoubles(m: seq<MergeState>) {
    forall k | 0 <= k < |m| :: !m[k].Double?
  }

  /** `m` extended with vacant layers until it has a layer `index`. */
  function Grow(m: seq<MergeState>, index: nat): (r: seq<MergeState>)
    ensures |r| == if index < |m| then |m| else index + 1
    ensures r[..|m|] == m
    ensures forall j | 0 <= j < |m| :: r[j] == m[j]
    ensures forall j | |m| <= j < |r| :: r[j] == Vacant
  {
    if index < |m| then m else m + seq(index + 1 - |m|, _ => Vacant)
  }

  /** A batch may go into layer `s` if the layer is not merging, and if both the
      layer's batch and the new one are real, the new one starts where the
      layer's ends. */
  predicate Insertable(s: MergeState, b: Option<SpineBatch>) {
    && !s.Double?
    && (s.Single? && s.batch.Some? && b.Some? ==> s.batch.value.Upper() == b.value.Lower())
  }

  /** The layer after the batch `b` is inserted into it. */
  function InsertLayer(s: MergeState, b: Option<SpineBatch>, since: Frontier): MergeState
    requires Insertable(s, b)
  {
    match s
    case Vacant => Single(b)
    case Single(older) => BeginMergeState(older, b, Some(since))
  }

  /** The layers after the batch `b` is inserted at layer `index`. */
  function InsertAtSeq(m: seq<MergeState>, b: Option<SpineBatch>, index: nat, since: Frontier): seq<MergeState>
    requires index < |m| ==> Insertable(m[index], b)
  {
    var g := Grow(m, index);
    g[index := InsertLayer(g[index], b, since)]
  }

  // ---------------------------------------------------------------------------
  // Sequences of batches

  lemma {:induction false} AllPartsAppend(a: seq<SpineBatch>, b: seq<SpineBatch>)
    ensures AllParts(a + b) == AllParts(a) + AllParts(b)
  {
    if a != [] {
      assert (a + b)[1..] == a[1..] + b;
      AllPartsAppend(a[1..], b);
    } else {
      assert a + b == b;
    }
  }

  lemma {:induction false} AllPartsSingle(b: SpineBatch)
    ensures AllParts([b]) == b.Parts()
  {
    assert [b][1..] == [];
  }

  lemma {:induction false} ChainAppend(a: seq<SpineBatch>, b: seq<SpineBatch>)
    ensures Chain(a + b) <==>
      Chain(a) && Chain(b) && (|a| > 0 && |b| > 0 ==> a[|a| - 1].Upper() == b[0].Lower())
  {
    var ab := a + b;
    if Chain(a) && Chain(b) && (|a| > 0 && |b| > 0 ==> a[|a| - 1].Upper() == b[0].Lower()) {
      forall i | 0 < i < |ab| ensures Linked(ab, i) {
        if i < |a| {
          assert ab[i - 1] == a[i - 1] && ab[i] == a[i];
          assert Linked(a, i);
        } else if i == |a| {
          assert ab[i - 1] == a[|a| - 1] && ab[i] == b[0];
        } else {
          assert ab[i - 1] == b[i - 1 - |a|] && ab[i] == b[i - |a|];
          assert Linked(b, i - |a|);
        }
      }
    }
    if Chain(ab) {
      forall i | 0 < i < |a| ensures Linked(a, i) {
        assert ab[i - 1] == a[i - 1] && ab[i] == a[i];
        assert Linked(ab, i);
      }
      forall i | 0 < i < |b| ensures Linked(b, i) {
        assert ab[|a| + i - 1] == b[i - 1] && ab[|a| + i] == b[i];
        assert Linked(ab, |a| + i);
      }
      if |a| > 0 && |b| > 0 {
        assert ab[|a| - 1] == a[|a| - 1] && ab[|a|] == b[0];
        assert Linked(ab, |a|);
      }
    }
  }

  /** Where two chained runs meet, the first ends where the second starts. */
  lemma {:induction false} ChainJoin(a: seq<SpineBatch>, b: seq<SpineBatch>)
    requires Chain(a + b) && |a| > 0 && |b| > 0
    ensures a[|a| - 1].Upper() == b[0].Lower()
  {
    assert (a + b)[|a| - 1] == a[|a| - 1] && (a + b)[|a|] == b[0];
    assert Linked(a + b, |a|);
  }

  /** Where the two middle runs of a chain meet, the first ends where the second starts. */
  lemma {:induction false} ChainMeet(a: seq<SpineBatch>, b: seq<SpineBatch>, c: seq<SpineBatch>, d: seq<SpineBatch>)
    requires Chain(a + b + c + d) && |b| > 0 && |c| > 0
    ensures b[|b| - 1].Upper() == c[0].Lower()
  {
    var s := a + b + c + d;
    assert s[|a| + |b| - 1] == b[|b| - 1];
    assert s[|a| + |b|] == c[0];
    assert Linked(s, |a| + |b|);
  }

  /** Regrouping a run of batches regroups any sequence the run sits in. */
  lemma {:induction false} RegroupedInContext(x: seq<SpineBatch>, a: seq<SpineBatch>, b: seq<SpineBatch>, y: seq<SpineBatch>)
    requires Regrouped(a, b)
    ensures Regrouped(x + a + y, x + b + y)
  {
    if a == [] {
      assert b == [];
    } else {
      AllPartsAppend(x, a);
      AllPartsAppend(x + a, y);
      AllPartsAppend(x, b);
      AllPartsAppend(x + b, y);
      var xay, xby := x + a + y, x + b + y;
      assert xay[0].Lower() == xby[0].Lower() by {
        if x == [] {
          assert xay[0] == a[0] && xby[0] == b[0];
        }
      }
      assert xay[|xay| - 1].Upper() == xby[|xby| - 1].Upper() by {
        if y == [] {
          assert xay[|xay| - 1] == a[|a| - 1] && xby[|xby| - 1] == b[|b| - 1];
        }
      }
      if Chain(xay) {
        ChainAppend(x + a, y);
        ChainAppend(x, a);
        ChainAppend(x, b);
        ChainAppend(x + b, y);
        assert (x + a)[|x + a| - 1] == a[|a| - 1];
        assert (x + b)[|x + b| - 1] == b[|b| - 1];
      }
    }
  }

  lemma {:induction false} RegroupedTransitive(a: seq<SpineBatch>, b: seq<SpineBatch>, c: seq<SpineBatch>)
    requires Regrouped(a, b) && Regrouped(b, c)
    ensures Regrouped(a, c)
  {
  }

  /** Regrouping keeps the interval a sequence covers. */
  lemma {:induction false} RegroupedCovers(a: seq<SpineBatch>, b: seq<SpineBatch>, lo: Frontier, hi: Frontier)
    requires Regrouped(a, b) && Covers(a, lo, hi)
    ensures Covers(b, lo, hi)
  {
  }

  lemma {:induction false} CoversAppendOne(a: seq<SpineBatch>, b: SpineBatch, lo: Frontier)
    requires Covers(a, lo, b.Lower())
    ensures Covers(a + [b], lo, b.Upper())
  {
    ChainAppend(a, [b]);
    if a == [] {
      assert a + [b] == [b];
    }
  }

  // ---------------------------------------------------------------------------
  // Flattening layers

  lemma {:induction false} FlattenSplit(m: seq<MergeState>, k: nat)
    requires k <= |m|
    ensures Flatten(m) == Flatten(m[k..]) + Flatten(m[..k])
  {
    if k == 0 {
      assert m[0..] == m;
      assert m[..0] == [];
    } else {
      FlattenSplit(m[1..], k - 1);
      assert m[1..][k - 1..] == m[k..];
      assert m[1..][..k - 1] == m[..k][1..];
      assert m[..k][0] == m[0];
    }
  }

  /** The layers from `j` up: those above `j`, then layer `j`. */
  lemma {:induction false} FlattenTail(m: seq<MergeState>, j: nat)
    requires j < |m|
    ensures Flatten(m[j..]) == Flatten(m[j + 1..]) + LayerBatches(m[j])
  {
    assert m[j..][1..] == m[j + 1..];
  }

  /** The layers above `p`, then layer `p`, then the layers below it. */
  lemma {:induction false} FlattenAt(m: seq<MergeState>, p: nat)
    requires p < |m|
    ensures Flatten(m) == Flatten(m[p + 1..]) + LayerBatches(m[p]) + Flatten(m[..p])
  {
    FlattenSplit(m, p);
    assert m[p..][1..] == m[p + 1..];
  }

  lemma {:induction false} FlattenVacant(m: seq<MergeState>)
    requires forall j | 0 <= j < |m| :: m[j].Vacant?
    ensures Flatten(m) == []
  {
    if m != [] {
      FlattenVacant(m[1..]);
    }
  }

  lemma {:induction false} FlattenGrow(m: seq<MergeState>, index: nat)
    ensures Flatten(Grow(m, index)) == Flatten(m)
  {
    var g := Grow(m, index);
    FlattenSplit(g, |m|);
    FlattenVacant(g[|m|..]);
  }

  /** Flattening after replacing layer `p` by `s`. */
  lemma {:induction false} FlattenUpdate(m: seq<MergeState>, p: nat, s: MergeState)
    requires p < |m|
    ensures Flatten(m[p := s]) == Flatten(m[p + 1..]) + LayerBatches(s) + Flatten(m[..p])
  {
    FlattenAt(m[p := s], p);
    assert m[p := s][p + 1..] == m[p + 1..];
    assert m[p := s][..p] == m[..p];
  }

  /** Inserting into a layer appends the batch to what the layer shows. */
  lemma {:induction false} InsertLayerBatches(s: MergeState, b: Option<SpineBatch>, since: Frontier)
    requires Insertable(s, b)
    ensures LayerBatches(InsertLayer(s, b, since)) == LayerBatches(s) + OptSeq(b)
  {
  }

  /** Inserting into a layer adds the batch's updates to the layer's. */
  lemma {:induction false} InsertLayerLen(s: MergeState, b: Option<SpineBatch>, since: Frontier)
    requires Insertable(s, b)
    ensures InsertLayer(s, b, since).Len() == s.Len() + OptLen(b)
  {
    InsertLayerBatches(s, b, since);
    LayerLenParts(s);
    LayerLenParts(InsertLayer(s, b, since));
    AllPartsAppend(LayerBatches(s), OptSeq(b));
    SumLenAppend(AllParts(LayerBatches(s)), AllParts(OptSeq(b)));
    if b.Some? {
      AllPartsSingle(b.value);
    }
  }

  /** Inserting at a layer that exists changes that layer alone. */
  lemma {:induction false} InsertAtWithin(m: seq<MergeState>, b: Option<SpineBatch>, index: nat, since: Frontier)
    requires index < |m| && Insertable(m[index], b)
    ensures InsertAtSeq(m, b, index, since) == m[index := InsertLayer(m[index], b, since)]
  {
    assert Grow(m, index) == m;
  }

  /** A layer's length is the length of the hollow batches it shows. */
  lemma {:induction false} LayerLenParts(s: MergeState)
    ensures SumLen(AllParts(LayerBatches(s))) == s.Len()
  {
    match s
    case Single(Some(b)) =>
      AllPartsSingle(b);
    case Double(InProgress(b1, b2, _)) =>
      AllPartsAppend([b1], [b2]);
      assert [b1] + [b2] == [b1, b2];
      AllPartsSingle(b1);
      AllPartsSingle(b2);
      SumLenAppend(b1.Parts(), b2.Parts());
    case Double(Complete(Some(c))) =>
      AllPartsSingle(c.batch);
    case _ =>
  }

  /** The length of the layers above `p`, of layer `p` and of those below. */
  lemma {:induction false} TotalLenAt(m: seq<MergeState>, p: nat)
    requires p < |m|
    ensures TotalLen(m) == SumLen(AllParts(Flatten(m[p + 1..]))) + m[p].Len() + SumLen(AllParts(Flatten(m[..p])))
  {
    FlattenAt(m, p);
    var x, y, z := Flatten(m[p + 1..]), LayerBatches(m[p]), Flatten(m[..p]);
    AllPartsAppend(x + y, z);
    AllPartsAppend(x, y);
    SumLenAppend(AllParts(x) + AllParts(y), AllParts(z));
    SumLenAppend(AllParts(x), AllParts(y));
    LayerLenParts(m[p]);
  }

  lemma {:induction false} LayerLenBound(m: seq<MergeState>, p: nat)
    requires p < |m|
    ensures m[p].Len() <= TotalLen(m)
  {
    TotalLenAt(m, p);
  }

  // ---------------------------------------------------------------------------
  // Capacity accounting

  /** Layers claiming the same capacity over `[p, k)` change `Below` equally at
      `p` and at `k`. */
  lemma {:induction false} BelowDelta(m: seq<MergeState>, m': seq<MergeState>, p: nat, k: nat)
    requires p <= k <= |m| && k <= |m'|
    requires forall j | p <= j < k :: Acc(m[j], j) == Acc(m'[j], j)
    ensures Below(m', k) + Below(m, p) == Below(m, k) + Below(m', p)
  {
    if k > p {
      BelowDelta(m, m', p, k - 1);
    }
  }

  lemma {:induction false} BelowSame(m: seq<MergeState>, m': seq<MergeState>, k: nat)
    requires k <= |m| && k <= |m'|
    requires forall j | 0 <= j < k :: Acc(m[j], j) == Acc(m'[j], j)
    ensures Below(m', k) == Below(m, k)
  {
    BelowDelta(m, m', 0, k);
  }

  /** `m'` claims the same capacity below `k` as `m`. */
  ghost predicate BelowKept(m: seq<MergeState>, m': seq<MergeState>, k: nat)
    requires k <= |m| && k <= |m'|
  {
    Below(m', k) == Below(m, k)
  }

  /** `m'` claims less than `bound` more capacity below `k` than `m`. */
  ghost predicate BelowWithin(m: seq<MergeState>, m': seq<MergeState>, k: nat, bound: nat)
    requires k <= |m| && k <= |m'|
  {
    Below(m', k) < Below(m, k) + bound
  }

  /** Without merges below `k`, the layers below claim less than `2^k`. */
  lemma {:induction false} BelowNoDoubles(m: seq<MergeState>, k: nat)
    requires k <= |m|
    requires forall j | 0 <= j < k :: !m[j].Double?
    ensures Below(m, k) < Pow2(k)
  {
    if k > 0 {
      BelowNoDoubles(m, k - 1);
    }
  }

  /** A merge at layer `i` claims all the capacity layer `i + 1` could
      tolerate, so the invariant never has merges in adjacent layers: this is
      why `insert_at` never meets a merge when draining a completed one. */
  lemma {:induction false} NoAdjacentDoubles(m: seq<MergeState>, i: nat)
    requires LayersOk(m)
    requires i + 1 < |m| && m[i].Double?
    ensures !m[i + 1].Double?
  {
    assert LayerOk(m, i + 1);
  }

  /** Every merge in progress needs less work than `isize::MAX`, so
      `MergeVariant::complete` never panics on a valid spine. */
  lemma {:induction false} RemainingBound(m: seq<MergeState>, k: nat)
    requires LayersOk(m) && k < |m|
    requires m[k].Double? && m[k].variant.InProgress?
    ensures m[k].variant.merge.Remaining() < ISIZE_MAX
  {
    assert m[k].WellFormed();
    LayerLenBound(m, k);
  }
}
