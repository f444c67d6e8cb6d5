/** The fueled merge spine of a persist trace: a stack of layers in which
    layer `k` holds batches of about `2^k` updates, merges progress in
    proportion to the updates inserted, and every inserted update stays in
    the trace, in order. */
module TraceSpine {
  import opened Wrappers
  import opened PowerOfTwo
  import opened TraceBatch
  import opened TraceLayers
  import opened TraceSteps

  /** Rust's `x << s` on a 64-bit `usize`: bits shifted past the top are lost. */
  function ShlUsize(x: nat, s: nat): (r: nat)
    requires s < 64
    ensures r < USIZE_MODULUS
    ensures x * Pow2(s) < USIZE_MODULUS ==> r == x * Pow2(s)
  {
    (x * Pow2(s)) % USIZE_MODULUS
  }

  /** `merging.iter().position(|m| !m.is_vacant())`: the lowest occupied layer. */
  function FirstOccupied(m: seq<MergeState>): (r: Option<nat>)
    ensures r.Some? ==> r.value < |m| && !m[r.value].Vacant?
                        && forall j | 0 <= j < r.value :: m[j].Vacant?
    ensures r.None? ==> forall j | 0 <= j < |m| :: m[j].Vacant?
  {
    if m == [] then None
    else if !m[0].Vacant? then Some(0)
    else
      var r := FirstOccupied(m[1..]);
      if r.Some? then Some(r.value + 1) else None
  }

  /** The number of layers holding updates. */
  function NonEmptyLayers(m: seq<MergeState>): nat {
    if m == [] then 0
    else NonEmptyLayers(m[..|m| - 1]) + (if m[|m| - 1].Len() > 0 then 1 else 0)
  }

  /** The number of batches holding updates. */
  function NonEmptyBatches(bs: seq<SpineBatch>): nat {
    if bs == [] then 0
    else (if bs[0].Len() > 0 then 1 else 0) + NonEmptyBatches(bs[1..])
  }

  lemma {:induction false} NonEmptyBatchesAppend(a: seq<SpineBatch>, b: seq<SpineBatch>)
    ensures NonEmptyBatches(a + b) == NonEmptyBatches(a) + NonEmptyBatches(b)
  {
    if a != [] {
      assert (a + b)[1..] == a[1..] + b;
      NonEmptyBatchesAppend(a[1..], b);
    } else {
      assert a + b == b;
    }
  }

  lemma {:induction false} NonEmptyLayersPrefix(m: seq<MergeState>, i: nat)
    requires i <= |m|
    ensures NonEmptyLayers(m[..i]) <= NonEmptyLayers(m)
    decreases |m|
  {
    if i < |m| {
      assert m[..|m| - 1][..i] == m[..i];
      NonEmptyLayersPrefix(m[..|m| - 1], i);
    } else {
      assert m[..i] == m;
    }
  }

  /** Without merges in progress, the non-empty layers are the non-empty batches. */
  lemma {:induction false} NonEmptyLayersBatches(m: seq<MergeState>)
    requires NoDoubles(m)
    ensures NonEmptyLayers(m) == NonEmptyBatches(Flatten(m))
  {
    if m != [] {
      var n := |m| - 1;
      FlattenSplit(m, n);
      assert m[n..] == [m[n]];
      FlattenOne(m[n]);
      NonEmptyBatchesAppend(LayerBatches(m[n]), Flatten(m[..n]));
      NonEmptyLayersBatches(m[..n]);
      match m[n]
      case Vacant =>
      case Single(b) =>
        if b.Some? {
          assert LayerBatches(m[n]) == [b.value];
          assert NonEmptyBatches([b.value]) == (if b.value.Len() > 0 then 1 else 0);
        }
    }
  }

  /** A spine whose batches cover `lo..hi` and hold the parts `history`, with
      one more batch appended and the whole regrouped, covers `lo..` the new
      batch's upper and holds the new batch's parts after `history`. */
  lemma {:induction false} AppendedBatch(before: seq<SpineBatch>, after: seq<SpineBatch>, batch: SpineBatch,
                      lo: Frontier, history: seq<HollowBatch>)
    requires Covers(before, lo, batch.Lower()) && AllParts(before) == history
    requires Regrouped(before + [batch], after)
    ensures Covers(after, lo, batch.Upper())
    ensures AllParts(after) == history + batch.Parts()
  {
    CoversAppendOne(before, batch, lo);
    RegroupedCovers(before + [batch], after, lo, batch.Upper());
    AllPartsAppend(before, [batch]);
    AllPartsSingle(batch);
  }

  /** Replacing the lowest occupied layer by a single batch that regroups
      its batches and one more appends that batch to the trace. */
  lemma {:induction false} FuseFlatten(m: seq<MergeState>, p: nat, batch: SpineBatch, r: Option<SpineBatch>)
    requires p < |m|
    requires forall j | 0 <= j < p :: m[j].Vacant?
    requires Regrouped(LayerBatches(m[p]) + [batch], OptSeq(r))
    ensures Regrouped(Flatten(m) + [batch], Flatten(m[p := Single(r)]))
  {
    var high := Flatten(m[p + 1..]);
    FlattenAt(m, p);
    FlattenVacant(m[..p]);
    FlattenUpdate(m, p, Single(r));
    assert LayerBatches(Single(r)) == OptSeq(r);
    RegroupedInContext(high, LayerBatches(m[p]) + [batch], OptSeq(r), []);
    assert Flatten(m) + [batch] == high + (LayerBatches(m[p]) + [batch]) + [];
    assert Flatten(m[p := Single(r)]) == high + OptSeq(r) + [];
  }

  /** Regrouping the trace's batches followed by an empty batch keeps the
      number of updates. */
  lemma {:induction false} FuseTotalLen(m: seq<MergeState>, m': seq<MergeState>, batch: SpineBatch)
    requires Regrouped(Flatten(m) + [batch], Flatten(m')) && batch.Len() == 0
    ensures TotalLen(m') == TotalLen(m)
  {
    AllPartsAppend(Flatten(m), [batch]);
    AllPartsSingle(batch);
    SumLenAppend(AllParts(Flatten(m)), batch.Parts());
  }

  /** A layer keeps its bounds when another single layer replaces a single
      layer with an empty batch. */
  lemma {:induction false} FuseLayerOk(m: seq<MergeState>, m': seq<MergeState>, p: nat, k: nat)
    requires p < |m| && m[p].Single? && k < |m| == |m'|
    requires m'[p].Single? && m'[p].Len() == 0
    requires forall j | 0 <= j < |m| && j != p :: m'[j] == m[j]
    requires m[k].WellFormed() && LayerOk(m, k)
    ensures m'[k].WellFormed() && LayerOk(m', k)
  {
    BelowSame(m, m', k);
  }

  /** Fusing an empty batch into the lowest occupied layer, when that layer
      holds a single empty batch, keeps the layers' bounds and appends the
      batch to the trace. */
  lemma {:induction false} FuseEmpty(m: seq<MergeState>, p: nat, batch: SpineBatch, r: Option<SpineBatch>)
    requires LayersOk(m) && p < |m|
    requires forall j | 0 <= j < p :: m[j].Vacant?
    requires m[p].Single? && batch.Len() == 0
    requires Chain(Flatten(m) + [batch])
    requires Regrouped(LayerBatches(m[p]) + [batch], OptSeq(r))
    requires OptLen(r) == 0
    ensures LayersOk(m[p := Single(r)])
    ensures Regrouped(Flatten(m) + [batch], Flatten(m[p := Single(r)]))
  {
    var m' := m[p := Single(r)];
    FuseFlatten(m, p, batch, r);
    FuseTotalLen(m, m', batch);
    forall k | 0 <= k < |m'|
      ensures m'[k].WellFormed() && LayerOk(m', k)
    {
      FuseLayerOk(m, m', p, k);
    }
    LayersOkIntro(m');
  }

  /** The state of `apply_fuel` before layer `index`: the layers keep their
      bounds and regroup the batches they started with, the layers below
      `index` are settled, and without merges nothing has changed. */
  ghost predicate Fueling(m0: seq<MergeState>, m: seq<MergeState>, n: nat, index: nat, fuel: int) {
    && index <= n
    && LayersOk(m)
    && (|m| == n || (|m| == n + 1 && index == n && !m[n].Double?))
    && Regrouped(Flatten(m0), Flatten(m))
    && (fuel >= 0 ==> forall k | 0 <= k < index :: Settled(m, k, fuel))
    && (NoDoubles(m0) ==> m == m0)
  }

  /** One pass of the loop of `apply_fuel` over layer `index` of `m`: the layer
      is worked with the whole fuel and, if its merge is then complete, emptied,
      with its batch inserted into the layer above. Valid layers never hold a
      merge above a completed one, so the middle branch does not arise from them. */
  ghost function FuelStep(m: seq<MergeState>, fuel: int, index: nat, since: Frontier): seq<MergeState>
    requires index < |m|
  {
    var w := WorkedLayer(m[index], fuel);
    if !w.IsComplete() then m[index := w]
    else if index + 1 < |m| && !Insertable(m[index + 1], CompletedBatch(w)) then m
    else InsertAtSeq(m[index := Vacant], CompletedBatch(w), index + 1, since)
  }

  /** The layers `apply_fuel` leaves once it has worked layers `index` up to
      `n - 1` of `m` in turn. A layer above `n` that a completed merge creates
      is not worked. */
  ghost function Fuelled(m: seq<MergeState>, fuel: int, index: nat, n: nat, since: Frontier): seq<MergeState>
    decreases n - index
  {
    if n <= index || |m| <= index then m
    else Fuelled(FuelStep(m, fuel, index, since), fuel, index + 1, n, since)
  }

  lemma {:induction false} FuelingStart(m: seq<MergeState>, fuel: int)
    requires LayersOk(m)
    ensures Fueling(m, m, |m|, 0, fuel)
  {
  }

  lemma {:induction false} FuelingEnd(m0: seq<MergeState>, m: seq<MergeState>, n: nat, fuel: int)
    requires Fueling(m0, m, n, n, fuel)
    ensures LayersOk(m) && Regrouped(Flatten(m0), Flatten(m))
    ensures fuel >= 0 ==> forall k | 0 <= k < |m| :: Settled(m, k, fuel)
    ensures NoDoubles(m0) ==> m == m0
  {
  }

  /** Working layer `index` keeps the state of `apply_fuel`, and settles the
      layer unless its merge completed. */
  lemma {:induction false} FuelWorked(m0: seq<MergeState>, m: seq<MergeState>, n: nat, index: nat, layer: MergeState, fuel: int)
    requires Fueling(m0, m, n, index, fuel) && index < n
    requires Worked(m[index], layer, fuel)
    ensures layer.WellFormed()
    ensures !layer.IsComplete() ==> Fueling(m0, m[index := layer], n, index + 1, fuel)
    ensures layer.IsComplete() ==> Fueling(m0, m[index := layer], n, index, fuel)
  {
    WorkStep(m, index, layer, fuel);
    var m' := m[index := layer];
    RegroupedTransitive(Flatten(m0), Flatten(m), Flatten(m'));
    if NoDoubles(m0) {
      assert !m[index].Double?;
      assert m' == m;
    }
    if fuel >= 0 {
      forall k | 0 <= k < index
        ensures Settled(m', k, fuel)
      {
        assert Settled(m, k, fuel);
      }
    }
  }

  /** Moving a completed merge at layer `index` into the next layer keeps the
      state of `apply_fuel` and settles layer `index`. */
  lemma {:induction false} FuelDrained(m0: seq<MergeState>, m: seq<MergeState>, n: nat, index: nat,
                    complete: Option<SpineBatch>, fuel: int, since: Frontier)
    requires Fueling(m0, m, n, index, fuel) && index < n && m[index].IsComplete()
    requires Regrouped(LayerBatches(m[index]), OptSeq(complete))
    requires OptLen(complete) == m[index].Len()
    ensures index + 1 < |m| ==> Insertable(m[index := Vacant][index + 1], complete)
    ensures Fueling(m0, InsertAtSeq(m[index := Vacant], complete, index + 1, since), n, index + 1, fuel)
  {
    DrainStep(m, index, complete, since, fuel);
    var m' := Drained(m, index, complete, since);
    RegroupedTransitive(Flatten(m0), Flatten(m), Flatten(m'));
    if fuel >= 0 {
      forall k | 0 <= k < index + 1
        ensures Settled(m', k, fuel)
      {
        if k < index {
          assert Settled(m, k, fuel);
        }
      }
    }
    assert !NoDoubles(m0);
  }

  /** A layer `tidy_layers` can drop: vacant or holding a structurally empty batch. */
  predicate Absorbable(s: MergeState) {
    s.Vacant? || s == Single(None)
  }

  /** What `tidy_layers` leaves behind: a single batch on top that would fit
      lower down does not sit above a layer it could have absorbed. */
  ghost predicate Tidied(m: seq<MergeState>) {
    |m| >= 2 && m[|m| - 1].Single? && Level(m[|m| - 1].Len()) < |m| - 1
    ==> !Absorbable(m[|m| - 2])
  }

  /** The state of the walk of `tidy_layers` down from the top batch `top`
      of `m0`: the layers keep the invariant and the batches. */
  ghost predicate Tidying(m0: seq<MergeState>, m: seq<MergeState>, top: MergeState) {
    && 1 <= |m| <= |m0| && m[|m| - 1] == top && top.Single?
    && LayersOk(m) && Flatten(m) == Flatten(m0)
  }

  /** Dropping an absorbable layer below a top batch that fits lower down. */
  lemma {:induction false} TidyRemoveStep(m0: seq<MergeState>, m: seq<MergeState>, m': seq<MergeState>, top: MergeState)
    requires Tidying(m0, m, top) && Level(top.Len()) < |m| - 1
    requires Absorbable(m[|m| - 2])
    requires m' == m[..|m| - 2] + m[|m| - 1..]
    ensures Tidying(m0, m', top) && |m'| == |m| - 1
  {
    var p := |m| - 2;
    LevelIsCeilLog2(top.Len());
    Pow2Monotonic(Level(top.Len()), p);
    TidyRemove(m, p);
    assert m' == m[..p] + m[p + 1..];
  }

  /** Dropping the absorbable layer below the top keeps a merge `m[j0]` in place. */
  lemma {:induction false} TidyRemoveKeeps(m: seq<MergeState>, m': seq<MergeState>, j0: int)
    requires |m| >= 2 && Absorbable(m[|m| - 2])
    requires m' == m[..|m| - 2] + m[|m| - 1..]
    ensures 0 <= j0 < |m| - 1 && m[j0].Double? ==> j0 < |m'| - 1 && m'[j0] == m[j0]
  {
  }

  /** The layer left on top after dropping the one below it takes the batch. */
  lemma {:induction false} TidyMergeReady(m: seq<MergeState>, m': seq<MergeState>, batch: SpineBatch)
    requires |m| >= 2 && LayersOk(m) && m[|m| - 1].Single?
    requires m[|m| - 2] == Single(Some(batch))
    requires m' == m[..|m| - 2] + m[|m| - 1..]
    ensures |m'| == |m| - 1 && Insertable(m'[|m| - 2], Some(batch))
  {
    var p := |m| - 2;
    TidyMergeFlatten(m, p, batch, 0);
  }

  /** Merging the batch below the top into it ends the walk tidily. */
  lemma {:induction false} TidyMergeStep(m0: seq<MergeState>, m: seq<MergeState>, m': seq<MergeState>, mf: seq<MergeState>,
                                         top: MergeState, batch: SpineBatch, since: Frontier)
    requires Tidying(m0, m, top) && Level(top.Len()) < |m| - 1
    requires m[|m| - 2] == Single(Some(batch))
    requires Below(m, |m| - 2) <= Pow2(|m|) / 8
    requires m' == m[..|m| - 2] + m[|m| - 1..]
    requires Insertable(m'[|m| - 2], Some(batch))
    requires mf == InsertAtSeq(m', Some(batch), |m| - 2, since)
    ensures LayersOk(mf) && Flatten(mf) == Flatten(m0) && |mf| <= |m0| && Tidied(mf)
  {
    var p := |m| - 2;
    LevelIsCeilLog2(top.Len());
    Pow2Monotonic(Level(top.Len()), p);
    assert m' == m[..p] + m[p + 1..];
    TidyMerge(m, p, batch, since);
    TidyShape(m, p, Some(batch), since);
  }

  /** Merging the layer below the top batch leaves every lower layer as it
      was, so a merge in progress there survives. */
  lemma {:induction false} TidyMergeKeeps(m: seq<MergeState>, m': seq<MergeState>, mf: seq<MergeState>,
                                          batch: SpineBatch, since: Frontier, j0: int)
    requires |m| >= 2 && m[|m| - 2] == Single(Some(batch))
    requires m' == m[..|m| - 2] + m[|m| - 1..]
    requires Insertable(m'[|m| - 2], Some(batch))
    requires mf == InsertAtSeq(m', Some(batch), |m| - 2, since)
    ensures 0 <= j0 < |m| - 1 && m[j0].Double? ==> j0 < |mf| && mf[j0] == m[j0]
  {
  }

  /** The fuel of `introduce_batch`: `((8 << level) * effort) as isize`, with
      the wrap-around of 64-bit arithmetic. It is exactly `8 * 2^level * effort`
      whenever that fits an `isize`. */
  function IntroduceFuel(level: nat, effort: nat): (fuel: int)
    requires level < 64 && effort < USIZE_MODULUS
    ensures IsIsize(fuel)
    ensures 8 * Pow2(level) * effort <= ISIZE_MAX ==> fuel == 8 * Pow2(level) * effort
  {
    var shifted := ShlUsize(8, level);
    var product := (shifted * effort) % USIZE_MODULUS;
    assert 8 * Pow2(level) * effort <= ISIZE_MAX ==> product == 8 * Pow2(level) * effort by {
      if 8 * Pow2(level) * effort <= ISIZE_MAX && effort > 0 {
        assert 8 * Pow2(level) * effort == 8 * Pow2(level) * (effort - 1) + 8 * Pow2(level);
        assert shifted == 8 * Pow2(level);
      }
    }
    AsIsize(product)
  }

  /** Up to level 59 the fuel of a unit effort is `8 * 2^level`. */
  lemma {:induction false} IntroduceFuelExact(level: nat)
    requires level <= 59
    ensures IntroduceFuel(level, 1) == 8 * Pow2(level)
  {
    Pow2Monotonic(level, 59);
    Pow2Limits();
  }

  /** After `apply_fuel` with `8 << level` the layers up to `level + 1` hold no
      merge, as `roll_up(level)` needs. */
  lemma {:induction false} IntroduceFueled(m0: seq<MergeState>, m1: seq<MergeState>, level: nat, fuel: int)
    requires LayersOk(m1)
    requires NoDoubles(m0) ==> m1 == m0
    requires NoDoubles(m0) || (fuel >= 8 * Pow2(level) && forall k | 0 <= k < |m1| :: Settled(m1, k, fuel))
    ensures NoDoubles(m1) || (fuel >= 8 * Pow2(level) && forall k | 0 <= k < |m1| :: Settled(m1, k, fuel))
    ensures forall k | 0 <= k < |m1| && k <= level + 1 :: !m1[k].Double?
  {
    if !NoDoubles(m0) {
      SettledClearsLow(m1, level, fuel);
    }
  }

  /** After `roll_up(level)` the new batch may go into layer `level`, and it
      still continues the spine's batches. */
  lemma {:induction false} IntroduceReady(m0: seq<MergeState>, m1: seq<MergeState>, m2: seq<MergeState>, batch: Option<SpineBatch>, level: nat)
    requires Chain(Flatten(m0) + OptSeq(batch))
    requires Regrouped(Flatten(m0), Flatten(m1)) && Regrouped(Flatten(m1), Flatten(m2))
    requires RolledUp(m1, m2, level)
    ensures Regrouped(Flatten(m0), Flatten(m2))
    ensures Chain(Flatten(m2) + OptSeq(batch))
    ensures Insertable(m2[level], batch)
  {
    RegroupedTransitive(Flatten(m0), Flatten(m1), Flatten(m2));
    RegroupedPrefix(Flatten(m0), Flatten(m2), OptSeq(batch));
    InsertableAtEnd(m2, batch, level);
  }

  /** The batches after the insertion are those before `apply_fuel`, regrouped,
      followed by the new batch. */
  lemma {:induction false} IntroduceRegrouped(m0: seq<MergeState>, m2: seq<MergeState>, m3: seq<MergeState>, batch: Option<SpineBatch>)
    requires Regrouped(Flatten(m0), Flatten(m2))
    requires Flatten(m3) == Flatten(m2) + OptSeq(batch)
    ensures Regrouped(Flatten(m0) + OptSeq(batch), Flatten(m3))
  {
    RegroupedPrefix(Flatten(m0), Flatten(m2), OptSeq(batch));
  }

  /** A batch that starts where the spine's batches end continues their chain. */
  lemma {:induction false} ContinuesChain(bs: seq<SpineBatch>, batch: SpineBatch, hi: Frontier)
    requires Covers(bs, 0, hi) && batch.Lower() == hi
    ensures Chain(bs + [batch])
  {
    CoversAppendOne(bs, batch, 0);
  }

  /** Inserting an empty batch into the lowest occupied layer, when that layer
      holds one empty batch, and completing the merge this begins at once
      leaves a single empty batch there and appends the batch to the trace. */
  lemma {:induction false} InsertFuse(m0: seq<MergeState>, m1: seq<MergeState>, p: nat, batch: SpineBatch, r: Option<SpineBatch>, since: Frontier)
    requires LayersOk(m0) && p < |m0|
    requires forall j | 0 <= j < p :: m0[j].Vacant?
    requires m0[p].Single? && m0[p].Len() == 0 && batch.Len() == 0
    requires Chain(Flatten(m0) + [batch])
    requires Insertable(m0[p], Some(batch))
    requires m1 == m0[p := InsertLayer(m0[p], Some(batch), since)]
    requires Regrouped(LayerBatches(m1[p]), OptSeq(r)) && OptLen(r) == m1[p].Len()
    ensures LayersOk(m0[p := Single(r)])
    ensures Regrouped(Flatten(m0) + [batch], Flatten(m0[p := Single(r)]))
  {
    InsertLayerBatches(m0[p], Some(batch), since);
    InsertLayerLen(m0[p], Some(batch), since);
    FuseEmpty(m0, p, batch, r);
  }

  /** The spine's invariant survives a regrouping of its batches. */
  lemma {:induction false} ValidRegrouped(m: seq<MergeState>, m': seq<MergeState>, hi: Frontier, history: seq<HollowBatch>)
    requires Covers(Flatten(m), 0, hi) && AllParts(Flatten(m)) == history
    requires Regrouped(Flatten(m), Flatten(m'))
    ensures Covers(Flatten(m'), 0, hi) && AllParts(Flatten(m')) == history
  {
    RegroupedCovers(Flatten(m), Flatten(m'), 0, hi);
  }

  class Spine {
    /** The multiplier of fuel per inserted update; `Spine::new` sets it to one. */
    const effort: nat := 1
    /** The compaction frontier; `Spine::new` sets it to the minimum time. */
    const since: Frontier := 0
    var upper: Frontier
    /** The layers, lowest first. */
    var merging: seq<MergeState>
    /** The parts of all inserted batches, in insertion order. */
    ghost var history: seq<HollowBatch>

    /** The spine's invariant: the layers keep their size bounds, and their
        batches, from the highest layer down, cover the times from the
        minimum up to `upper` and hold exactly the inserted parts. */
    ghost predicate Valid()
      reads this
    {
      && LayersOk(merging)
      && Covers(Flatten(merging), 0, upper)
      && AllParts(Flatten(merging)) == history
    }

    /** `Spine::new`. */
    constructor ()
      ensures Valid()
      ensures upper == 0 && merging == [] && history == []
    {
      upper := 0;
      merging := [];
      history := [];
    }

    /** The loop that opens both `Spine::insert_at` and `Spine::roll_up`:
        pushes vacant layers until there is a layer `index`. */
    method Reserve(index: nat)
      modifies this
      ensures merging == Grow(old(merging), index)
      ensures upper == old(upper) && history == old(history)
    {
      while |merging| <= index
        invariant |old(merging)| <= |merging| <= |Grow(old(merging), index)|
        invariant merging[..|old(merging)|] == old(merging)
        invariant forall j | |old(merging)| <= j < |merging| :: merging[j] == Vacant
        invariant upper == old(upper) && history == old(history)
        decreases index - |merging|
      {
        merging := merging + [Vacant];
      }
    }

    /** `Spine::insert_at`: grows the layers with vacant ones up to `index`,
        then puts the batch into layer `index`: a vacant layer takes it as a
        single batch, a single batch begins a merge with it. The source
        panics on a layer that is already merging; every caller here is
        proved to avoid that. */
    method InsertAt(batch: Option<SpineBatch>, index: nat)
      requires index < |merging| ==> Insertable(merging[index], batch)
      modifies this
      ensures merging == InsertAtSeq(old(merging), batch, index, since)
      ensures upper == old(upper) && history == old(history)
    {
      Reserve(index);
      match merging[index]
      case Vacant =>
        merging := merging[index := Single(batch)];
      case Single(older) =>
        merging := merging[index := BeginMergeState(older, batch, Some(since))];
      case Double(_) =>
        assert false;
    }

    /** `Spine::complete_at`: empties layer `index` and returns its batch, the
        result of finishing its merge if it has one; the batch holds the same
        parts as the layer did. */
    method CompleteAt(index: nat) returns (r: Option<SpineBatch>)
      requires index < |merging| && merging[index].WellFormed()
      requires merging[index].Double? && merging[index].variant.InProgress? ==>
                 merging[index].variant.merge.Remaining() < ISIZE_MAX
      modifies this
      ensures merging == old(merging)[index := Vacant]
      ensures Regrouped(LayerBatches(old(merging)[index]), OptSeq(r))
      ensures OptLen(r) == old(merging)[index].Len()
      ensures old(merging)[index].IsComplete() ==> r == CompletedBatch(old(merging)[index])
      ensures upper == old(upper) && history == old(history)
    {
      var s := merging[index];
      var c, s' := CompleteState(s);
      merging := merging[index := s'];
      if c.Some? {
        r := Some(c.value.batch);
      } else {
        r := None;
      }
      if s.Double? && s.variant.InProgress? {
        MergeRegroups(s.variant.b1, s.variant.b2, s.variant.merge);
      }
    }

    /** `Spine::map_batches`: the batches, visited from the highest layer down;
        in a valid spine they cover the times up to `upper` and hold exactly
        the inserted parts, in insertion order. */
    method MapBatches() returns (visited: seq<SpineBatch>)
      ensures visited == Flatten(merging)
      ensures Valid() ==> Covers(visited, 0, upper) && AllParts(visited) == history
    {
      visited := [];
      var i := |merging|;
      assert merging[i..] == [];
      while i > 0
        invariant 0 <= i <= |merging|
        invariant visited == Flatten(merging[i..])
      {
        i := i - 1;
        FlattenTail(merging, i);
        match merging[i]
        case Double(InProgress(b1, b2, _)) =>
          visited := visited + [b1, b2];
        case Double(Complete(Some(c))) =>
          visited := visited + [c.batch];
        case Single(Some(b)) =>
          visited := visited + [b];
        case _ =>
      }
      assert merging[0..] == merging;
    }

    /** `Spine::reduced`: no merge is in progress and at most one batch holds
        updates, so there is no maintenance left to do. */
    method Reduced() returns (r: bool)
      ensures r <==> NoDoubles(merging) && NonEmptyLayers(merging) <= 1
      ensures r <==> NoDoubles(merging) && NonEmptyBatches(Flatten(merging)) <= 1
    {
      var nonEmpty := 0;
      for index := 0 to |merging|
        invariant nonEmpty == NonEmptyLayers(merging[..index]) <= 1
        invariant forall k | 0 <= k < index :: !merging[k].Double?
      {
        assert merging[..index + 1][..index] == merging[..index];
        if merging[index].Double? {
          return false;
        }
        if merging[index].Len() > 0 {
          nonEmpty := nonEmpty + 1;
        }
        if nonEmpty > 1 {
          NonEmptyLayersPrefix(merging, index + 1);
          if NoDoubles(merging) {
            NonEmptyLayersBatches(merging);
          }
          return false;
        }
      }
      assert merging[..|merging|] == merging;
      NonEmptyLayersBatches(merging);
      return true;
    }

    /** `Spine::apply_fuel`: each layer in turn works its merge with its own
        full copy of `fuel`, and a merge that completes is emptied out of its
        layer and inserted into the next one. The batches are only regrouped;
        with non-negative fuel every merge left in progress has taken all of
        it, and with no merge in progress nothing changes. */
    method ApplyFuel(fuel: int)
      requires IsIsize(fuel)
      requires LayersOk(merging)
      modifies this
      ensures LayersOk(merging)
      ensures Regrouped(Flatten(old(merging)), Flatten(merging))
      ensures fuel >= 0 ==> forall k | 0 <= k < |merging| :: Settled(merging, k, fuel)
      ensures NoDoubles(old(merging)) ==> merging == old(merging)
      ensures merging == Fuelled(old(merging), fuel, 0, |old(merging)|, since)
      ensures upper == old(upper) && history == old(history)
    {
      var n := |merging|;
      ghost var m0 := merging;
      FuelingStart(m0, fuel);
      for index := 0 to n
        invariant Fueling(m0, merging, n, index, fuel)
        invariant Fuelled(merging, fuel, index, n, since) == Fuelled(m0, fuel, 0, n, since)
        invariant upper == old(upper) && history == old(history)
      {
        FuelLayer(fuel, index, m0, n);
      }
      FuelingEnd(m0, merging, n, fuel);
    }

    /** One pass of the loop of `apply_fuel`: works layer `index` and, if its
        merge is then complete, moves the merged batch into the layer above. */
    method FuelLayer(fuel: int, index: nat, ghost m0: seq<MergeState>, ghost n: nat)
      requires IsIsize(fuel)
      requires Fueling(m0, merging, n, index, fuel) && index < n
      modifies this
      ensures Fueling(m0, merging, n, index + 1, fuel)
      ensures merging == FuelStep(old(merging), fuel, index, since)
      ensures upper == old(upper) && history == old(history)
    {
      ghost var m := merging;
      WorkAt(fuel, index, m0, n);
      if merging[index].IsComplete() {
        ghost var m1 := merging;
        DrainLayer(fuel, index, m0, n);
        assert m1[index := Vacant] == m[index := Vacant];
        assert index + 1 < |m| ==> m1[index + 1] == m[index + 1];
      }
    }

    /** `self.merging[index].work(&mut fuel)` in `apply_fuel`, on a copy of the fuel. */
    method WorkAt(fuel: int, index: nat, ghost m0: seq<MergeState>, ghost n: nat)
      requires IsIsize(fuel)
      requires Fueling(m0, merging, n, index, fuel) && index < n
      modifies this
      ensures merging == old(merging)[index := WorkedLayer(old(merging)[index], fuel)]
      ensures !merging[index].IsComplete() ==> Fueling(m0, merging, n, index + 1, fuel)
      ensures merging[index].IsComplete() ==> Fueling(m0, merging, n, index, fuel)
      ensures upper == old(upper) && history == old(history)
    {
      if merging[index].Double? && merging[index].variant.InProgress? {
        RemainingBound(merging, index);
      }
      var layer, _ := WorkState(merging[index], fuel);
      FuelWorked(m0, merging, n, index, layer, fuel);
      merging := merging[index := layer];
    }

    /** The completed merge at layer `index` of `apply_fuel`: the layer is
        emptied and its batch inserted into the layer above. */
    method DrainLayer(fuel: int, index: nat, ghost m0: seq<MergeState>, ghost n: nat)
      requires Fueling(m0, merging, n, index, fuel) && index < n && merging[index].IsComplete()
      modifies this
      ensures Fueling(m0, merging, n, index + 1, fuel)
      ensures index + 1 < |old(merging)| ==> Insertable(old(merging)[index + 1], CompletedBatch(old(merging)[index]))
      ensures merging == InsertAtSeq(old(merging)[index := Vacant], CompletedBatch(old(merging)[index]), index + 1, since)
      ensures upper == old(upper) && history == old(history)
    {
      ghost var m1 := merging;
      var complete := CompleteAt(index);
      assert merging == m1[index := Vacant];
      FuelDrained(m0, m1, n, index, complete, fuel, since);
      ghost var m2 := merging;
      InsertAt(complete, index + 1);
      assert merging == InsertAtSeq(m2, complete, index + 1, since);
    }

    /** The loop of `Spine::roll_up`: layer by layer from the bottom, the
        batches below `index` are merged into one, which is returned; the
        layers below `index` are left vacant. */
    method MergeBelow(index: nat) returns (merged: Option<SpineBatch>)
      requires RollBase(merging, index)
      modifies this
      ensures Rolling(old(merging), merging, merged, index)
      ensures upper == old(upper) && history == old(history)
    {
      ghost var g := merging;
      merged := None;
      RollStart(g);
      for i := 0 to index
        invariant Rolling(g, merging, merged, i)
        invariant upper == old(upper) && history == old(history)
      {
        RollInsertable(g, index, merging, merged, i);
        ghost var mc := merging;
        ghost var previous := merged;
        InsertAt(merged, i);
        InsertAtWithin(mc, previous, i, since);
        RollInsert(g, index, mc, merging, previous, i, since);
        ghost var m1 := merging;
        merged := CompleteAt(i);
        RollStep(g, index, mc, m1, merging, previous, i, merged, since);
      }
    }

    /** The merging part of `Spine::roll_up`, on the layers `m` grown to
        `index`, with a nonempty layer `j0` below `index`. */
    method RollUpFrom(ghost m: seq<MergeState>, index: nat, ghost j0: nat)
      requires merging == Grow(m, index) && Flatten(merging) == Flatten(m)
      requires RollBase(merging, index) && Below(merging, index) < Pow2(index)
      requires j0 < index && !merging[j0].Vacant?
      modifies this
      ensures RolledUp(m, merging, index)
      ensures Regrouped(Flatten(m), Flatten(merging))
      ensures upper == old(upper) && history == old(history)
    {
      ghost var g := merging;
      var merged := MergeBelow(index);
      ghost var mv := merging;
      RollInsertable(g, index, merging, merged, index);
      InsertAt(merged, index);
      InsertAtWithin(mv, merged, index, since);
      RollInsert(g, index, mv, merging, merged, index, since);
      if merging[index].Double? {
        ghost var m1 := merging;
        var complete := CompleteAt(index);
        ghost var mz := merging;
        RollPushReady(g, index, mv, m1, mz, merged, complete, since);
        InsertAt(complete, index + 1);
        RollFinishDouble(m, g, mz, merging, complete, index, j0, since);
      } else {
        RollFinishVacant(m, g, mv, merging, merged, index, j0, since);
      }
    }

    /** `Spine::roll_up`: makes room for an insertion at layer `index` by
        merging every batch below it into one and inserting that at `index`,
        completing at once a merge this begins there and moving its result
        up. Afterwards the layers below `index` are vacant, layer `index`
        takes a batch without merging, and no batch has left the trace. */
    method RollUp(index: nat)
      requires LayersOk(merging)
      requires forall k | 0 <= k < |merging| && k <= index + 1 :: !merging[k].Double?
      modifies this
      ensures RolledUp(old(merging), merging, index)
      ensures Regrouped(Flatten(old(merging)), Flatten(merging))
      ensures upper == old(upper) && history == old(history)
    {
      ghost var m := merging;
      Reserve(index);
      RollBaseGrow(m, index);
      if exists j | 0 <= j < index :: !merging[j].Vacant? {
        ghost var j0 :| 0 <= j0 < index && !merging[j0].Vacant?;
        RollUpFrom(m, index, j0);
      } else {
        RollUpNothing(m, index);
        FlattenGrow(m, index);
      }
    }

    /** The capacity the layers below `p` claim, as `tidy_layers` adds it up:
        `1 << index` for a single batch, `2 << index` for a merge. */
    method Claimed(p: nat) returns (smaller: nat)
      requires p <= |merging|
      ensures smaller == Below(merging, p)
    {
      smaller := 0;
      for index := 0 to p
        invariant smaller == Below(merging, index)
      {
        match merging[index]
        case Vacant =>
        case Single(_) =>
          smaller := smaller + Pow2(index);
        case Double(_) =>
          smaller := smaller + 2 * Pow2(index);
      }
    }

    /** `Spine::tidy_layers`: while the top layer holds a single batch small
        enough for a lower layer, the empty layer just below it is dropped,
        moving the batch down. The first batch met there ends the walk; a
        batch begins a merge with the top one when the layers beneath it
        claim at most an eighth of `1 << length`. The batches stay as they
        were, in order, and the invariant holds throughout. */
    method TidyLayers(ghost j0: int)
      requires LayersOk(merging)
      modifies this
      ensures LayersOk(merging)
      ensures Flatten(merging) == Flatten(old(merging))
      ensures |merging| <= |old(merging)|
      ensures Tidied(merging)
      ensures 0 <= j0 < |old(merging)| && old(merging)[j0].Double? ==> j0 < |merging| && merging[j0].Double?
      ensures upper == old(upper) && history == old(history)
    {
      if |merging| == 0 || !merging[|merging| - 1].Single? {
        return;
      }
      ghost var m0 := merging;
      ghost var top := merging[|merging| - 1];
      ghost var hasMerge := 0 <= j0 < |merging| && merging[j0].Double?;
      var level := Level(merging[|merging| - 1].Len());
      while level < |merging| - 1
        invariant Tidying(m0, merging, top) && level == Level(top.Len())
        invariant hasMerge ==> j0 < |merging| - 1 && merging[j0].Double?
        invariant upper == old(upper) && history == old(history)
        decreases |merging|
      {
        var done := TidyStep(m0, top, j0);
        if done {
          return;
        }
      }
    }

    /** One pass of the loop of `tidy_layers`: drops an empty layer below the
        top batch, or merges the top batch into the layer below and stops
        (`done`), or stops at a merge in progress. */
    method TidyStep(ghost m0: seq<MergeState>, ghost top: MergeState, ghost j0: int) returns (done: bool)
      requires Tidying(m0, merging, top) && Level(top.Len()) < |merging| - 1
      modifies this
      ensures !done ==> Tidying(m0, merging, top) && |merging| == |old(merging)| - 1
      ensures done ==> LayersOk(merging) && Flatten(merging) == Flatten(m0) && |merging| <= |old(merging)| && Tidied(merging)
      ensures 0 <= j0 < |old(merging)| - 1 && old(merging)[j0].Double? ==>
        j0 < |merging| && merging[j0].Double? && (!done ==> j0 < |merging| - 1)
      ensures upper == old(upper) && history == old(history)
    {
      var p := |merging| - 2;
      match merging[p]
      case Vacant =>
        DropBelowTop(m0, top, j0);
        done := false;
      case Single(None) =>
        DropBelowTop(m0, top, j0);
        done := false;
      case Single(Some(batch)) =>
        var smaller := Claimed(p);
        if smaller <= Pow2(p + 2) / 8 {
          MergeBelowTop(m0, top, batch, j0);
        }
        done := true;
      case Double(_) =>
        done := true;
    }

    /** Drops the empty layer just below the top batch. */
    method DropBelowTop(ghost m0: seq<MergeState>, ghost top: MergeState, ghost j0: int)
      requires Tidying(m0, merging, top) && Level(top.Len()) < |merging| - 1
      requires Absorbable(merging[|merging| - 2])
      modifies this
      ensures Tidying(m0, merging, top) && |merging| == |old(merging)| - 1
      ensures 0 <= j0 < |old(merging)| - 1 && old(merging)[j0].Double? ==> j0 < |merging| - 1 && merging[j0].Double?
      ensures upper == old(upper) && history == old(history)
    {
      var p := |merging| - 2;
      ghost var m := merging;
      merging := merging[..p] + merging[p + 1..];
      TidyRemoveStep(m0, m, merging, top);
      TidyRemoveKeeps(m, merging, j0);
    }

    /** Drops the top batch into the layer just below it, where it begins a
        merge with the batch `batch` there. */
    method MergeBelowTop(ghost m0: seq<MergeState>, ghost top: MergeState, batch: SpineBatch, ghost j0: int)
      requires Tidying(m0, merging, top) && Level(top.Len()) < |merging| - 1
      requires merging[|merging| - 2] == Single(Some(batch))
      requires Below(merging, |merging| - 2) <= Pow2(|merging|) / 8
      modifies this
      ensures LayersOk(merging) && Flatten(merging) == Flatten(m0) && |merging| <= |old(merging)| && Tidied(merging)
      ensures 0 <= j0 < |old(merging)| - 1 && old(merging)[j0].Double? ==> j0 < |merging| && merging[j0].Double?
      ensures upper == old(upper) && history == old(history)
    {
      var p := |merging| - 2;
      ghost var m := merging;
      merging := merging[..p] + merging[p + 1..];
      ghost var mr := merging;
      TidyMergeReady(m, mr, batch);
      InsertAt(Some(batch), p);
      TidyMergeStep(m0, m, mr, merging, top, batch, since);
      TidyMergeKeeps(m, mr, merging, batch, since, j0);
    }

    /** Steps 3 and 4 of `Spine::introduce_batch`, after `apply_fuel` turned
        the layers `m0` into `m1` and `roll_up` turned those into the current
        ones: puts the batch into layer `level` and tidies the top layers. */
    method PlaceBatch(batch: Option<SpineBatch>, level: nat, ghost m0: seq<MergeState>, ghost m1: seq<MergeState>, ghost fuel: int)
      requires Chain(Flatten(m0) + OptSeq(batch))
      requires LayersOk(m1) && Regrouped(Flatten(m0), Flatten(m1))
      requires NoDoubles(m1) || (fuel >= 8 * Pow2(level) && forall k | 0 <= k < |m1| :: Settled(m1, k, fuel))
      requires RolledUp(m1, merging, level) && Regrouped(Flatten(m1), Flatten(merging))
      requires OptLen(batch) <= Pow2(level)
      requires TotalLen(m1) + OptLen(batch) < LEN_BOUND
      modifies this
      ensures LayersOk(merging)
      ensures Regrouped(Flatten(m0) + OptSeq(batch), Flatten(merging))
      ensures Tidied(merging)
      ensures upper == old(upper) && history == old(history)
    {
      ghost var m2 := merging;
      IntroduceReady(m0, m1, m2, batch, level);
      InsertAt(batch, level);
      IntroduceOk(m1, m2, batch, level, fuel, since);
      IntroduceRegrouped(m0, m2, merging, batch);
      TidyLayers(-1);
    }

    /** `Spine::introduce_batch`: applies `8 << level` fuel (times `effort`) to
        every merge, rolls the layers below `level` up, puts the batch into
        layer `level` and tidies the top layers. The invariant is kept, and
        the batches are those before, regrouped, followed by the new one. */
    method IntroduceBatch(batch: Option<SpineBatch>, level: nat)
      requires LayersOk(merging)
      requires Chain(Flatten(merging) + OptSeq(batch))
      requires OptLen(batch) <= Pow2(level)
      requires TotalLen(merging) + OptLen(batch) < LEN_BOUND
      requires level < 64 && (level <= 59 || NoDoubles(merging))
      modifies this
      ensures LayersOk(merging)
      ensures Regrouped(Flatten(old(merging)) + OptSeq(batch), Flatten(merging))
      ensures Tidied(merging)
      ensures upper == old(upper) && history == old(history)
    {
      var fuel := IntroduceFuel(level, effort);
      if level <= 59 {
        IntroduceFuelExact(level);
      }
      ghost var m0 := merging;
      ApplyFuel(fuel);
      ghost var m1 := merging;
      IntroduceFueled(m0, m1, level, fuel);
      RegroupedTotalLen(m0, m1);
      RollUp(level);
      PlaceBatch(batch, level, m0, m1, fuel);
    }

    /** The fast path of `Spine::insert` for an empty batch: when the lowest
        occupied layer `p` holds one empty batch, the new batch is inserted
        there and the merge this begins is completed at once. The invariant is
        kept and the batch is appended to the trace's batches. */
    method FuseAt(batch: SpineBatch, p: nat)
      requires LayersOk(merging) && p < |merging|
      requires forall j | 0 <= j < p :: merging[j].Vacant?
      requires merging[p].Single? && merging[p].Len() == 0 && batch.Len() == 0
      requires Chain(Flatten(merging) + [batch])
      modifies this
      ensures LayersOk(merging)
      ensures Regrouped(Flatten(old(merging)) + [batch], Flatten(merging))
      ensures upper == old(upper) && history == old(history)
    {
      ghost var m0 := merging;
      InsertableAtEnd(merging, Some(batch), p);
      InsertAt(Some(batch), p);
      InsertAtWithin(m0, Some(batch), p, since);
      ghost var m1 := merging;
      var merged := CompleteAt(p);
      merging := merging[p := Single(merged)];
      InsertFuse(m0, m1, p, batch, merged, since);
      assert merging == m0[p := Single(merged)];
    }

    /** `Spine::insert`: appends a batch that starts at the spine's upper
        frontier and is not empty in time. An empty batch is fused into the
        lowest occupied layer when that holds one empty batch; every other
        batch is introduced at the level of its length. The invariant is
        kept, `upper` moves to the batch's upper frontier, and the batch's
        parts follow all those inserted before. */
    method Insert(batch: SpineBatch)
      requires Valid()
      requires batch.Lower() != batch.Upper()
      requires batch.Lower() == upper
      requires TotalLen(merging) + batch.Len() < LEN_BOUND
      modifies this
      ensures Valid()
      ensures upper == batch.Upper()
      ensures history == old(history) + batch.Parts()
    {
      ghost var m0 := merging;
      ContinuesChain(Flatten(m0), batch, upper);
      upper := batch.Upper();
      history := history + batch.Parts();
      var fused := false;
      if batch.Len() == 0 {
        var position := FirstOccupied(merging);
        if position.Some? && merging[position.value].Single? && merging[position.value].Len() == 0 {
          FuseAt(batch, position.value);
          fused := true;
        }
      }
      if !fused {
        LevelIsCeilLog2(batch.Len());
        Pow2Limits();
        IntroduceBatch(Some(batch), Level(batch.Len()));
      }
      AppendedBatch(Flatten(m0), Flatten(merging), batch, 0, old(history));
    }

    /** `Spine::exert`: tidies the top layers and, unless the spine is reduced,
        spends `effort` on maintenance: as fuel for every merge in progress,
        or, with none, as an empty batch introduced at the level of `effort`.
        The trace's batches are only regrouped. */
    method Exert(effort: int)
      requires Valid()
      requires IsIsize(effort) && (effort >= 0 || !NoDoubles(merging))
      modifies this
      ensures Valid()
      ensures upper == old(upper) && history == old(history)
    {
      ghost var j0: int := -1;
      if !NoDoubles(merging) {
        j0 :| 0 <= j0 < |merging| && merging[j0].Double?;
      }
      TidyLayers(j0);
      ValidRegrouped(old(merging), merging, upper, history);
      var reduced := Reduced();
      if !reduced {
        SpendEffort(effort);
      }
    }

    /** The work of `Spine::exert` on a spine that is not reduced: `effort`
        becomes fuel for every merge in progress or, with none, an empty batch
        introduced at the level of `effort`. */
    method SpendEffort(effort: int)
      requires Valid()
      requires IsIsize(effort) && (effort >= 0 || !NoDoubles(merging))
      modifies this
      ensures Valid()
      ensures Regrouped(Flatten(old(merging)), Flatten(merging))
      ensures upper == old(upper) && history == old(history)
    {
      ghost var m1 := merging;
      if exists k | 0 <= k < |merging| :: merging[k].Double? {
        ApplyFuel(effort);
      } else {
        var level := Level(AsUsize(effort));
        LevelIsCeilLog2(AsUsize(effort));
        Pow2Limits();
        assert Flatten(merging) + [] == Flatten(merging) && [] + Flatten(merging) == Flatten(merging);
        IntroduceBatch(None, level);
        assert Flatten(m1) + [] == Flatten(m1) && [] + Flatten(m1) == Flatten(m1);
      }
      ValidRegrouped(m1, merging, upper, history);
    }
  }
}
