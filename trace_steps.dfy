/** One maintenance step of the spine at a time, on the layers as values: each
    lemma takes the layers before a step of `Spine` and the results the step's
    operations promise, and shows the layer invariant still holds and the
    batches are only regrouped. The methods of `Spine` are proved by these. */
module TraceSteps {
  import opened Wrappers
  import opened PowerOfTwo
  import opened TraceBatch
  import opened TraceLayers

  /** Completing a merge regroups its two inputs into the merged batch. */
  lemma {:induction false} MergeRegroups(b1: SpineBatch, b2: SpineBatch, fm: FuelingMerge)
    requires fm.b1 == b1 && fm.b2 == b2
    ensures Regrouped([b1, b2], [Done(fm)])
  {
    assert [b1, b2] == [b1] + [b2];
    AllPartsAppend([b1], [b2]);
    AllPartsSingle(b1);
    AllPartsSingle(b2);
    AllPartsSingle(Done(fm));
  }

  lemma {:induction false} BelowVacant(m: seq<MergeState>, k: nat)
    requires k <= |m|
    requires forall j | 0 <= j < k :: m[j].Vacant?
    ensures Below(m, k) == 0
  {
    BelowSame(m[..k] + seq(|m| - k, _ => Vacant), m, k);
    assert forall j | 0 <= j < k :: Acc(m[j], j) == 0;
    BelowZero(m, k);
  }

  lemma {:induction false} BelowZero(m: seq<MergeState>, k: nat)
    requires k <= |m|
    requires forall j | 0 <= j < k :: Acc(m[j], j) == 0
    ensures Below(m, k) == 0
  {
    if k > 0 {
      BelowZero(m, k - 1);
    }
  }

  lemma {:induction false} BelowPositive(m: seq<MergeState>, k: nat, j0: nat)
    requires j0 < k <= |m| && !m[j0].Vacant?
    ensures Below(m, k) >= 1
  {
    if k - 1 != j0 {
      BelowPositive(m, k - 1, j0);
    }
  }

  /** Inserting into a layer that is not merging claims one more `2^k`. */
  lemma {:induction false} AccInsert(s: MergeState, b: Option<SpineBatch>, k: nat, since: Frontier)
    requires Insertable(s, b)
    ensures Acc(InsertLayer(s, b, since), k) == Acc(s, k) + Pow2(k)
  {
  }

  /** The bounds on a layer that is not merging do not depend on the layers below it. */
  lemma {:induction false} LayerOkAtNotDouble(s: MergeState, k: nat, below: nat, below': nat)
    requires !s.Double? && LayerOkAt(s, k, below)
    ensures LayerOkAt(s, k, below')
  {
  }

  /** Inserting at `index` when every layer below is vacant appends the batch
      after all batches of the spine. */
  lemma {:induction false} FlattenInsertAt(m: seq<MergeState>, b: Option<SpineBatch>, index: nat, since: Frontier)
    requires index < |m| ==> Insertable(m[index], b)
    requires forall j | 0 <= j < index && j < |m| :: m[j].Vacant?
    ensures Flatten(InsertAtSeq(m, b, index, since)) == Flatten(m) + OptSeq(b)
  {
    var g := Grow(m, index);
    FlattenGrow(m, index);
    var s := InsertLayer(g[index], b, since);
    InsertLayerBatches(g[index], b, since);
    FlattenUpdate(g, index, s);
    FlattenAt(g, index);
    forall j | 0 <= j < index ensures g[..index][j].Vacant? {
      if j < |m| {
        assert g[..|m|][j] == g[j];
      }
    }
    FlattenVacant(g[..index]);
    var x := Flatten(g[index + 1..]);
    assert (x + LayerBatches(g[index])) + [] == x + LayerBatches(g[index]);
    assert (x + (LayerBatches(g[index]) + OptSeq(b))) + [] == x + (LayerBatches(g[index]) + OptSeq(b));
    assert x + (LayerBatches(g[index]) + OptSeq(b)) == x + LayerBatches(g[index]) + OptSeq(b);
  }

  /** When every layer below `index` is vacant and the batch continues the
      spine's batches, it may be inserted at `index` unless a merge is there. */
  lemma {:induction false} InsertableAtEnd(m: seq<MergeState>, b: Option<SpineBatch>, index: nat)
    requires index < |m| && !m[index].Double?
    requires forall j | 0 <= j < index :: m[j].Vacant?
    requires Chain(Flatten(m) + OptSeq(b))
    ensures Insertable(m[index], b)
  {
    if m[index].Single? && m[index].batch.Some? && b.Some? {
      FlattenAt(m, index);
      FlattenVacant(m[..index]);
      var f := Flatten(m);
      assert f == Flatten(m[index + 1..]) + [m[index].batch.value] + [];
      assert f[|f| - 1] == m[index].batch.value;
      ChainJoin(f, [b.value]);
    }
  }

  /** Completing layer `index` when every layer below is vacant regroups the
      spine's batches into the rest followed by the completed batch. */
  lemma {:induction false} FlattenCompleteAt(m: seq<MergeState>, index: nat, r: Option<SpineBatch>)
    requires index < |m|
    requires forall j | 0 <= j < index :: m[j].Vacant?
    requires Regrouped(LayerBatches(m[index]), OptSeq(r))
    ensures Regrouped(Flatten(m), Flatten(m[index := Vacant]) + OptSeq(r))
  {
    FlattenAt(m, index);
    FlattenUpdate(m, index, Vacant);
    FlattenVacant(m[..index]);
    var x := Flatten(m[index + 1..]);
    RegroupedInContext(x, LayerBatches(m[index]), OptSeq(r), []);
    assert x + [] == x && [] + x == x;
    assert (x + OptSeq(r)) + [] == x + OptSeq(r);
  }

  /** A regrouped prefix still chains with what follows it. */
  lemma {:induction false} RegroupedPrefix(a: seq<SpineBatch>, b: seq<SpineBatch>, c: seq<SpineBatch>)
    requires Regrouped(a, b)
    ensures Regrouped(a + c, b + c)
  {
    AllPartsAppend(a, c);
    AllPartsAppend(b, c);
    if Chain(a + c) {
      ChainAppend(a, c);
      ChainAppend(b, c);
    }
    if a != [] {
      assert (a + c)[0] == a[0] && (b + c)[0] == b[0];
      if c == [] {
        assert a + [] == a && [] + a == a;
        assert b + [] == b && [] + b == b;
      }
    }
  }

  lemma {:induction false} TotalLenAppend(m: seq<MergeState>, m': seq<MergeState>, b: Option<SpineBatch>)
    requires Flatten(m') == Flatten(m) + OptSeq(b)
    ensures TotalLen(m') == TotalLen(m) + (if b.Some? then b.value.Len() else 0)
  {
    AllPartsAppend(Flatten(m), OptSeq(b));
    SumLenAppend(AllParts(Flatten(m)), AllParts(OptSeq(b)));
    if b.Some? {
      AllPartsSingle(b.value);
    }
  }

  lemma {:induction false} RegroupedTotalLen(m: seq<MergeState>, m': seq<MergeState>)
    requires Regrouped(Flatten(m), Flatten(m'))
    ensures TotalLen(m') == TotalLen(m)
  {
  }

  // ---------------------------------------------------------------------------
  // apply_fuel

  /** `s'` is what `MergeState::work` with `fuel` makes of the layer `s`. */
  ghost predicate Worked(s: MergeState, s': MergeState, fuel: int) {
    && s'.WellFormed()
    && (!s.Double? ==> s' == s)
    && (s.Double? ==> s'.Double?)
    && (s.IsComplete() ==> s' == s)
    && (s.Double? && s.variant.InProgress? && s'.IsComplete() ==>
          s'.variant.result == Some(Completed(Done(s.variant.merge), Some((s.variant.b1, s.variant.b2)))))
    && (s.Double? && s.variant.InProgress? && !s'.IsComplete() ==>
          s'.variant.b1 == s.variant.b1 && s'.variant.b2 == s.variant.b2
          && s'.variant.merge.Remaining() <= s.variant.merge.Remaining()
          && (fuel >= 0 ==> s'.variant.merge.Remaining() == s.variant.merge.Remaining() - fuel))
  }

  /** Working one layer keeps its bounds and only regroups its batches; a merge
      still in progress afterwards has taken all of the fuel. */
  lemma {:induction false} WorkLayer(s: MergeState, s': MergeState, k: nat, below: nat, fuel: int)
    requires s.WellFormed() && LayerOkAt(s, k, below) && Worked(s, s', fuel)
    ensures LayerOkAt(s', k, below)
    ensures Regrouped(LayerBatches(s), LayerBatches(s'))
    ensures Acc(s', k) == Acc(s, k)
    ensures fuel >= 0 && s'.Double? && !s'.IsComplete() ==>
              s'.variant.merge.progress >= fuel
              && s'.variant.merge.Remaining() + fuel <= 4 * (Pow2(k) - below)
  {
    if s.Double? && s.variant.InProgress? && s'.IsComplete() {
      MergeRegroups(s.variant.b1, s.variant.b2, s.variant.merge);
    }
  }

  /** Working the merge at layer `i` keeps the invariant, claims the same
      capacity, only regroups batches, and leaves a merge that is still in
      progress settled for the fuel it was given. */
  lemma {:induction false} WorkStep(m: seq<MergeState>, i: nat, s': MergeState, fuel: int)
    requires LayersOk(m) && i < |m|
    requires Worked(m[i], s', fuel)
    ensures LayersOk(m[i := s'])
    ensures Regrouped(Flatten(m), Flatten(m[i := s']))
    ensures forall k | 0 <= k < i && Settled(m, k, fuel) :: Settled(m[i := s'], k, fuel)
    ensures fuel >= 0 && !s'.IsComplete() ==> Settled(m[i := s'], i, fuel)
  {
    var m' := m[i := s'];
    assert LayerOk(m, i) && m[i].WellFormed();
    WorkLayer(m[i], s', i, Below(m, i), fuel);
    forall k | 0 <= k <= |m| ensures BelowKept(m, m', k) {
      BelowSame(m, m', k);
    }
    assert BelowKept(m, m', i);
    forall k | 0 <= k < i && Settled(m, k, fuel) ensures Settled(m', k, fuel) {
      assert BelowKept(m, m', k);
    }
    FlattenAt(m, i);
    FlattenUpdate(m, i, s');
    RegroupedInContext(Flatten(m[i + 1..]), LayerBatches(m[i]), LayerBatches(s'), Flatten(m[..i]));
    RegroupedTotalLen(m, m');
    WorkOthers(m, m', i);
  }

  lemma {:induction false} WorkOthers(m: seq<MergeState>, m': seq<MergeState>, i: nat)
    requires LayersOk(m) && i < |m| && |m'| == |m|
    requires forall k | 0 <= k < |m| && k != i :: m'[k] == m[k]
    requires m'[i].WellFormed() && LayerOkAt(m'[i], i, Below(m, i))
    requires forall k | 0 <= k <= |m| :: BelowKept(m, m', k)
    ensures forall k | 0 <= k < |m'| :: m'[k].WellFormed() && LayerOk(m', k)
  {
    forall k | 0 <= k < |m'| ensures m'[k].WellFormed() && LayerOk(m', k) {
      assert BelowKept(m, m', k);
      if k != i {
        assert LayerOk(m, k);
      }
    }
  }

  /** The layer above `i`, vacant past the top. */
  function AboveLayer(m: seq<MergeState>, i: nat): MergeState
    requires i < |m|
  {
    if i + 1 < |m| then m[i + 1] else Vacant
  }

  /** The layers from `i + 2` up. */
  function AboveRest(m: seq<MergeState>, i: nat): seq<MergeState>
    requires i < |m|
  {
    if i + 1 < |m| then m[i + 2..] else []
  }

  lemma {:induction false} FlattenConcat(a: seq<MergeState>, b: seq<MergeState>)
    ensures Flatten(a + b) == Flatten(b) + Flatten(a)
  {
    FlattenSplit(a + b, |a|);
    assert (a + b)[|a|..] == b;
    assert (a + b)[..|a|] == a;
  }

  lemma {:induction false} FlattenOne(s: MergeState)
    ensures Flatten([s]) == LayerBatches(s)
  {
    assert [s][1..] == [];
  }

  /** The layers from `i` up: layer `i`, the layer above, and the rest. */
  lemma {:induction false} FlattenFrom(m: seq<MergeState>, i: nat)
    requires i < |m|
    ensures Flatten(m) == Flatten(AboveRest(m, i)) + LayerBatches(AboveLayer(m, i)) + LayerBatches(m[i]) + Flatten(m[..i])
  {
    FlattenAt(m, i);
    if i + 1 < |m| {
      FlattenTail(m, i + 1);
    } else {
      assert m[i + 1..] == [];
    }
  }

  /** Draining layer `i` into layer `i + 1` leaves layer `i` vacant, layer
      `i + 1` holding the drained batch, and every other layer as it was. */
  lemma {:induction false} DrainShape(m: seq<MergeState>, i: nat, r: Option<SpineBatch>, since: Frontier)
    requires i < |m| && Insertable(AboveLayer(m, i), r)
    ensures i + 1 < |m| ==> Insertable(m[i := Vacant][i + 1], r)
    ensures InsertAtSeq(m[i := Vacant], r, i + 1, since) == Drained(m, i, r, since)
  {
    var m1 := m[i := Vacant];
    var g := Grow(m1, i + 1);
    var lhs := InsertAtSeq(m1, r, i + 1, since);
    var rhs := Drained(m, i, r, since);
    assert |lhs| == |rhs|;
    forall j | 0 <= j < |lhs| ensures lhs[j] == rhs[j] {
      if j < |m1| {
        assert g[..|m1|][j] == g[j];
      }
    }
  }

  /** The layers after draining layer `i` into layer `i + 1`, layer by layer. */
  function Drained(m: seq<MergeState>, i: nat, r: Option<SpineBatch>, since: Frontier): (m': seq<MergeState>)
    requires i < |m| && Insertable(AboveLayer(m, i), r)
    ensures |m'| == (if i + 1 < |m| then |m| else |m| + 1)
    ensures forall j | 0 <= j < i :: m'[j] == m[j]
    ensures m'[i] == Vacant && m'[i + 1] == InsertLayer(AboveLayer(m, i), r, since)
    ensures forall k | i + 2 <= k < |m| :: m'[k] == m[k]
  {
    var m' := m[..i] + [Vacant, InsertLayer(AboveLayer(m, i), r, since)] + AboveRest(m, i);
    assert forall k | i + 2 <= k < |m| :: m'[k] == AboveRest(m, i)[k - i - 2];
    m'
  }

  lemma {:induction false} FlattenPair(s: MergeState)
    ensures Flatten([Vacant, s]) == LayerBatches(s)
  {
    assert [Vacant, s][1..] == [s];
    FlattenOne(s);
  }

  lemma {:induction false} FlattenDrained(p: seq<MergeState>, s: MergeState, q: seq<MergeState>)
    ensures Flatten(p + [Vacant, s] + q) == Flatten(q) + LayerBatches(s) + Flatten(p)
  {
    FlattenConcat(p + [Vacant, s], q);
    FlattenConcat(p, [Vacant, s]);
    FlattenPair(s);
    assert Flatten(q) + (LayerBatches(s) + Flatten(p)) == Flatten(q) + LayerBatches(s) + Flatten(p);
  }

  /** The drained layers show the same batches, regrouped. */
  lemma {:induction false} DrainFlatten(m: seq<MergeState>, i: nat, r: Option<SpineBatch>, since: Frontier)
    requires i < |m| && Insertable(AboveLayer(m, i), r)
    requires Regrouped(LayerBatches(m[i]), OptSeq(r))
    ensures Regrouped(Flatten(m), Flatten(Drained(m, i, r, since)))
  {
    var above := AboveLayer(m, i);
    var s := InsertLayer(above, r, since);
    FlattenDrained(m[..i], s, AboveRest(m, i));
    InsertLayerBatches(above, r, since);
    var w, y := Flatten(AboveRest(m, i)), Flatten(m[..i]);
    assert w + (LayerBatches(above) + OptSeq(r)) + y == w + LayerBatches(above) + OptSeq(r) + y;
    FlattenFrom(m, i);
    RegroupedInContext(w + LayerBatches(above), LayerBatches(m[i]), OptSeq(r), y);
  }

  /** The layer above a completed merge is not merging, and its batch ends
      where the merged one starts. */
  lemma {:induction false} DrainInsertable(m: seq<MergeState>, i: nat, r: Option<SpineBatch>)
    requires LayersOk(m) && i < |m| && m[i].IsComplete()
    requires Regrouped(LayerBatches(m[i]), OptSeq(r))
    ensures Insertable(AboveLayer(m, i), r)
  {
    var above := AboveLayer(m, i);
    if i + 1 < |m| {
      NoAdjacentDoubles(m, i);
      if above.Single? && above.batch.Some? && r.Some? {
        FlattenFrom(m, i);
        ChainMeet(Flatten(AboveRest(m, i)), LayerBatches(above), LayerBatches(m[i]), Flatten(m[..i]));
      }
    }
  }

  /** The drained layers claim the same capacity below every layer but `i + 1`. */
  lemma {:induction false} DrainBelow(m: seq<MergeState>, m': seq<MergeState>, i: nat, r: Option<SpineBatch>, since: Frontier)
    requires i < |m| && Insertable(AboveLayer(m, i), r) && m[i].Double?
    requires |m'| == (if i + 1 < |m| then |m| else |m| + 1)
    requires forall j | 0 <= j < i :: m'[j] == m[j]
    requires m'[i] == Vacant && m'[i + 1] == InsertLayer(AboveLayer(m, i), r, since)
    requires forall k | i + 2 <= k < |m| :: m'[k] == m[k]
    ensures forall k | 0 <= k <= i :: BelowKept(m, m', k)
    ensures Below(m', i + 1) == Below(m, i)
    ensures forall k | i + 2 <= k <= |m| :: BelowKept(m, m', k)
  {
    forall k | 0 <= k <= i ensures BelowKept(m, m', k) {
      BelowSame(m, m', k);
    }
    assert BelowKept(m, m', i);
    AccInsert(AboveLayer(m, i), r, i + 1, since);
    assert Below(m', i + 1) == Below(m', i) + Acc(m'[i], i);
    if i + 1 < |m| {
      assert Acc(m[i], i) == 2 * Pow2(i);
      assert Below(m', i + 2) == Below(m', i + 1) + Acc(m'[i + 1], i + 1);
      assert Below(m, i + 2) == Below(m, i) + Acc(m[i], i) + Acc(m[i + 1], i + 1);
      assert Below(m', i + 2) == Below(m, i + 2);
      forall k | i + 2 <= k <= |m| ensures BelowKept(m, m', k) {
        BelowDelta(m, m', i + 2, k);
      }
    }
  }

  /** Layer `i + 1` takes over the capacity layer `i` gave up and stays
      within its bounds. */
  lemma {:induction false} DrainLayerAbove(m: seq<MergeState>, m': seq<MergeState>, i: nat, r: Option<SpineBatch>, since: Frontier)
    requires LayersOk(m) && i < |m| && m[i].IsComplete()
    requires Insertable(AboveLayer(m, i), r)
    requires r.Some? ==> r.value.Len() == m[i].Len()
    requires |m'| == (if i + 1 < |m| then |m| else |m| + 1)
    requires forall j | 0 <= j < i :: m'[j] == m[j]
    requires m'[i] == Vacant && m'[i + 1] == InsertLayer(AboveLayer(m, i), r, since)
    requires forall k | i + 2 <= k < |m| :: m'[k] == m[k]
    requires forall k | 0 <= k <= i :: BelowKept(m, m', k)
    requires Below(m', i + 1) == Below(m, i)
    ensures m'[i + 1].WellFormed() && LayerOk(m', i + 1)
  {
    assert LayerOk(m, i);
    assert BelowKept(m, m', i);
    if i + 1 < |m| {
      assert LayerOk(m, i + 1);
    }
  }

  /** Every drained layer stays within its bounds. */
  lemma {:induction false} DrainEveryLayer(m: seq<MergeState>, m': seq<MergeState>, i: nat, r: Option<SpineBatch>, since: Frontier)
    requires LayersOk(m) && i < |m| && m[i].IsComplete()
    requires Insertable(AboveLayer(m, i), r)
    requires r.Some? ==> r.value.Len() == m[i].Len()
    requires |m'| == (if i + 1 < |m| then |m| else |m| + 1)
    requires forall j | 0 <= j < i :: m'[j] == m[j]
    requires m'[i] == Vacant && m'[i + 1] == InsertLayer(AboveLayer(m, i), r, since)
    requires forall k | i + 2 <= k < |m| :: m'[k] == m[k]
    requires forall k | 0 <= k <= i :: BelowKept(m, m', k)
    requires Below(m', i + 1) == Below(m, i)
    requires forall k | i + 2 <= k <= |m| :: BelowKept(m, m', k)
    ensures forall k | 0 <= k < |m'| :: m'[k].WellFormed() && LayerOk(m', k)
  {
    forall k | 0 <= k < |m'| ensures m'[k].WellFormed() && LayerOk(m', k) {
      if k == i + 1 {
        DrainLayerAbove(m, m', i, r, since);
      } else if k != i {
        assert BelowKept(m, m', k);
        assert LayerOk(m, k);
      }
    }
  }

  /** `LayersOk`, from its parts. */
  lemma {:induction false} LayersOkIntro(m: seq<MergeState>)
    requires forall k | 0 <= k < |m| :: m[k].WellFormed() && LayerOk(m, k)
    requires Chain(Flatten(m)) && TotalLen(m) < LEN_BOUND
    ensures LayersOk(m)
  {
  }

  /** The drained layers keep the invariant. */
  lemma {:induction false} DrainLayers(m: seq<MergeState>, m': seq<MergeState>, i: nat, r: Option<SpineBatch>, since: Frontier)
    requires LayersOk(m) && i < |m| && m[i].IsComplete()
    requires Insertable(AboveLayer(m, i), r)
    requires r.Some? ==> r.value.Len() == m[i].Len()
    requires |m'| == (if i + 1 < |m| then |m| else |m| + 1)
    requires forall j | 0 <= j < i :: m'[j] == m[j]
    requires m'[i] == Vacant && m'[i + 1] == InsertLayer(AboveLayer(m, i), r, since)
    requires forall k | i + 2 <= k < |m| :: m'[k] == m[k]
    requires Regrouped(Flatten(m), Flatten(m'))
    ensures LayersOk(m')
    ensures forall k | 0 <= k <= i :: BelowKept(m, m', k)
  {
    RegroupedTotalLen(m, m');
    DrainBelow(m, m', i, r, since);
    DrainEveryLayer(m, m', i, r, since);
    LayersOkIntro(m');
  }

  /** Draining the completed merge at layer `i` into layer `i + 1`: the layer
      above is never merging (so `insert_at` does not panic), the drained batch
      starts where the one above ends (so `begin_merge` does not panic), and
      the invariant holds afterwards with the same batches and the same
      capacity claimed below every other layer. */
  lemma {:induction false} DrainStep(m: seq<MergeState>, i: nat, r: Option<SpineBatch>, since: Frontier, fuel: int)
    requires LayersOk(m) && i < |m| && m[i].IsComplete()
    requires Regrouped(LayerBatches(m[i]), OptSeq(r))
    requires r.Some? ==> r.value.Len() == m[i].Len()
    ensures Insertable(AboveLayer(m, i), r)
    ensures i + 1 < |m| ==> Insertable(m[i := Vacant][i + 1], r)
    ensures InsertAtSeq(m[i := Vacant], r, i + 1, since) == Drained(m, i, r, since)
    ensures LayersOk(Drained(m, i, r, since))
    ensures Regrouped(Flatten(m), Flatten(Drained(m, i, r, since)))
    ensures forall k | 0 <= k < i && Settled(m, k, fuel) :: Settled(Drained(m, i, r, since), k, fuel)
  {
    DrainInsertable(m, i, r);
    DrainShape(m, i, r, since);
    DrainFlatten(m, i, r, since);
    var m' := Drained(m, i, r, since);
    DrainLayers(m, m', i, r, since);
    forall k | 0 <= k < i && Settled(m, k, fuel) ensures Settled(m', k, fuel) {
      assert BelowKept(m, m', k);
    }
  }

  /** Once every merge is settled for at least `8 << level` fuel, no merge is
      left at layer `level + 1` or below: such a merge needs at most
      `4 << level` work in all. */
  lemma {:induction false} SettledClearsLow(m: seq<MergeState>, level: nat, fuel: int)
    requires LayersOk(m)
    requires forall k | 0 <= k < |m| :: Settled(m, k, fuel)
    requires fuel >= 8 * Pow2(level)
    ensures forall k | 0 <= k < |m| && k <= level + 1 :: !m[k].Double?
  {
    forall k | 0 <= k < |m| && k <= level + 1 ensures !m[k].Double? {
      assert LayerOk(m, k) && m[k].WellFormed();
      assert Settled(m, k, fuel);
      SettledLow(m, k, level, fuel);
    }
  }

  lemma {:induction false} SettledLow(m: seq<MergeState>, k: nat, level: nat, fuel: int)
    requires k < |m| && k <= level + 1 && m[k].WellFormed() && LayerOk(m, k)
    requires Settled(m, k, fuel) && fuel >= 8 * Pow2(level)
    ensures !m[k].Double?
  {
    Pow2Monotonic(k, level + 1);
  }

  // ---------------------------------------------------------------------------
  // roll_up

  /** What `roll_up(index)` leaves: the layers below `index` vacant, layer
      `index` free for a batch of at most `2^index` updates, layer `index + 1`
      able to sit above that batch, the layers from `index + 2` up untouched,
      and the capacity claimed below them grown by less than `2^index`. */
  ghost predicate RolledUp(m: seq<MergeState>, m': seq<MergeState>, index: nat) {
    && index < |m'| && |m| <= |m'| && |m'| <= (if |m| < index + 2 then index + 2 else |m|)
    && (forall j | 0 <= j < index :: m'[j].Vacant?)
    && !m'[index].Double? && LayerOkAt(m'[index], index, 0)
    && (index + 1 < |m'| ==>
          LayerOkAt(m'[index + 1], index + 1, Pow2(index))
          && (m'[index + 1].Double? ==> m'[index].Vacant?))
    && (forall k | index + 2 <= k < |m| :: m'[k] == m[k])
    && (forall k | index + 2 <= k <= |m| :: BelowWithin(m, m', k, Pow2(index)))
    && (forall k | 0 <= k < |m'| :: m'[k].WellFormed())
  }

  /** Layers that agree from `p` up keep the difference of their `Below` at `p`. */
  lemma {:induction false} BelowShift(m: seq<MergeState>, m': seq<MergeState>, p: nat, bound: nat)
    requires p <= |m| <= |m'|
    requires forall j | p <= j < |m| :: m'[j] == m[j]
    requires Below(m', p) < Below(m, p) + bound
    ensures forall k | p <= k <= |m| :: BelowWithin(m, m', k, bound)
  {
    forall k | p <= k <= |m| ensures BelowWithin(m, m', k, bound) {
      BelowDelta(m, m', p, k);
    }
  }

  /** Without merges up to `index + 1`, growing the layers to `index` leaves
      nothing merging below `index + 2`, and the layers' bounds in place. */
  lemma {:induction false} GrowFacts(m: seq<MergeState>, index: nat)
    requires LayersOk(m)
    requires forall k | 0 <= k < |m| && k <= index + 1 :: !m[k].Double?
    ensures var g := Grow(m, index);
      && (forall k | 0 <= k < |g| && k <= index + 1 :: !g[k].Double?)
      && (forall k | 0 <= k < |g| :: g[k].WellFormed())
      && (forall k | 0 <= k < |g| && k <= index + 1 :: LayerOkAt(g[k], k, 0))
      && Below(g, index) < Pow2(index)
      && (index < |m| ==> Below(g, index) == Below(m, index))
  {
    var g := Grow(m, index);
    forall k | 0 <= k < |g| && k <= index + 1 ensures LayerOkAt(g[k], k, 0) {
      if k < |m| {
        assert LayerOk(m, k);
        LayerOkAtNotDouble(m[k], k, Below(m, k), 0);
      }
    }
    BelowNoDoubles(g, index);
    if index < |m| {
      BelowSame(m, g, index);
    }
  }

  /** Nothing below `index` to roll up: growing the layers is all it does. */
  lemma {:induction false} RollUpNothing(m: seq<MergeState>, index: nat)
    requires LayersOk(m)
    requires forall k | 0 <= k < |m| && k <= index + 1 :: !m[k].Double?
    requires forall j | 0 <= j < index && j < |m| :: m[j].Vacant?
    ensures RolledUp(m, Grow(m, index), index)
  {
    var g := Grow(m, index);
    GrowFacts(m, index);
    forall k | 0 <= k <= |m| ensures BelowKept(m, g, k) {
      BelowSame(m, g, k);
    }
    if index + 1 < |g| {
      LayerOkAtNotDouble(g[index + 1], index + 1, 0, Pow2(index));
    }
    forall k | index + 2 <= k <= |m| ensures BelowWithin(m, g, k, Pow2(index)) {
      assert BelowKept(m, g, k);
    }
    RolledUpIntro(m, g, index);
  }

  /** The merged batch of the layers below `index` lands in a vacant layer `index`. */
  lemma {:induction false} RollIntoVacant(g: seq<MergeState>, mv: seq<MergeState>, mf: seq<MergeState>, merged: Option<SpineBatch>, index: nat, j0: nat)
    requires RollBase(g, index)
    requires Below(g, index) < Pow2(index)
    requires |mv| == |g| && forall k | index <= k < |mv| :: mv[k] == g[k]
    requires forall j | 0 <= j < index :: mv[j].Vacant?
    requires j0 < index && !g[j0].Vacant?
    requires mv[index].Vacant? && mf == mv[index := Single(merged)]
    requires OptLen(merged) <= Below(g, index)
    ensures RolledUp(g, mf, index)
  {
    if index + 1 < |mf| {
      assert mf[index + 1] == g[index + 1];
      LayerOkAtNotDouble(mf[index + 1], index + 1, 0, Pow2(index));
    }
    forall j | index + 1 <= j < |g| ensures mf[j] == g[j] {
      assert mf[j] == mv[j];
    }
    BelowPositive(g, index, j0);
    BelowVacant(mf, index);
    RollUpVacantBelow(g, mf, index);
    forall k | 0 <= k < |mf| ensures mf[k].WellFormed() {
      if k != index {
        assert mf[k] == mv[k];
      }
    }
    RolledUpIntro(g, mf, index);
  }

  /** The capacity claimed below the layers above `index` grows by less than
      `2^index` when the nonempty layers below `index` move into a vacant
      layer `index`. */
  lemma {:induction false} RollUpVacantBelow(m: seq<MergeState>, mf: seq<MergeState>, index: nat)
    requires index < |m| <= |mf|
    requires forall j | index + 1 <= j < |m| :: mf[j] == m[j]
    requires Below(mf, index) == 0 && mf[index].Single?
    requires m[index].Vacant? && Below(m, index) > 0
    ensures forall k | index + 1 <= k <= |m| :: BelowWithin(m, mf, k, Pow2(index))
  {
    assert Below(mf, index + 1) == Below(mf, index) + Acc(mf[index], index);
    assert Below(m, index + 1) == Below(m, index) + Acc(m[index], index);
    BelowShift(m, mf, index + 1, Pow2(index));
  }

  /** The layer a rolled-up batch is pushed into, over `2^index` of capacity,
      stays within its bounds. */
  lemma {:induction false} RollUpLandBound(above: MergeState, r: Option<SpineBatch>, index: nat, since: Frontier)
    requires Insertable(above, r) && LayerOkAt(above, index + 1, 0)
    requires r.Some? ==> r.value.Len() < 2 * Pow2(index)
    ensures LayerOkAt(InsertLayer(above, r, since), index + 1, Pow2(index))
  {
  }

  /** The capacity claimed below the layers above `index + 1` grows by less
      than `2^index` when a single batch at `index` and the nonempty layers
      below it move up into layer `index + 1`. */
  lemma {:induction false} RollUpSingleBelow(m: seq<MergeState>, mf: seq<MergeState>, index: nat)
    requires index + 2 <= |m| <= |mf|
    requires forall j | index + 2 <= j < |m| :: mf[j] == m[j]
    requires Below(mf, index) == 0 && mf[index].Vacant?
    requires m[index].Single? && Below(m, index) > 0
    requires Acc(mf[index + 1], index + 1) == Acc(m[index + 1], index + 1) + Pow2(index + 1)
    ensures forall k | index + 2 <= k <= |m| :: BelowWithin(m, mf, k, Pow2(index))
  {
    assert Below(mf, index + 2) == Below(mf, index) + Acc(mf[index], index) + Acc(mf[index + 1], index + 1);
    assert Below(m, index + 2) == Below(m, index) + Acc(m[index], index) + Acc(m[index + 1], index + 1);
    BelowShift(m, mf, index + 2, Pow2(index));
  }

  /** `RolledUp`, conjunct by conjunct. */
  lemma {:induction false} RolledUpIntro(m: seq<MergeState>, m': seq<MergeState>, index: nat)
    requires index < |m'| && |m| <= |m'| && |m'| <= (if |m| < index + 2 then index + 2 else |m|)
    requires forall j | 0 <= j < index :: m'[j].Vacant?
    requires !m'[index].Double? && LayerOkAt(m'[index], index, 0)
    requires index + 1 < |m'| ==>
      LayerOkAt(m'[index + 1], index + 1, Pow2(index)) && (m'[index + 1].Double? ==> m'[index].Vacant?)
    requires forall k | index + 2 <= k < |m| :: m'[k] == m[k]
    requires forall k | index + 2 <= k <= |m| :: BelowWithin(m, m', k, Pow2(index))
    requires forall k | 0 <= k < |m'| :: m'[k].WellFormed()
    ensures RolledUp(m, m', index)
  {
  }

  /** The state of `roll_up` once the merge it began at layer `index` is
      complete: the layers up to `index` are vacant, those above are the
      grown layers `g`, and the completed batch `r`, which follows their
      batches, holds the batch of layer `index` and the merged one. */
  ghost predicate Pushing(g: seq<MergeState>, mz: seq<MergeState>, r: Option<SpineBatch>, index: nat) {
    && index < |g| == |mz| && g[index].Single?
    && (forall j | 0 <= j <= index :: mz[j].Vacant?)
    && (forall k | index < k < |mz| :: mz[k] == g[k])
    && OptLen(r) <= g[index].Len() + Below(g, index)
    && Regrouped(Flatten(g), Flatten(mz) + OptSeq(r))
  }

  /** The merged batch of the layers below `index`, merged with the batch at
      layer `index`, is pushed to layer `index + 1`. */
  lemma {:induction false} RollThroughSingle(g: seq<MergeState>, mz: seq<MergeState>, mf: seq<MergeState>, r: Option<SpineBatch>, index: nat, j0: nat, since: Frontier)
    requires RollBase(g, index) && Below(g, index) < Pow2(index)
    requires Pushing(g, mz, r, index) && (index + 1 < |mz| ==> Insertable(mz[index + 1], r))
    requires j0 < index && !g[j0].Vacant?
    requires mf == InsertAtSeq(mz, r, index + 1, since)
    ensures RolledUp(g, mf, index)
  {
    var above := AboveLayer(mz, index);
    assert Insertable(above, r);
    DrainShape(mz, index, r, since);
    assert mz[index := Vacant] == mz;
    assert mf == Drained(mz, index, r, since);
    assert LayerOkAt(g[index], index, 0);
    assert LayerOkAt(above, index + 1, 0) && above.WellFormed() by {
      if index + 1 < |mz| {
        assert above == g[index + 1];
      }
    }
    RollUpLandBound(above, r, index, since);
    BelowPositive(g, index, j0);
    BelowVacant(mf, index);
    AccInsert(above, r, index + 1, since);
    if index + 1 < |g| {
      forall j | index + 2 <= j < |g| ensures mf[j] == g[j] {
        assert mf[j] == mz[j];
      }
      RollUpSingleBelow(g, mf, index);
    }
    forall k | 0 <= k < |mf| ensures mf[k].WellFormed() {
      if k < index || k > index + 1 {
        assert mf[k] == mz[k];
      }
    }
    RolledUpIntro(g, mf, index);
  }

  /** What `roll_up` leaves of the grown layers it leaves of the layers it
      grew them from. */
  lemma {:induction false} RolledUpGrow(m: seq<MergeState>, g: seq<MergeState>, m': seq<MergeState>, index: nat)
    requires g == Grow(m, index) && RolledUp(g, m', index)
    ensures RolledUp(m, m', index)
  {
    forall k | index + 2 <= k <= |m| ensures BelowWithin(m, m', k, Pow2(index)) {
      BelowSame(m, g, k);
      assert BelowWithin(g, m', k, Pow2(index));
    }
  }

  /** The state of `roll_up`'s loop at `i`: the layers below `i` are vacant,
      those from `i` up are the grown layers `g`, and the batches of `g` are
      regrouped into the layers followed by the merged batch, which is no
      larger than the capacity claimed below `i`. */
  ghost predicate Rolling(g: seq<MergeState>, mc: seq<MergeState>, merged: Option<SpineBatch>, i: nat) {
    && i <= |g| && |mc| == |g|
    && (forall j | 0 <= j < i :: mc[j].Vacant?)
    && (forall j | i <= j < |g| :: mc[j] == g[j])
    && Regrouped(Flatten(g), Flatten(mc) + OptSeq(merged))
    && OptLen(merged) <= Below(g, i)
  }

  /** The facts about the grown layers `roll_up` relies on. */
  ghost predicate RollBase(g: seq<MergeState>, index: nat) {
    && index < |g|
    && (forall k | 0 <= k < |g| && k <= index + 1 :: !g[k].Double? && LayerOkAt(g[k], k, 0))
    && (forall k | 0 <= k < |g| :: g[k].WellFormed())
    && Chain(Flatten(g)) && TotalLen(g) < LEN_BOUND
  }

  lemma {:induction false} RollBaseGrow(m: seq<MergeState>, index: nat)
    requires LayersOk(m)
    requires forall k | 0 <= k < |m| && k <= index + 1 :: !m[k].Double?
    ensures RollBase(Grow(m, index), index)
    ensures Below(Grow(m, index), index) < Pow2(index)
    ensures Flatten(Grow(m, index)) == Flatten(m)
  {
    var g := Grow(m, index);
    GrowFacts(m, index);
    FlattenGrow(m, index);
    assert TotalLen(g) == TotalLen(m);
    assert Chain(Flatten(g));
  }

  /** In the `roll_up` loop, layer `i` can take the merged batch. */
  lemma {:induction false} RollInsertable(g: seq<MergeState>, index: nat, mc: seq<MergeState>, merged: Option<SpineBatch>, i: nat)
    requires RollBase(g, index) && i <= index && Rolling(g, mc, merged, i)
    ensures Insertable(mc[i], merged)
  {
    assert Chain(Flatten(mc) + OptSeq(merged));
    assert mc[i] == g[i];
    InsertableAtEnd(mc, merged, i);
  }

  /** Inserting the merged batch at layer `i` in the `roll_up` loop keeps the
      batches of the grown layers, and leaves at `i` a merge that can be
      completed, of no more updates than the capacity claimed up to `i`. */
  lemma {:induction false} RollInsert(g: seq<MergeState>, index: nat, mc: seq<MergeState>, m1: seq<MergeState>,
                   merged: Option<SpineBatch>, i: nat, since: Frontier)
    requires RollBase(g, index) && i <= index && Rolling(g, mc, merged, i)
    requires Insertable(mc[i], merged) && m1 == mc[i := InsertLayer(mc[i], merged, since)]
    ensures Regrouped(Flatten(g), Flatten(m1))
    ensures m1[i].WellFormed() && (m1[i].Double? <==> mc[i].Single?)
    ensures m1[i].Double? && m1[i].variant.InProgress? ==> m1[i].variant.merge.Remaining() < ISIZE_MAX
    ensures m1[i].Len() == mc[i].Len() + OptLen(merged)
    ensures m1[i].Len() <= Below(g, i + 1)
  {
    InsertAtWithin(mc, merged, i, since);
    FlattenInsertAt(mc, merged, i, since);
    RegroupedTotalLen(g, m1);
    LayerLenBound(m1, i);
    InsertLayerLen(mc[i], merged, since);
    assert mc[i] == g[i];
    assert Below(g, i + 1) == Below(g, i) + Acc(g[i], i);
    assert LayerOkAt(g[i], i, 0);
  }

  /** Completing the merge at `i` hands the loop its next merged batch. */
  lemma {:induction false} RollComplete(g: seq<MergeState>, m1: seq<MergeState>, m2: seq<MergeState>, i: nat, r: Option<SpineBatch>)
    requires i < |m1| && (forall j | 0 <= j < i :: m1[j].Vacant?)
    requires Regrouped(Flatten(g), Flatten(m1))
    requires Regrouped(LayerBatches(m1[i]), OptSeq(r))
    requires m2 == m1[i := Vacant]
    ensures Regrouped(Flatten(g), Flatten(m2) + OptSeq(r))
  {
    FlattenCompleteAt(m1, i, r);
    RegroupedTransitive(Flatten(g), Flatten(m1), Flatten(m2) + OptSeq(r));
  }

  /** Before the `roll_up` loop nothing has been merged. */
  lemma {:induction false} RollStart(g: seq<MergeState>)
    ensures Rolling(g, g, None, 0)
  {
    assert Flatten(g) + [] == Flatten(g) && [] + Flatten(g) == Flatten(g);
  }

  /** One round of the `roll_up` loop: inserting the merged batch at layer
      `i` and completing that layer carries the loop's state to `i + 1`. */
  lemma {:induction false} RollStep(g: seq<MergeState>, index: nat, mc: seq<MergeState>, m1: seq<MergeState>, m2: seq<MergeState>,
                 merged: Option<SpineBatch>, i: nat, r: Option<SpineBatch>, since: Frontier)
    requires RollBase(g, index) && i < index && Rolling(g, mc, merged, i)
    requires Insertable(mc[i], merged) && m1 == mc[i := InsertLayer(mc[i], merged, since)]
    requires Regrouped(LayerBatches(m1[i]), OptSeq(r)) && OptLen(r) == m1[i].Len()
    requires m2 == m1[i := Vacant]
    ensures Rolling(g, m2, r, i + 1)
  {
    RollInsert(g, index, mc, m1, merged, i, since);
    assert forall j | 0 <= j < i :: m1[j] == mc[j];
    RollComplete(g, m1, m2, i, r);
    forall j | 0 <= j < i + 1 ensures m2[j].Vacant? {
      if j < i {
        assert m2[j] == mc[j];
      }
    }
    forall j | i + 1 <= j < |g| ensures m2[j] == g[j] {
      assert m2[j] == mc[j];
    }
  }

  /** `roll_up` ends by putting the merged batch into a vacant layer `index`. */
  lemma {:induction false} RollFinishVacant(m: seq<MergeState>, g: seq<MergeState>, mv: seq<MergeState>, mf: seq<MergeState>,
                         merged: Option<SpineBatch>, index: nat, j0: nat, since: Frontier)
    requires g == Grow(m, index) && Flatten(g) == Flatten(m)
    requires RollBase(g, index) && Rolling(g, mv, merged, index)
    requires Below(g, index) < Pow2(index)
    requires j0 < index && !g[j0].Vacant?
    requires mv[index].Vacant? && mf == mv[index := InsertLayer(mv[index], merged, since)]
    ensures RolledUp(m, mf, index)
    ensures Regrouped(Flatten(m), Flatten(mf))
  {
    RollInsert(g, index, mv, mf, merged, index, since);
    RollIntoVacant(g, mv, mf, merged, index, j0);
    RolledUpGrow(m, g, mf, index);
  }

  /** Completing the merge `roll_up` began at layer `index` leaves the state
      `Pushing`. */
  lemma {:induction false} RollPushReady(g: seq<MergeState>, index: nat, mv: seq<MergeState>, m1: seq<MergeState>, mz: seq<MergeState>,
                      merged: Option<SpineBatch>, r: Option<SpineBatch>, since: Frontier)
    requires RollBase(g, index) && Rolling(g, mv, merged, index)
    requires mv[index].Single? && Insertable(mv[index], merged)
    requires m1 == mv[index := InsertLayer(mv[index], merged, since)] && mz == m1[index := Vacant]
    requires Regrouped(LayerBatches(m1[index]), OptSeq(r)) && OptLen(r) == m1[index].Len()
    ensures Pushing(g, mz, r, index) && (index + 1 < |mz| ==> Insertable(mz[index + 1], r))
  {
    RollPushGroups(g, index, mv, m1, mz, merged, r, since);
    forall k | index < k < |mz| ensures mz[k] == g[k] {
      assert mz[k] == mv[k];
    }
    forall j | 0 <= j <= index ensures mz[j].Vacant? {
      if j < index {
        assert mz[j] == mv[j];
      }
    }
    assert Chain(Flatten(mz) + OptSeq(r));
    if index + 1 < |mz| {
      InsertableAtEnd(mz, r, index + 1);
    }
  }

  /** The completed batch holds the batch of layer `index` and the merged
      one, and follows the batches left in the layers. */
  lemma {:induction false} RollPushGroups(g: seq<MergeState>, index: nat, mv: seq<MergeState>, m1: seq<MergeState>, mz: seq<MergeState>,
                       merged: Option<SpineBatch>, r: Option<SpineBatch>, since: Frontier)
    requires RollBase(g, index) && Rolling(g, mv, merged, index)
    requires mv[index].Single? && Insertable(mv[index], merged)
    requires m1 == mv[index := InsertLayer(mv[index], merged, since)] && mz == m1[index := Vacant]
    requires Regrouped(LayerBatches(m1[index]), OptSeq(r)) && OptLen(r) == m1[index].Len()
    ensures Regrouped(Flatten(g), Flatten(mz) + OptSeq(r))
    ensures OptLen(r) <= g[index].Len() + Below(g, index)
  {
    RollInsert(g, index, mv, m1, merged, index, since);
    RollComplete(g, m1, mz, index, r);
    assert mv[index] == g[index];
  }

  /** `roll_up` ends by pushing the batch completed at layer `index` into
      layer `index + 1`. */
  lemma {:induction false} RollFinishDouble(m: seq<MergeState>, g: seq<MergeState>, mz: seq<MergeState>, mf: seq<MergeState>,
                         r: Option<SpineBatch>, index: nat, j0: nat, since: Frontier)
    requires g == Grow(m, index) && Flatten(g) == Flatten(m)
    requires RollBase(g, index) && Below(g, index) < Pow2(index)
    requires Pushing(g, mz, r, index) && (index + 1 < |mz| ==> Insertable(mz[index + 1], r))
    requires j0 < index && !g[j0].Vacant?
    requires mf == InsertAtSeq(mz, r, index + 1, since)
    ensures RolledUp(m, mf, index)
    ensures Regrouped(Flatten(m), Flatten(mf))
  {
    RollPushFlat(g, mz, mf, r, index, since);
    RollThroughSingle(g, mz, mf, r, index, j0, since);
    RolledUpGrow(m, g, mf, index);
  }

  /** Pushing the completed batch up keeps the batches of the grown layers. */
  lemma {:induction false} RollPushFlat(g: seq<MergeState>, mz: seq<MergeState>, mf: seq<MergeState>, r: Option<SpineBatch>, index: nat, since: Frontier)
    requires Pushing(g, mz, r, index) && (index + 1 < |mz| ==> Insertable(mz[index + 1], r))
    requires mf == InsertAtSeq(mz, r, index + 1, since)
    ensures Regrouped(Flatten(g), Flatten(mf))
  {
    FlattenInsertAt(mz, r, index + 1, since);
  }

  // ---------------------------------------------------------------------------
  // introduce_batch

  /** A layer from `level + 2` up keeps its bounds when the capacity below it
      grows by less than `2 << level`: a merge there was settled with fuel
      `8 << level`. */
  lemma {:induction false} IntroduceHighLayer(s: MergeState, k: nat, below: nat, below': nat, fuel: int, level: nat)
    requires s.WellFormed() && LayerOkAt(s, k, below)
    requires s.Double? ==>
      s.variant.InProgress? && fuel >= 8 * Pow2(level)
      && s.variant.merge.Remaining() + fuel <= 4 * (Pow2(k) - below)
    requires below' < below + 2 * Pow2(level)
    ensures LayerOkAt(s, k, below')
  {
  }

  /** The new batch's layer `level` stays within its bounds. */
  lemma {:induction false} IntroduceLevelLayer(s: MergeState, batch: Option<SpineBatch>, level: nat, since: Frontier)
    requires !s.Double? && LayerOkAt(s, level, 0) && Insertable(s, batch)
    requires batch.Some? ==> batch.value.Len() <= Pow2(level)
    ensures LayerOkAt(InsertLayer(s, batch, since), level, 0)
    ensures InsertLayer(s, batch, since).WellFormed()
  {
  }

  /** Inserting at `level` above vacant layers claims `2^level` more below every
      higher layer. */
  lemma {:induction false} IntroduceBelow(m2: seq<MergeState>, m3: seq<MergeState>, batch: Option<SpineBatch>, level: nat, k: nat, since: Frontier)
    requires level < |m2| && level + 1 <= k <= |m2|
    requires forall j | 0 <= j < level :: m2[j].Vacant?
    requires Insertable(m2[level], batch)
    requires |m3| == |m2| && m3[level] == InsertLayer(m2[level], batch, since)
    requires forall j | 0 <= j < |m2| && j != level :: m3[j] == m2[j]
    ensures Below(m3, k) == Below(m2, k) + Pow2(level)
  {
    AccInsert(m2[level], batch, level, since);
    BelowVacant(m3, level);
    BelowVacant(m2, level);
    assert Below(m3, level + 1) == Below(m3, level) + Acc(m3[level], level);
    assert Below(m2, level + 1) == Below(m2, level) + Acc(m2[level], level);
    BelowDelta(m2, m3, level + 1, k);
  }

  /** `IntroduceHighLayer` at layer `k` of the layers before and after. */
  lemma {:induction false} IntroduceHighAt(m1: seq<MergeState>, m3: seq<MergeState>, k: nat, fuel: int, level: nat)
    requires k < |m1| && k < |m3| && m3[k] == m1[k]
    requires m1[k].WellFormed() && LayerOk(m1, k)
    requires m1[k].Double? ==> fuel >= 8 * Pow2(level) && Settled(m1, k, fuel)
    requires Below(m3, k) < Below(m1, k) + 2 * Pow2(level)
    ensures m3[k].WellFormed() && LayerOk(m3, k)
  {
    IntroduceHighLayer(m1[k], k, Below(m1, k), Below(m3, k), fuel, level);
  }

  /** Layer `level + 1` keeps its bounds over the new batch: it merges only
      above a vacant layer `level`. */
  lemma {:induction false} IntroduceNextAt(m2: seq<MergeState>, m3: seq<MergeState>, batch: Option<SpineBatch>, level: nat, since: Frontier)
    requires level + 1 < |m2|
    requires forall j | 0 <= j < level :: m2[j].Vacant?
    requires Insertable(m2[level], batch)
    requires |m3| == |m2| && m3[level] == InsertLayer(m2[level], batch, since)
    requires forall j | 0 <= j < |m2| && j != level :: m3[j] == m2[j]
    requires m2[level + 1].WellFormed() && LayerOkAt(m2[level + 1], level + 1, Pow2(level))
    requires m2[level + 1].Double? ==> m2[level].Vacant?
    ensures m3[level + 1].WellFormed() && LayerOk(m3, level + 1)
  {
    IntroduceBelow(m2, m3, batch, level, level + 1, since);
    assert m3[level + 1] == m2[level + 1];
    if m2[level + 1].Double? {
      BelowVacant(m2, level);
      assert Below(m2, level + 1) == Below(m2, level) + Acc(m2[level], level);
    } else {
      LayerOkAtNotDouble(m3[level + 1], level + 1, Pow2(level), Below(m3, level + 1));
    }
  }

  /** The bounds of every layer after inserting the new batch at `level`. */
  lemma {:induction false} IntroduceLayers(m1: seq<MergeState>, m2: seq<MergeState>, m3: seq<MergeState>, batch: Option<SpineBatch>, level: nat, fuel: int, since: Frontier)
    requires LayersOk(m1)
    requires NoDoubles(m1) || (fuel >= 8 * Pow2(level) && forall k | 0 <= k < |m1| :: Settled(m1, k, fuel))
    requires RolledUp(m1, m2, level)
    requires Insertable(m2[level], batch)
    requires batch.Some? ==> batch.value.Len() <= Pow2(level)
    requires |m3| == |m2| && m3[level] == InsertLayer(m2[level], batch, since)
    requires forall k | 0 <= k < |m2| && k != level :: m3[k] == m2[k]
    ensures forall k | 0 <= k < |m3| :: m3[k].WellFormed() && LayerOk(m3, k)
  {
    BelowVacant(m3, level);
    IntroduceLevelLayer(m2[level], batch, level, since);
    forall k | 0 <= k < |m3| ensures m3[k].WellFormed() && LayerOk(m3, k) {
      if k == level + 1 {
        IntroduceNextAt(m2, m3, batch, level, since);
      } else if k >= level + 2 {
        IntroduceBelow(m2, m3, batch, level, k, since);
        assert BelowWithin(m1, m2, k, Pow2(level));
        assert m1[k].WellFormed() && LayerOk(m1, k);
        assert m1[k].Double? ==> fuel >= 8 * Pow2(level) && Settled(m1, k, fuel);
        IntroduceHighAt(m1, m3, k, fuel, level);
      }
    }
  }

  /** Inserting the new batch at `level` after `apply_fuel` and `roll_up`
      restores the invariant: every merge in progress above had fuel
      `8 << level` to spare, twice what the new batch and the rolled-up
      batches can claim. */
  lemma {:induction false} IntroduceOk(m1: seq<MergeState>, m2: seq<MergeState>, batch: Option<SpineBatch>, level: nat, fuel: int, since: Frontier)
    requires LayersOk(m1)
    requires NoDoubles(m1) || (fuel >= 8 * Pow2(level) && forall k | 0 <= k < |m1| :: Settled(m1, k, fuel))
    requires RolledUp(m1, m2, level)
    requires Regrouped(Flatten(m1), Flatten(m2))
    requires Insertable(m2[level], batch)
    requires Chain(Flatten(m2) + OptSeq(batch))
    requires batch.Some? ==> batch.value.Len() <= Pow2(level)
    requires TotalLen(m1) + (if batch.Some? then batch.value.Len() else 0) < LEN_BOUND
    ensures Flatten(InsertAtSeq(m2, batch, level, since)) == Flatten(m2) + OptSeq(batch)
    ensures LayersOk(InsertAtSeq(m2, batch, level, since))
  {
    var m3 := InsertAtSeq(m2, batch, level, since);
    FlattenInsertAt(m2, batch, level, since);
    TotalLenAppend(m2, m3, batch);
    RegroupedTotalLen(m1, m2);
    IntroduceLayers(m1, m2, m3, batch, level, fuel, since);
  }

  // ---------------------------------------------------------------------------
  // tidy_layers

  /** Layers that agree with `m` below `p` and hold a single batch of at most
      `2^p` updates at the top `p` keep the invariant's bounds. */
  lemma {:induction false} TopLayers(m: seq<MergeState>, m': seq<MergeState>, p: nat)
    requires LayersOk(m) && p < |m| && |m'| == p + 1
    requires forall k | 0 <= k < p :: m'[k] == m[k]
    requires m'[p].WellFormed() && LayerOkAt(m'[p], p, Below(m, p))
    ensures forall k | 0 <= k < |m'| :: m'[k].WellFormed() && LayerOk(m', k)
  {
    forall k | 0 <= k <= p ensures BelowKept(m, m', k) {
      BelowSame(m, m', k);
    }
    forall k | 0 <= k < |m'| ensures m'[k].WellFormed() && LayerOk(m', k) {
      assert BelowKept(m, m', k);
      if k < p {
        assert LayerOk(m, k);
      }
    }
  }

  /** Dropping an empty layer just below the top moves the top batch down. */
  lemma {:induction false} TidyRemove(m: seq<MergeState>, p: nat)
    requires LayersOk(m) && p + 2 == |m|
    requires m[p].Vacant? || m[p] == Single(None)
    requires m[p + 1].Single? && LayerOkAt(m[p + 1], p, 0)
    ensures LayersOk(m[..p] + m[p + 1..])
    ensures Flatten(m[..p] + m[p + 1..]) == Flatten(m)
  {
    var m' := m[..p] + m[p + 1..];
    FlattenConcat(m[..p], m[p + 1..]);
    FlattenAt(m, p);
    assert Flatten(m[p + 1..]) + [] == Flatten(m[p + 1..]) && [] + Flatten(m[p + 1..]) == Flatten(m[p + 1..]);
    assert m'[p] == m[p + 1];
    LayerOkAtNotDouble(m[p + 1], p, 0, Below(m, p));
    TopLayers(m, m', p);
  }

  /** A merge of a batch of at most `2^p` updates into the layer `p` above at
      most `2^p / 2` claimed capacity is not invaded. */
  lemma {:induction false} TidyMergeBound(top: MergeState, batch: SpineBatch, p: nat, below: nat, since: Frontier)
    requires top.Single? && LayerOkAt(top, p, 0) && Insertable(top, Some(batch))
    requires batch.Len() <= Pow2(p)
    requires below <= Pow2(p + 2) / 8
    ensures LayerOkAt(InsertLayer(top, Some(batch), since), p, below)
  {
    assert Pow2(p + 2) == 4 * Pow2(p);
  }

  lemma {:induction false} TidyShape(m: seq<MergeState>, p: nat, b: Option<SpineBatch>, since: Frontier)
    requires p + 2 == |m| && Insertable(m[p + 1], b)
    ensures InsertAtSeq(m[..p] + m[p + 1..], b, p, since) == m[..p] + [InsertLayer(m[p + 1], b, since)]
  {
  }

  /** The top batch merged into the layer below it: the batch there starts
      where the top one ends, and the batches are as before. */
  lemma {:induction false} TidyMergeFlatten(m: seq<MergeState>, p: nat, batch: SpineBatch, since: Frontier)
    requires Chain(Flatten(m)) && p + 2 == |m|
    requires m[p] == Single(Some(batch))
    requires m[p + 1].Single?
    ensures Insertable(m[p + 1], Some(batch))
    ensures Flatten(m[..p] + [InsertLayer(m[p + 1], Some(batch), since)]) == Flatten(m)
  {
    var top := m[p + 1];
    var y := Flatten(m[..p]);
    FlattenAt(m, p);
    FlattenTail(m, p + 1);
    assert m[p + 2..] == [];
    assert LayerBatches(top) + [] == LayerBatches(top) && [] + LayerBatches(top) == LayerBatches(top);
    if top.batch.Some? {
      ChainMeet([], LayerBatches(top), [batch], y);
    }
    var s := InsertLayer(top, Some(batch), since);
    FlattenConcat(m[..p], [s]);
    FlattenOne(s);
    InsertLayerBatches(top, Some(batch), since);
  }

  /** Merging the top batch into the layer below it when few enough records sit
      beneath: the batch there starts where the top one ends, and the new
      merge is not invaded. */
  lemma {:induction false} TidyMerge(m: seq<MergeState>, p: nat, batch: SpineBatch, since: Frontier)
    requires LayersOk(m) && p + 2 == |m|
    requires m[p] == Single(Some(batch))
    requires m[p + 1].Single? && LayerOkAt(m[p + 1], p, 0)
    requires Below(m, p) <= Pow2(p + 2) / 8
    ensures Insertable(m[p + 1], Some(batch))
    ensures var m' := InsertAtSeq(m[..p] + m[p + 1..], Some(batch), p, since);
      LayersOk(m') && Flatten(m') == Flatten(m)
  {
    var top := m[p + 1];
    TidyMergeFlatten(m, p, batch, since);
    var s := InsertLayer(top, Some(batch), since);
    TidyShape(m, p, Some(batch), since);
    var m' := m[..p] + [s];
    assert LayerOk(m, p);
    TidyMergeBound(top, batch, p, Below(m, p), since);
    TopLayers(m, m', p);
  }
}
