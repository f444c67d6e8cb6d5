/** The batches of a persist trace and the state of one layer of its spine:
    `SpineBatch`, `FuelingMerge`, `MergeVariant` and `MergeState`.

    Frontiers are totally ordered here and modelled as natural numbers: the
    minimum frontier is 0 and the join of two frontiers is their maximum. A
    `HollowBatch` is reduced to its description and its number of updates. */
module TraceBatch {
  import opened Wrappers

  /** Bounds of Rust's `isize` and the modulus of `usize` on a 64-bit target. */
  const ISIZE_MAX: int := 0x7fff_ffff_ffff_ffff
  const ISIZE_MIN: int := -0x8000_0000_0000_0000
  const USIZE_MODULUS: int := 0x1_0000_0000_0000_0000

  predicate IsIsize(x: int) {
    ISIZE_MIN <= x <= ISIZE_MAX
  }

  /** Rust's `x as usize` for an `isize`: negative values wrap around. */
  function AsUsize(x: int): (r: nat)
    requires IsIsize(x)
    ensures r % USIZE_MODULUS == x % USIZE_MODULUS
    ensures x >= 0 ==> r == x
    ensures x < 0 ==> r > ISIZE_MAX
  {
    if x >= 0 then x else x + USIZE_MODULUS
  }

  /** Rust's `x as isize` for a `usize`: values past `isize::MAX` wrap around
      to negative ones. */
  function AsIsize(x: nat): (r: int)
    requires x < USIZE_MODULUS
    ensures IsIsize(r)
    ensures r % USIZE_MODULUS == x % USIZE_MODULUS
    ensures x <= ISIZE_MAX ==> r == x
    ensures x > ISIZE_MAX ==> r < 0
  {
    if x <= ISIZE_MAX then x else x - USIZE_MODULUS
  }

  function Min(a: int, b: int): int {
    if a <= b then a else b
  }

  type Frontier = nat

  /** The join of two frontiers: their least upper bound. */
  function Join(a: Frontier, b: Frontier): (r: Frontier)
    ensures a <= r && b <= r
    ensures r == a || r == b
  {
    if a <= b then b else a
  }

  /** The interval `[lower, upper)` of times a batch covers, and the frontier
      `since` it has been compacted to. */
  datatype Description = Description(lower: Frontier, upper: Frontier, since: Frontier)

  /** A batch written to blob storage, known by its description and its length. */
  datatype HollowBatch = HollowBatch(desc: Description, len: nat)

  /** The total number of updates in a sequence of hollow batches. */
  function SumLen(parts: seq<HollowBatch>): nat
  {
    if parts == [] then 0 else SumLen(parts[..|parts| - 1]) + parts[|parts| - 1].len
  }

  lemma {:induction false} SumLenAppend(a: seq<HollowBatch>, b: seq<HollowBatch>)
    ensures SumLen(a + b) == SumLen(a) + SumLen(b)
  {
    if b != [] {
      calc {
        SumLen(a + b);
        { assert (a + b)[..|a + b| - 1] == a + b[..|b| - 1]; }
        SumLen(a + b[..|b| - 1]) + b[|b| - 1].len;
        { SumLenAppend(a, b[..|b| - 1]); }
        SumLen(a) + SumLen(b[..|b| - 1]) + b[|b| - 1].len;
      }
    } else {
      assert a + b == a;
    }
  }

  /** A batch of the spine: either one hollow batch, or the logical result of
      merging several of them, whose description spans all of them. */
  datatype SpineBatch =
    | Merged(hollow: HollowBatch)
    | Fueled(desc: Description, parts: seq<HollowBatch>)
  {
    function Desc(): Description {
      match this
      case Merged(b) => b.desc
      case Fueled(d, _) => d
    }

    function Lower(): Frontier {
      Desc().lower
    }

    function Upper(): Frontier {
      Desc().upper
    }

    /** The hollow batches this batch stands for, oldest first. */
    function Parts(): seq<HollowBatch> {
      match this
      case Merged(b) => [b]
      case Fueled(_, parts) => parts
    }

    /** The number of updates: the sum of the lengths of the parts. */
    function Len(): (n: nat)
      ensures n == SumLen(Parts())
    {
      match this
      case Merged(b) =>
        assert [b][..0] == [];
        b.len
      case Fueled(_, parts) => SumLen(parts)
    }
  }

  /** A merge of two adjacent batches, `progress` units of work into it. */
  datatype FuelingMerge = FuelingMerge(b1: SpineBatch, b2: SpineBatch, since: Frontier, progress: nat)
  {
    /** The work a merge needs in all: one unit per update of its inputs. */
    function Total(): nat {
      b1.Len() + b2.Len()
    }

    function Remaining(): int {
      Total() - progress
    }
  }

  /** `SpineBatch::begin_merge`: a merge of `b1` and `b2` with no work done,
      compacted to the join of the inputs' `since` and the compaction frontier. */
  function BeginMerge(b1: SpineBatch, b2: SpineBatch, compaction: Option<Frontier>): (m: FuelingMerge)
    ensures m.b1 == b1 && m.b2 == b2 && m.progress == 0
    ensures b1.Desc().since <= m.since && b2.Desc().since <= m.since
    ensures compaction.Some? ==> compaction.value <= m.since
    ensures m.since == b1.Desc().since || m.since == b2.Desc().since
            || (compaction.Some? && m.since == compaction.value)
  {
    var since := Join(b1.Desc().since, b2.Desc().since);
    var since := if compaction.Some? then Join(since, compaction.value) else since;
    FuelingMerge(b1, b2, since, 0)
  }

  /** `FuelingMerge::work`: spends fuel on the merge, one unit per update,
      never more than the merge still needs. A negative fuel reads as a huge
      unsigned amount and finishes the merge. */
  method WorkMerge(m: FuelingMerge, fuel: int) returns (m': FuelingMerge, fuel': int)
    requires IsIsize(fuel)
    requires m.progress <= m.Total()
    ensures m'.b1 == m.b1 && m'.b2 == m.b2 && m'.since == m.since
    ensures m.progress <= m'.progress <= m'.Total()
    ensures fuel' + m'.progress == fuel + m.progress
    ensures fuel >= 0 ==> 0 <= fuel' && (fuel' == 0 || m'.progress == m'.Total())
    ensures fuel < 0 && m.Remaining() <= ISIZE_MAX ==> m'.progress == m'.Total()
  {
    var remaining := m.Total() - m.progress;
    var used := Min(AsUsize(fuel), remaining);
    m' := m.(progress := m.progress + used);
    fuel' := fuel - used;
  }

  /** `FuelingMerge::done`: the merged batch spans from the first input's lower
      to the second input's upper, is compacted to the merge's `since`, and
      holds the parts of the first input followed by those of the second. */
  function Done(m: FuelingMerge): (r: SpineBatch)
    ensures r.Lower() == m.b1.Lower() && r.Upper() == m.b2.Upper()
    ensures r.Desc().since == m.since
    ensures r.Parts() == m.b1.Parts() + m.b2.Parts()
    ensures r.Len() == m.b1.Len() + m.b2.Len()
  {
    SumLenAppend(m.b1.Parts(), m.b2.Parts());
    Fueled(Description(m.b1.Lower(), m.b2.Upper(), m.since), m.b1.Parts() + m.b2.Parts())
  }

  /** A finished merge: the batch and, when it came from a real merge, its inputs. */
  datatype Completed = Completed(batch: SpineBatch, inputs: Option<(SpineBatch, SpineBatch)>)

  datatype MergeVariant =
    | InProgress(b1: SpineBatch, b2: SpineBatch, merge: FuelingMerge)
    | Complete(result: Option<Completed>)
  {
    /** The merge in progress is the merge of the two batches it carries, and
        has not done more work than they need. */
    predicate WellFormed() {
      InProgress? ==> merge.b1 == b1 && merge.b2 == b2 && merge.progress <= merge.Total()
    }
  }

  /** `MergeVariant::work`: a merge in progress completes exactly when the fuel
      exceeds the work it still needs; a completed merge is left alone. */
  method WorkVariant(v: MergeVariant, fuel: int) returns (v': MergeVariant, fuel': int)
    requires IsIsize(fuel)
    requires v.WellFormed()
    ensures v'.WellFormed()
    ensures v.Complete? ==> v' == v && fuel' == fuel
    ensures v.InProgress? ==> (v'.Complete? <==> fuel' > 0)
    ensures v.InProgress? && fuel >= 0 ==> fuel' >= 0 && (v'.Complete? <==> v.merge.Remaining() < fuel)
    ensures v.InProgress? && v'.Complete? ==>
              v'.result == Some(Completed(Done(v.merge), Some((v.b1, v.b2))))
    ensures v'.InProgress? ==>
              v.InProgress? && v'.b1 == v.b1 && v'.b2 == v.b2 && v'.merge.since == v.merge.since
              && v'.merge.Remaining() <= v.merge.Remaining()
              && (fuel >= 0 ==> v'.merge.Remaining() == v.merge.Remaining() - fuel)
    ensures v.InProgress? && fuel < 0 && v.merge.Remaining() <= ISIZE_MAX ==>
              v'.InProgress? && v'.merge.Remaining() == 0
    ensures fuel' <= fuel
  {
    match v
    case InProgress(b1, b2, merge) =>
      var merge', f := WorkMerge(merge, fuel);
      fuel' := f;
      if fuel' > 0 {
        v' := Complete(Some(Completed(Done(merge'), Some((b1, b2)))));
      } else {
        v' := InProgress(b1, b2, merge');
      }
    case Complete(_) =>
      v' := v;
      fuel' := fuel;
  }

  /** `MergeVariant::complete`: finishes the merge with `isize::MAX` fuel. The
      source panics if that does not finish it, so a merge in progress must
      need less work than that. */
  method CompleteVariant(v: MergeVariant) returns (r: Option<Completed>)
    requires v.WellFormed()
    requires v.InProgress? ==> v.merge.Remaining() < ISIZE_MAX
    ensures v.Complete? ==> r == v.result
    ensures v.InProgress? ==> r == Some(Completed(Done(v.merge), Some((v.b1, v.b2))))
  {
    var v', fuel := WorkVariant(v, ISIZE_MAX);
    assert v'.Complete?;
    r := v'.result;
  }

  /** The state of one layer of the spine. `Single(None)` is a structurally
      empty batch, kept so that maintenance work keeps moving. */
  datatype MergeState =
    | Vacant
    | Single(batch: Option<SpineBatch>)
    | Double(variant: MergeVariant)
  {
    /** `MergeState::len`: the number of updates the layer holds. */
    function Len(): nat {
      match this
      case Single(Some(b)) => b.Len()
      case Double(InProgress(b1, b2, _)) => b1.Len() + b2.Len()
      case Double(Complete(Some(c))) => c.batch.Len()
      case _ => 0
    }

    /** `MergeState::is_complete`. */
    predicate IsComplete() {
      Double? && variant.Complete?
    }

    predicate WellFormed() {
      Double? ==> variant.WellFormed()
    }
  }

  /** The layer `MergeState::work` leaves with `fuel`: a merge in progress
      advances by the fuel and completes once the fuel exceeds the work it
      still needs. A negative fuel reads as a huge unsigned amount: it finishes
      the work but leaves no fuel over, so the merge stays in progress. */
  function WorkedLayer(s: MergeState, fuel: int): MergeState {
    match s
    case Double(InProgress(b1, b2, m)) =>
      if fuel < 0 then Double(InProgress(b1, b2, m.(progress := m.Total())))
      else if m.Remaining() < fuel then Double(Complete(Some(Completed(Done(m), Some((b1, b2))))))
      else Double(InProgress(b1, b2, m.(progress := m.progress + fuel)))
    case _ => s
  }

  /** The batch a completed layer hands on, if any. */
  function CompletedBatch(s: MergeState): Option<SpineBatch>
    requires s.IsComplete()
  {
    if s.variant.result.Some? then Some(s.variant.result.value.batch) else None
  }

  /** `MergeState::work`: only a layer holding a merge does any work. */
  method WorkState(s: MergeState, fuel: int) returns (s': MergeState, fuel': int)
    requires IsIsize(fuel)
    requires s.WellFormed()
    ensures s'.WellFormed()
    ensures !s.Double? ==> s' == s && fuel' == fuel
    ensures s.Double? ==> s'.Double?
    ensures s.Double? && s.variant.Complete? ==> s' == s && fuel' == fuel
    ensures s.Double? && s.variant.InProgress? ==>
              (s'.IsComplete() <==> fuel' > 0)
              && (fuel >= 0 ==> fuel' >= 0 && (s'.IsComplete() <==> s.variant.merge.Remaining() < fuel))
    ensures s.Double? && s.variant.InProgress? && s'.IsComplete() ==>
              s'.variant.result == Some(Completed(Done(s.variant.merge), Some((s.variant.b1, s.variant.b2))))
    ensures s.Double? && s.variant.InProgress? && !s'.IsComplete() ==>
              s'.variant.b1 == s.variant.b1 && s'.variant.b2 == s.variant.b2
              && s'.variant.merge.since == s.variant.merge.since
              && s'.variant.merge.Remaining() <= s.variant.merge.Remaining()
              && (fuel >= 0 ==> s'.variant.merge.Remaining() == s.variant.merge.Remaining() - fuel)
    ensures (s.Double? && s.variant.InProgress? ==> s.variant.merge.Remaining() <= ISIZE_MAX) ==>
              s' == WorkedLayer(s, fuel)
    ensures fuel' <= fuel
  {
    if s.Double? {
      var v', f := WorkVariant(s.variant, fuel);
      s' := Double(v');
      fuel' := f;
    } else {
      s' := s;
      fuel' := fuel;
    }
  }

  /** `MergeState::complete`: empties the layer and returns its batch, finishing
      any merge in progress. A single batch comes back without inputs. */
  method CompleteState(s: MergeState) returns (r: Option<Completed>, s': MergeState)
    requires s.WellFormed()
    requires s.Double? && s.variant.InProgress? ==> s.variant.merge.Remaining() < ISIZE_MAX
    ensures s' == Vacant
    ensures s.Vacant? ==> r == None
    ensures s.Single? ==> r == if s.batch.Some? then Some(Completed(s.batch.value, None)) else None
    ensures s.IsComplete() ==> r == s.variant.result
    ensures s.Double? && s.variant.InProgress? ==>
              r == Some(Completed(Done(s.variant.merge), Some((s.variant.b1, s.variant.b2))))
    ensures r.Some? ==> r.value.batch.Len() == s.Len()
  {
    s' := Vacant;
    match s
    case Vacant =>
      r := None;
    case Single(batch) =>
      r := if batch.Some? then Some(Completed(batch.value, None)) else None;
    case Double(variant) =>
      r := CompleteVariant(variant);
  }

  /** `MergeState::begin_merge`: a layer holding the older `batch1` and the newer
      `batch2`. Two real batches start a merge, and the source asserts that they
      are adjacent; with a structurally empty side there is nothing to merge. */
  function BeginMergeState(batch1: Option<SpineBatch>, batch2: Option<SpineBatch>, compaction: Option<Frontier>): (s: MergeState)
    requires batch1.Some? && batch2.Some? ==> batch1.value.Upper() == batch2.value.Lower()
    ensures s.Double? && s.WellFormed()
    ensures s.variant.InProgress? <==> batch1.Some? && batch2.Some?
    ensures s.variant.InProgress? ==>
              s.variant.b1 == batch1.value && s.variant.b2 == batch2.value
              && s.variant.merge == BeginMerge(batch1.value, batch2.value, compaction)
    ensures s.variant.Complete? && s.variant.result.Some? ==>
              s.variant.result.value.inputs.None?
              && ((batch1.Some? && s.variant.result.value.batch == batch1.value)
                  || (batch2.Some? && s.variant.result.value.batch == batch2.value))
    ensures s.variant.Complete? ==> (s.variant.result.None? <==> batch1.None? && batch2.None?)
    ensures s.Len() == (if batch1.Some? then batch1.value.Len() else 0) + (if batch2.Some? then batch2.value.Len() else 0)
  {
    match (batch1, batch2)
    case (Some(x1), Some(x2)) => Double(InProgress(x1, x2, BeginMerge(x1, x2, compaction)))
    case (None, Some(x)) => Double(Complete(Some(Completed(x, None))))
    case (Some(x), None) => Double(Complete(Some(Completed(x, None))))
    case (None, None) => Double(Complete(None))
  }
}
