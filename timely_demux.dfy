/** The demultiplexing of timely dataflow's log events into the logging
    collections of a compute replica.

    Each event updates the demux state (live operators, the channels of each
    dataflow, a pending park, schedule start times, and per-channel message
    counts and per-operator schedule histograms kept for later retraction)
    and appends updates `(datum, ts, diff)` to the output collections. The
    counts kept in the state are exactly what the output has accumulated, so
    that a shutdown can emit the retractions that cancel it. Times are
    nanoseconds. */
module TimelyLogging {
  import opened Wrappers
  import opened PowerOfTwo

  /** One update of an output collection. */
  datatype Update<D> = Update(datum: D, ts: nat, diff: int)

  datatype OperatesEvent = OperatesEvent(id: nat, addr: seq<nat>, name: string)

  datatype ChannelsEvent = ChannelsEvent(id: nat, scopeAddr: seq<nat>, source: (nat, nat), target: (nat, nat))

  /** A park with the duration it requested (in nanoseconds), or the unpark after it. */
  datatype ParkEvent = Park(requested: Option<nat>) | Unpark

  datatype MessagesEvent = MessagesEvent(isSend: bool, channel: nat, source: nat, target: nat, length: nat)

  datatype StartStop = Start | Stop

  datatype ScheduleEvent = ScheduleEvent(id: nat, startStop: StartStop)

  /** The timely events the demux handles; `Unhandled` stands for the kinds it
      ignores (progress, application, input and text events among them). */
  datatype TimelyEvent =
    | Operates(operates: OperatesEvent)
    | Channels(channels: ChannelsEvent)
    | Shutdown(operator: nat)
    | Parking(park: ParkEvent)
    | Messages(messages: MessagesEvent)
    | Schedule(schedule: ScheduleEvent)
    | Unhandled

  datatype ChannelDatum = ChannelDatum(id: nat, source: (nat, nat), target: (nat, nat))

  datatype ParkDatum = ParkDatum(durationPow: nat, requestedPow: Option<nat>)

  datatype MessageDatum = MessageDatum(channel: nat, worker: nat)

  datatype HistogramDatum = HistogramDatum(operator: nat, durationPow: nat)

  /** The last park: when it happened and what it requested. */
  datatype PendingPark = PendingPark(timeNs: nat, requested: Option<nat>)

  /** One histogram bucket of an operator: schedules counted and their total time. */
  datatype Bucket = Bucket(count: int, elapsedNs: int)

  /** `DemuxState`. */
  datatype DemuxState = DemuxState(
    operators: map<nat, OperatesEvent>,
    dataflowChannels: map<nat, seq<ChannelsEvent>>,
    lastPark: Option<PendingPark>,
    messagesSent: map<nat, seq<int>>,
    messagesReceived: map<nat, seq<int>>,
    scheduleStarts: map<nat, nat>,
    schedulesData: map<nat, seq<Bucket>>)

  /** `DemuxOutput`: the eight output collections, as the updates given to each. */
  datatype DemuxOutput = DemuxOutput(
    operates: seq<Update<(nat, string)>>,
    channels: seq<Update<ChannelDatum>>,
    addresses: seq<Update<(nat, seq<nat>)>>,
    parks: seq<Update<ParkDatum>>,
    messagesSent: seq<Update<MessageDatum>>,
    messagesReceived: seq<Update<MessageDatum>>,
    schedulesDuration: seq<Update<nat>>,
    schedulesHistogram: seq<Update<HistogramDatum>>)

  const NANOS_PER_MILLI: nat := 1_000_000

  /** `DemuxHandler::ts`: the event time in milliseconds rounded up to the
      next multiple of the logging interval, strictly after the event. */
  function Ts(timeNs: nat, intervalMs: nat): (ts: nat)
    requires intervalMs >= 1
    ensures ts % intervalMs == 0
    ensures timeNs / NANOS_PER_MILLI < ts <= timeNs / NANOS_PER_MILLI + intervalMs
  {
    var timeMs := timeNs / NANOS_PER_MILLI;
    var q := timeMs / intervalMs;
    assert timeMs == q * intervalMs + timeMs % intervalMs;
    MultipleMod(q + 1, intervalMs);
    (q + 1) * intervalMs
  }

  lemma {:induction false} MultipleMod(k: nat, n: nat)
    requires n >= 1
    ensures (k * n) % n == 0
  {
    var q, r := (k * n) / n, (k * n) % n;
    assert k * n == q * n + r;
    assert r == (k - q) * n;
    if k - q >= 1 {
      assert false;
    } else if k - q <= -1 {
      assert false;
    }
  }

  /** `grow_vec`: the vector grown with `default` values until it has a slot
      `index`; an existing slot is kept. */
  method GrowVec<T>(v: seq<T>, index: nat, default: T) returns (r: seq<T>)
    ensures index < |r| && |v| <= |r|
    ensures |r| == if index < |v| then |v| else index + 1
    ensures r[..|v|] == v
    ensures forall j | |v| <= j < |r| :: r[j] == default
  {
    r := v;
    if |v| <= index {
      r := v + seq(index + 1 - |v|, _ => default);
    }
  }

  // ---------------------------------------------------------------------------
  // Accumulated updates

  /** The net change the updates make to the multiplicity of `d`. */
  function Net<D(==)>(out: seq<Update<D>>, d: D): int {
    if out == [] then 0
    else Net(out[..|out| - 1], d) + (if out[|out| - 1].datum == d then out[|out| - 1].diff else 0)
  }

  lemma {:induction false} NetAppend<D>(a: seq<Update<D>>, b: seq<Update<D>>, d: D)
    ensures Net(a + b, d) == Net(a, d) + Net(b, d)
  {
    if b != [] {
      var n := |b| - 1;
      assert (a + b)[..|a + b| - 1] == a + b[..n];
      NetAppend(a, b[..n], d);
    } else {
      assert a + b == a;
    }
  }

  /** The total time in the buckets. */
  function SumElapsed(bs: seq<Bucket>): int {
    if bs == [] then 0 else SumElapsed(bs[..|bs| - 1]) + bs[|bs| - 1].elapsedNs
  }

  /** Buckets count schedules, and a bucket that counted none has no time in it. */
  ghost predicate BucketsOk(bs: seq<Bucket>) {
    forall b | 0 <= b < |bs| :: bs[b].count >= 0 && (bs[b].count == 0 ==> bs[b].elapsedNs == 0)
  }

  /** The time recorded for operator `id`. */
  function Elapsed(data: map<nat, seq<Bucket>>, id: nat): int {
    if id in data then SumElapsed(data[id]) else 0
  }

  /** The schedules counted for operator `id` in bucket `b`. */
  function BucketCount(data: map<nat, seq<Bucket>>, id: nat, b: nat): int {
    if id in data && b < |data[id]| then data[id][b].count else 0
  }

  /** The messages counted for worker `w` on channel `c`. */
  function Counted(counts: map<nat, seq<int>>, c: nat, w: nat): int {
    if c in counts && w < |counts[c]| then counts[c][w] else 0
  }

  /** The schedule durations emitted for each operator add up to the time its
      buckets record. */
  ghost predicate DurationsBalanced(out: seq<Update<nat>>, data: map<nat, seq<Bucket>>) {
    forall id: nat :: Net(out, id) == Elapsed(data, id)
  }

  /** The histogram updates emitted for each operator and power of two add up
      to the count of the bucket of that power. */
  ghost predicate HistogramBalanced(out: seq<Update<HistogramDatum>>, data: map<nat, seq<Bucket>>) {
    forall id: nat, b: nat :: Net(out, HistogramDatum(id, Pow2(b))) == BucketCount(data, id, b)
  }

  /** The message updates emitted for each channel and worker add up to the
      count kept for them. */
  ghost predicate CountsBalanced(out: seq<Update<MessageDatum>>, counts: map<nat, seq<int>>) {
    forall c: nat, w: nat :: Net(out, MessageDatum(c, w)) == Counted(counts, c, w)
  }

  /** Every channel keeps one counter per worker. */
  ghost predicate CountsShaped(counts: map<nat, seq<int>>, peers: nat) {
    forall c | c in counts :: |counts[c]| == peers
  }

  /** The invariant of the demux: the kept counts are what the output has
      accumulated. */
  ghost predicate Balanced(s: DemuxState, o: DemuxOutput, peers: nat) {
    && CountsShaped(s.messagesSent, peers) && CountsShaped(s.messagesReceived, peers)
    && CountsBalanced(o.messagesSent, s.messagesSent)
    && CountsBalanced(o.messagesReceived, s.messagesReceived)
    && (forall id | id in s.schedulesData :: BucketsOk(s.schedulesData[id]))
    && DurationsBalanced(o.schedulesDuration, s.schedulesData)
    && HistogramBalanced(o.schedulesHistogram, s.schedulesData)
  }

  // ---------------------------------------------------------------------------
  // Retractions

  /** The retraction of every nonempty bucket's time, lowest bucket first. */
  function DurationRetractions(id: nat, bs: seq<Bucket>, ts: nat): seq<Update<nat>> {
    if bs == [] then []
    else
      var b := |bs| - 1;
      DurationRetractions(id, bs[..b], ts) + (if bs[b].count != 0 then [Update(id, ts, -bs[b].elapsedNs)] else [])
  }

  /** The retraction of every nonempty bucket's count, at the power of two of
      the bucket, lowest bucket first. */
  function HistogramRetractions(id: nat, bs: seq<Bucket>, ts: nat): seq<Update<HistogramDatum>> {
    if bs == [] then []
    else
      var b := |bs| - 1;
      HistogramRetractions(id, bs[..b], ts)
        + (if bs[b].count != 0 then [Update(HistogramDatum(id, Pow2(b)), ts, -bs[b].count)] else [])
  }

  /** The retraction of every worker's count on `channel`. */
  function CountRetractions(channel: nat, counts: seq<int>, ts: nat): seq<Update<MessageDatum>> {
    if counts == [] then []
    else
      var w := |counts| - 1;
      CountRetractions(channel, counts[..w], ts) + [Update(MessageDatum(channel, w), ts, -counts[w])]
  }

  /** The retraction of each channel's description. */
  function ChannelRetractions(chs: seq<ChannelsEvent>, ts: nat): seq<Update<ChannelDatum>> {
    if chs == [] then []
    else
      var c := chs[|chs| - 1];
      ChannelRetractions(chs[..|chs| - 1], ts) + [Update(ChannelDatum(c.id, c.source, c.target), ts, -1)]
  }

  /** The retraction of each channel's address. */
  function AddressRetractions(chs: seq<ChannelsEvent>, ts: nat): seq<Update<(nat, seq<nat>)>> {
    if chs == [] then []
    else
      var c := chs[|chs| - 1];
      AddressRetractions(chs[..|chs| - 1], ts) + [Update((c.id, c.scopeAddr), ts, -1)]
  }

  /** The identifiers of the channels. */
  function ChannelIds(chs: seq<ChannelsEvent>): set<nat> {
    if chs == [] then {} else ChannelIds(chs[..|chs| - 1]) + {chs[|chs| - 1].id}
  }

  /** The retraction of the message counts `counts` keeps for each channel in
      turn; a channel's counts are dropped once retracted, so a channel met
      again retracts nothing. */
  function MessageRetractions(chs: seq<ChannelsEvent>, counts: map<nat, seq<int>>, ts: nat): seq<Update<MessageDatum>> {
    if chs == [] then []
    else
      var n := |chs| - 1;
      var rest := counts - ChannelIds(chs[..n]);
      var c := chs[n].id;
      MessageRetractions(chs[..n], counts, ts) + (if c in rest then CountRetractions(c, rest[c], ts) else [])
  }

  /** The retractions for the first `i + 1` channels: those for the first `i`,
      then those of channel `i` among the counts the first `i` left. */
  lemma {:induction false} MessageRetractionsStep(chs: seq<ChannelsEvent>, i: nat, counts: map<nat, seq<int>>, ts: nat)
    requires i < |chs|
    ensures var rest := counts - ChannelIds(chs[..i]);
      MessageRetractions(chs[..i + 1], counts, ts) == MessageRetractions(chs[..i], counts, ts)
        + (if chs[i].id in rest then CountRetractions(chs[i].id, rest[chs[i].id], ts) else [])
  {
    assert chs[..i + 1][..i] == chs[..i];
  }

  /** The duration retractions cancel the operator's recorded time and touch
      no other operator. */
  lemma {:induction false} NetDurationRetractions(id: nat, bs: seq<Bucket>, ts: nat, x: nat)
    requires BucketsOk(bs)
    ensures Net(DurationRetractions(id, bs, ts), x) == if x == id then -SumElapsed(bs) else 0
  {
    if bs != [] {
      var b := |bs| - 1;
      assert BucketsOk(bs[..b]) by {
        forall j | 0 <= j < b ensures bs[..b][j].count >= 0 && (bs[..b][j].count == 0 ==> bs[..b][j].elapsedNs == 0) {
          assert bs[..b][j] == bs[j];
        }
      }
      NetDurationRetractions(id, bs[..b], ts, x);
      var tail: seq<Update<nat>> := if bs[b].count != 0 then [Update(id, ts, -bs[b].elapsedNs)] else [];
      NetAppend(DurationRetractions(id, bs[..b], ts), tail, x);
      if tail != [] {
        assert tail[..0] == [];
      }
    }
  }

  /** The histogram retractions cancel each bucket's count at its own power of
      two and touch no other operator. */
  lemma {:induction false} NetHistogramRetractions(id: nat, bs: seq<Bucket>, ts: nat, x: nat, j: nat)
    ensures Net(HistogramRetractions(id, bs, ts), HistogramDatum(x, Pow2(j)))
            == if x == id && j < |bs| then -bs[j].count else 0
  {
    if bs != [] {
      var b := |bs| - 1;
      NetHistogramRetractions(id, bs[..b], ts, x, j);
      var tail: seq<Update<HistogramDatum>> :=
        if bs[b].count != 0 then [Update(HistogramDatum(id, Pow2(b)), ts, -bs[b].count)] else [];
      NetAppend(HistogramRetractions(id, bs[..b], ts), tail, HistogramDatum(x, Pow2(j)));
      if tail != [] {
        assert tail[..0] == [];
        if Pow2(b) == Pow2(j) {
          Pow2Injective(b, j);
        }
      }
    }
  }

  /** The count retractions cancel each worker's count on the channel and touch
      no other channel. */
  lemma {:induction false} NetCountRetractions(channel: nat, counts: seq<int>, ts: nat, c: nat, w: nat)
    ensures Net(CountRetractions(channel, counts, ts), MessageDatum(c, w))
            == if c == channel && w < |counts| then -counts[w] else 0
  {
    if counts != [] {
      var n := |counts| - 1;
      NetCountRetractions(channel, counts[..n], ts, c, w);
      var tail := [Update(MessageDatum(channel, n), ts, -counts[n])];
      NetAppend(CountRetractions(channel, counts[..n], ts), tail, MessageDatum(c, w));
      assert tail[..0] == [];
    }
  }

  /** The retraction loop of `handle_shutdown` over an operator's buckets. */
  method RetractSchedules(id: nat, bs: seq<Bucket>, ts: nat, durations: seq<Update<nat>>, histogram: seq<Update<HistogramDatum>>)
    returns (durations': seq<Update<nat>>, histogram': seq<Update<HistogramDatum>>)
    ensures durations' == durations + DurationRetractions(id, bs, ts)
    ensures histogram' == histogram + HistogramRetractions(id, bs, ts)
  {
    durations', histogram' := durations, histogram;
    for bucket := 0 to |bs|
      invariant durations' == durations + DurationRetractions(id, bs[..bucket], ts)
      invariant histogram' == histogram + HistogramRetractions(id, bs[..bucket], ts)
    {
      assert bs[..bucket + 1][..bucket] == bs[..bucket];
      if bs[bucket].count != 0 {
        durations' := durations' + [Update(id, ts, -bs[bucket].elapsedNs)];
        histogram' := histogram' + [Update(HistogramDatum(id, Pow2(bucket)), ts, -bs[bucket].count)];
      }
    }
    assert bs[..|bs|] == bs;
  }

  /** The retraction loop of `handle_dataflow_shutdown` over one channel's
      per-worker counts. */
  method RetractCounts(channel: nat, counts: seq<int>, ts: nat, out: seq<Update<MessageDatum>>)
    returns (out': seq<Update<MessageDatum>>)
    ensures out' == out + CountRetractions(channel, counts, ts)
  {
    out' := out;
    for worker := 0 to |counts|
      invariant out' == out + CountRetractions(channel, counts[..worker], ts)
    {
      assert counts[..worker + 1][..worker] == counts[..worker];
      out' := out' + [Update(MessageDatum(channel, worker), ts, -counts[worker])];
    }
    assert counts[..|counts|] == counts;
  }

  // ---------------------------------------------------------------------------
  // Keeping the balance

  lemma {:induction false} SumElapsedAppend(a: seq<Bucket>, b: seq<Bucket>)
    ensures SumElapsed(a + b) == SumElapsed(a) + SumElapsed(b)
  {
    if b != [] {
      var n := |b| - 1;
      assert (a + b)[..|a + b| - 1] == a + b[..n];
      SumElapsedAppend(a, b[..n]);
    } else {
      assert a + b == a;
    }
  }

  lemma {:induction false} SumElapsedEmpty(z: seq<Bucket>)
    requires forall j | 0 <= j < |z| :: z[j] == Bucket(0, 0)
    ensures SumElapsed(z) == 0
  {
    if z != [] {
      SumElapsedEmpty(z[..|z| - 1]);
    }
  }

  lemma {:induction false} SumElapsedUpdate(g: seq<Bucket>, i: nat, b: Bucket)
    requires i < |g|
    ensures SumElapsed(g[i := b]) == SumElapsed(g) - g[i].elapsedNs + b.elapsedNs
  {
    var n := |g| - 1;
    var g' := g[i := b];
    assert g'[..n] == if i < n then g[..n][i := b] else g[..n];
    if i < n {
      SumElapsedUpdate(g[..n], i, b);
    }
  }

  /** One more message counted for worker `w` on channel `c`, and emitted. */
  lemma {:induction false} CountAdded(out: seq<Update<MessageDatum>>, counts: map<nat, seq<int>>, c: nat, w: nat, n: int, ts: nat,
                                      base: seq<int>, out': seq<Update<MessageDatum>>, counts': map<nat, seq<int>>)
    requires CountsBalanced(out, counts)
    requires c in counts ==> base == counts[c]
    requires c !in counts ==> forall j | 0 <= j < |base| :: base[j] == 0
    requires w < |base|
    requires out' == out + [Update(MessageDatum(c, w), ts, n)]
    requires counts' == counts[c := base[w := base[w] + n]]
    ensures CountsBalanced(out', counts')
    ensures forall x: nat, y: nat :: Counted(counts', x, y) == Counted(counts, x, y) + (if x == c && y == w then n else 0)
  {
    forall x: nat, y: nat
      ensures Net(out', MessageDatum(x, y)) == Counted(counts, x, y) + (if x == c && y == w then n else 0)
      ensures Counted(counts', x, y) == Counted(counts, x, y) + (if x == c && y == w then n else 0)
    {
      NetAppend(out, [Update(MessageDatum(c, w), ts, n)], MessageDatum(x, y));
      assert [Update(MessageDatum(c, w), ts, n)][..0] == [];
    }
  }

  /** A channel's counts dropped and retracted. */
  lemma {:induction false} CountsRetired(out: seq<Update<MessageDatum>>, counts: map<nat, seq<int>>, c: nat, ts: nat,
                                         out': seq<Update<MessageDatum>>)
    requires CountsBalanced(out, counts) && c in counts
    requires out' == out + CountRetractions(c, counts[c], ts)
    ensures CountsBalanced(out', counts - {c})
    ensures forall w: nat :: Net(out', MessageDatum(c, w)) == 0
  {
    forall x: nat, y: nat ensures Net(out', MessageDatum(x, y)) == Counted(counts - {c}, x, y) {
      NetAppend(out, CountRetractions(c, counts[c], ts), MessageDatum(x, y));
      NetCountRetractions(c, counts[c], ts, x, y);
    }
  }

  /** The buckets `v` of an operator, grown with empty buckets to `grown`. */
  ghost predicate GrownFrom(v: seq<Bucket>, grown: seq<Bucket>) {
    && |v| <= |grown|
    && (forall j | 0 <= j < |v| :: grown[j] == v[j])
    && (forall j | |v| <= j < |grown| :: grown[j] == Bucket(0, 0))
  }

  /** The buckets `bs` of an operator after one more schedule of `e`
      nanoseconds in bucket `index`: grown with empty buckets as `grow_vec`
      does, then that bucket counts one more schedule and `e` more time. */
  function Recorded(bs: seq<Bucket>, index: nat, e: nat): seq<Bucket> {
    var grown := if index < |bs| then bs else bs + seq(index + 1 - |bs|, _ => Bucket(0, 0));
    grown[index := Bucket(grown[index].count + 1, grown[index].elapsedNs + e)]
  }

  /** Buckets grown to exactly the length `grow_vec` gives are the ones
      `Recorded` starts from. */
  lemma {:induction false} GrownExactly(v: seq<Bucket>, grown: seq<Bucket>, index: nat)
    requires GrownFrom(v, grown) && |grown| == if index < |v| then |v| else index + 1
    ensures grown == if index < |v| then v else v + seq(index + 1 - |v|, _ => Bucket(0, 0))
  {
    var g := if index < |v| then v else v + seq(index + 1 - |v|, _ => Bucket(0, 0));
    forall j | 0 <= j < |grown| ensures grown[j] == g[j] {
      if j < |v| {
        assert g[j] == v[j];
      }
    }
  }

  /** The entries filed under key `k` of `m` (the buckets of an operator,
      the channels of a dataflow), none when it has none. */
  function EntriesOf<T>(m: map<nat, seq<T>>, k: nat): (r: seq<T>)
    ensures k !in m ==> r == []
  {
    if k in m then m[k] else []
  }

  /** One more schedule of `e` nanoseconds for operator `id`, recorded in
      bucket `index`. */
  lemma {:induction false} BucketAdded(data: map<nat, seq<Bucket>>, id: nat, index: nat, e: nat,
                                       data': map<nat, seq<Bucket>>)
    requires forall x | x in data :: BucketsOk(data[x])
    requires data' == data[id := Recorded(EntriesOf(data, id), index, e)]
    ensures forall x | x in data' :: BucketsOk(data'[x])
    ensures forall x: nat :: Elapsed(data', x) == Elapsed(data, x) + (if x == id then e else 0)
    ensures forall x: nat, b: nat :: BucketCount(data', x, b) == BucketCount(data, x, b) + (if x == id && b == index then 1 else 0)
  {
    var v := EntriesOf(data, id);
    var grown := if index < |v| then v else v + seq(index + 1 - |v|, _ => Bucket(0, 0));
    assert GrownFrom(v, grown);
    var b' := Bucket(grown[index].count + 1, grown[index].elapsedNs + e);
    assert data'[id] == grown[index := b'];
    forall x | x in data' ensures BucketsOk(data'[x]) {
      if x == id {
        GrownOk(v, grown, index, b');
      }
    }
    GrownElapsed(v, grown, index, b');
    forall x: nat, b: nat
      ensures BucketCount(data', x, b) == BucketCount(data, x, b) + (if x == id && b == index then 1 else 0)
    {
      if x == id && b < |v| {
        assert grown[b] == v[b];
      }
    }
  }

  lemma {:induction false} GrownOk(v: seq<Bucket>, grown: seq<Bucket>, index: nat, b': Bucket)
    requires BucketsOk(v) && GrownFrom(v, grown) && index < |grown|
    requires b'.count == grown[index].count + 1
    ensures BucketsOk(grown[index := b'])
  {
    forall j | 0 <= j < |grown| ensures grown[j].count >= 0 && (grown[j].count == 0 ==> grown[j].elapsedNs == 0) {
      if j < |v| {
        assert grown[j] == v[j];
      }
    }
  }

  lemma {:induction false} GrownElapsed(v: seq<Bucket>, grown: seq<Bucket>, index: nat, b': Bucket)
    requires GrownFrom(v, grown) && index < |grown|
    ensures SumElapsed(grown[index := b']) == SumElapsed(v) - grown[index].elapsedNs + b'.elapsedNs
  {
    var z := grown[|v|..];
    assert grown == v + z;
    SumElapsedAppend(v, z);
    SumElapsedEmpty(z);
    SumElapsedUpdate(grown, index, b');
  }

  /** The duration of one more schedule, emitted. */
  lemma {:induction false} DurationAdded(dur: seq<Update<nat>>, data: map<nat, seq<Bucket>>, id: nat, e: nat, ts: nat,
                                         dur': seq<Update<nat>>, data': map<nat, seq<Bucket>>)
    requires DurationsBalanced(dur, data)
    requires forall x: nat :: Elapsed(data', x) == Elapsed(data, x) + (if x == id then e else 0)
    requires dur' == dur + [Update(id, ts, e)]
    ensures DurationsBalanced(dur', data')
  {
    forall x: nat ensures Net(dur', x) == Elapsed(data', x) {
      NetAppend(dur, [Update(id, ts, e)], x);
      assert [Update(id, ts, e)][..0] == [];
    }
  }

  /** The histogram entry of one more schedule, emitted. */
  lemma {:induction false} HistogramAdded(hist: seq<Update<HistogramDatum>>, data: map<nat, seq<Bucket>>, id: nat, index: nat, ts: nat,
                                          hist': seq<Update<HistogramDatum>>, data': map<nat, seq<Bucket>>)
    requires HistogramBalanced(hist, data)
    requires forall x: nat, b: nat :: BucketCount(data', x, b) == BucketCount(data, x, b) + (if x == id && b == index then 1 else 0)
    requires hist' == hist + [Update(HistogramDatum(id, Pow2(index)), ts, 1)]
    ensures HistogramBalanced(hist', data')
  {
    forall x: nat, b: nat ensures Net(hist', HistogramDatum(x, Pow2(b))) == BucketCount(data', x, b) {
      NetAppend(hist, [Update(HistogramDatum(id, Pow2(index)), ts, 1)], HistogramDatum(x, Pow2(b)));
      assert [Update(HistogramDatum(id, Pow2(index)), ts, 1)][..0] == [];
      if Pow2(b) == Pow2(index) {
        Pow2Injective(b, index);
      }
    }
  }

  /** An operator's buckets dropped and their schedules retracted. */
  lemma {:induction false} SchedulesRetired(dur: seq<Update<nat>>, hist: seq<Update<HistogramDatum>>, data: map<nat, seq<Bucket>>,
                                            id: nat, ts: nat, dur': seq<Update<nat>>, hist': seq<Update<HistogramDatum>>)
    requires DurationsBalanced(dur, data) && HistogramBalanced(hist, data)
    requires id in data && BucketsOk(data[id])
    requires dur' == dur + DurationRetractions(id, data[id], ts)
    requires hist' == hist + HistogramRetractions(id, data[id], ts)
    ensures DurationsBalanced(dur', data - {id}) && HistogramBalanced(hist', data - {id})
  {
    forall x: nat ensures Net(dur', x) == Elapsed(data - {id}, x) {
      NetAppend(dur, DurationRetractions(id, data[id], ts), x);
      NetDurationRetractions(id, data[id], ts, x);
    }
    forall x: nat, b: nat ensures Net(hist', HistogramDatum(x, Pow2(b))) == BucketCount(data - {id}, x, b) {
      NetAppend(hist, HistogramRetractions(id, data[id], ts), HistogramDatum(x, Pow2(b)));
      NetHistogramRetractions(id, data[id], ts, x, b);
    }
  }

  /** A batch of `n` messages counted for worker `w` of channel `c` (whose
      counter vector starts as `peers` zeros) and emitted. */
  method CountMessages(counts: map<nat, seq<int>>, out: seq<Update<MessageDatum>>, c: nat, w: nat, n: nat, ts: nat, peers: nat)
    returns (counts': map<nat, seq<int>>, out': seq<Update<MessageDatum>>)
    requires CountsShaped(counts, peers) && CountsBalanced(out, counts) && w < peers
    ensures out' == out + [Update(MessageDatum(c, w), ts, n)]
    ensures counts'.Keys == counts.Keys + {c}
    ensures forall x: nat, y: nat :: Counted(counts', x, y) == Counted(counts, x, y) + (if x == c && y == w then n else 0)
    ensures CountsShaped(counts', peers) && CountsBalanced(out', counts')
  {
    var base := if c in counts then counts[c] else seq(peers, _ => 0);
    out' := out + [Update(MessageDatum(c, w), ts, n)];
    counts' := counts[c := base[w := base[w] + n]];
    CountAdded(out, counts, c, w, n, ts, base, out', counts');
  }

  /** The counts of channel `c` dropped and their messages retracted. */
  method RetireChannel(counts: map<nat, seq<int>>, out: seq<Update<MessageDatum>>, c: nat, ts: nat)
    returns (counts': map<nat, seq<int>>, out': seq<Update<MessageDatum>>)
    requires CountsBalanced(out, counts)
    ensures counts' == counts - {c}
    ensures out' == out + (if c in counts then CountRetractions(c, counts[c], ts) else [])
    ensures CountsBalanced(out', counts')
    ensures forall w: nat :: Net(out', MessageDatum(c, w)) == 0
  {
    if c in counts {
      out' := RetractCounts(c, counts[c], ts, out);
      CountsRetired(out, counts, c, ts, out');
      counts' := counts - {c};
    } else {
      counts', out' := counts, out;
      assert counts - {c} == counts;
      assert out + [] == out;
    }
  }

  /** One schedule of operator `id` lasting `elapsed` nanoseconds: its
      duration and its power of two emitted, and both recorded in the
      bucket of that power, grown as needed. */
  method RecordSchedule(data: map<nat, seq<Bucket>>, durations: seq<Update<nat>>, histogram: seq<Update<HistogramDatum>>,
                        id: nat, elapsed: nat, ts: nat)
    returns (data': map<nat, seq<Bucket>>, durations': seq<Update<nat>>, histogram': seq<Update<HistogramDatum>>)
    requires forall x | x in data :: BucketsOk(data[x])
    requires DurationsBalanced(durations, data) && HistogramBalanced(histogram, data)
    ensures durations' == durations + [Update(id, ts, elapsed)]
    ensures histogram' == histogram + [Update(HistogramDatum(id, NextPowerOfTwo(elapsed)), ts, 1)]
    ensures data' == data[id := Recorded(EntriesOf(data, id), Level(elapsed), elapsed)]
    ensures data'.Keys == data.Keys + {id}
    ensures forall x: nat :: Elapsed(data', x) == Elapsed(data, x) + (if x == id then elapsed else 0)
    ensures forall x: nat, b: nat :: BucketCount(data', x, b) == BucketCount(data, x, b) + (if x == id && b == Level(elapsed) then 1 else 0)
    ensures forall x | x in data' :: BucketsOk(data'[x])
    ensures DurationsBalanced(durations', data') && HistogramBalanced(histogram', data')
  {
    var pow := NextPowerOfTwo(elapsed);
    durations' := durations + [Update(id, ts, elapsed)];
    histogram' := histogram + [Update(HistogramDatum(id, pow), ts, 1)];
    var index := TrailingZeros(pow);
    ShiftLevel(elapsed);
    data' := BumpBucket(data, id, index, elapsed);
    BucketAdded(data, id, index, elapsed, data');
    DurationAdded(durations, data, id, elapsed, ts, durations', data');
    HistogramAdded(histogram, data, id, index, ts, histogram', data');
  }

  /** `schedules_data[id]` grown with `grow_vec` to hold bucket `index`, and
      that bucket counting one more schedule of `e` nanoseconds. */
  method BumpBucket(data: map<nat, seq<Bucket>>, id: nat, index: nat, e: nat) returns (data': map<nat, seq<Bucket>>)
    ensures data' == data[id := Recorded(EntriesOf(data, id), index, e)]
  {
    var v := EntriesOf(data, id);
    var grown := GrowVec(v, index, Bucket(0, 0));
    assert GrownFrom(v, grown) by {
      forall j | 0 <= j < |v| ensures grown[j] == v[j] {
        assert grown[..|v|][j] == grown[j];
      }
    }
    GrownExactly(v, grown, index);
    data' := data[id := grown[index := Bucket(grown[index].count + 1, grown[index].elapsedNs + e)]];
  }

  /** The histogram of operator `id` dropped, with the retractions that
      cancel the durations and counts it recorded. */
  method RetireSchedules(data: map<nat, seq<Bucket>>, durations: seq<Update<nat>>, histogram: seq<Update<HistogramDatum>>,
                         id: nat, ts: nat)
    returns (data': map<nat, seq<Bucket>>, durations': seq<Update<nat>>, histogram': seq<Update<HistogramDatum>>)
    requires forall x | x in data :: BucketsOk(data[x])
    requires DurationsBalanced(durations, data) && HistogramBalanced(histogram, data)
    ensures data' == data - {id}
    ensures durations' == durations + DurationRetractions(id, EntriesOf(data, id), ts)
    ensures histogram' == histogram + HistogramRetractions(id, EntriesOf(data, id), ts)
    ensures DurationsBalanced(durations', data') && HistogramBalanced(histogram', data')
    ensures Net(durations', id) == 0 && forall b: nat :: Net(histogram', HistogramDatum(id, Pow2(b))) == 0
  {
    if id in data {
      var schedules := data[id];
      durations', histogram' := RetractSchedules(id, schedules, ts, durations, histogram);
      SchedulesRetired(durations, histogram, data, id, ts, durations', histogram');
      data' := data - {id};
    } else {
      data', durations', histogram' := data, durations, histogram;
      assert data - {id} == data;
      assert durations + [] == durations && histogram + [] == histogram;
    }
    assert id !in data';
  }

  /** The message counts of channel `i` of `chs` dropped and retracted: the
      counts and updates left by the first `i` channels become those left by
      the first `i + 1`. */
  method RetireCountsAt(chs: seq<ChannelsEvent>, i: nat, ts: nat, counts0: map<nat, seq<int>>, out0: seq<Update<MessageDatum>>,
                        counts: map<nat, seq<int>>, out: seq<Update<MessageDatum>>)
    returns (counts': map<nat, seq<int>>, out': seq<Update<MessageDatum>>)
    requires i < |chs|
    requires counts == counts0 - ChannelIds(chs[..i]) && CountsBalanced(out, counts)
    requires out == out0 + MessageRetractions(chs[..i], counts0, ts)
    ensures counts' == counts0 - ChannelIds(chs[..i + 1]) && CountsBalanced(out', counts')
    ensures out' == out0 + MessageRetractions(chs[..i + 1], counts0, ts)
  {
    assert chs[..i + 1][..i] == chs[..i];
    assert counts0 - ChannelIds(chs[..i + 1]) == counts - {chs[i].id};
    MessageRetractionsStep(chs, i, counts0, ts);
    counts', out' := RetireChannel(counts, out, chs[i].id, ts);
  }

  /** The loop of `handle_dataflow_shutdown`: each channel's description and
      address retracted in order, and its message counts dropped and their
      messages retracted. */
  method RetireChannels(chs: seq<ChannelsEvent>, ts: nat, s0: DemuxState, o0: DemuxOutput)
    returns (s: DemuxState, o: DemuxOutput)
    requires CountsBalanced(o0.messagesSent, s0.messagesSent) && CountsBalanced(o0.messagesReceived, s0.messagesReceived)
    ensures s == s0.(messagesSent := s0.messagesSent - ChannelIds(chs), messagesReceived := s0.messagesReceived - ChannelIds(chs))
    ensures o == o0.(channels := o0.channels + ChannelRetractions(chs, ts),
                     addresses := o0.addresses + AddressRetractions(chs, ts),
                     messagesSent := o0.messagesSent + MessageRetractions(chs, s0.messagesSent, ts),
                     messagesReceived := o0.messagesReceived + MessageRetractions(chs, s0.messagesReceived, ts))
    ensures CountsBalanced(o.messagesSent, s.messagesSent) && CountsBalanced(o.messagesReceived, s.messagesReceived)
  {
    var channels, addresses := o0.channels, o0.addresses;
    var sent, sentOut := s0.messagesSent, o0.messagesSent;
    var received, receivedOut := s0.messagesReceived, o0.messagesReceived;
    for i := 0 to |chs|
      invariant channels == o0.channels + ChannelRetractions(chs[..i], ts)
      invariant addresses == o0.addresses + AddressRetractions(chs[..i], ts)
      invariant sent == s0.messagesSent - ChannelIds(chs[..i])
      invariant received == s0.messagesReceived - ChannelIds(chs[..i])
      invariant CountsBalanced(sentOut, sent) && CountsBalanced(receivedOut, received)
      invariant sentOut == o0.messagesSent + MessageRetractions(chs[..i], s0.messagesSent, ts)
      invariant receivedOut == o0.messagesReceived + MessageRetractions(chs[..i], s0.messagesReceived, ts)
    {
      var ch := chs[i];
      assert chs[..i + 1][..i] == chs[..i];
      channels := channels + [Update(ChannelDatum(ch.id, ch.source, ch.target), ts, -1)];
      addresses := addresses + [Update((ch.id, ch.scopeAddr), ts, -1)];
      sent, sentOut := RetireCountsAt(chs, i, ts, s0.messagesSent, o0.messagesSent, sent, sentOut);
      received, receivedOut := RetireCountsAt(chs, i, ts, s0.messagesReceived, o0.messagesReceived, received, receivedOut);
    }
    assert chs[..|chs|] == chs;
    s := s0.(messagesSent := sent, messagesReceived := received);
    o := o0.(channels := channels, addresses := addresses, messagesSent := sentOut, messagesReceived := receivedOut);
  }

  /** `park.requested.map(next_power_of_two)`. */
  function RequestedPow(requested: Option<nat>): (r: Option<nat>)
    ensures r.Some? <==> requested.Some?
    ensures r.Some? ==> IsPow2(r.value) && requested.value <= r.value
  {
    if requested.Some? then Some(NextPowerOfTwo(requested.value)) else None
  }

  // ---------------------------------------------------------------------------
  // What each handler does to the state `s0` and output `o0`, leaving `s` and
  // `o`; `ts` is the event's timestamp rounded up to the interval.

  /** `handle_operates`: the operator's name and address announced and the
      operator remembered. */
  ghost predicate OperatesHandled(s0: DemuxState, o0: DemuxOutput, s: DemuxState, o: DemuxOutput,
                                  e: OperatesEvent, ts: nat) {
    && s == s0.(operators := s0.operators[e.id := e])
    && o == o0.(operates := o0.operates + [Update((e.id, e.name), ts, 1)],
                addresses := o0.addresses + [Update((e.id, e.addr), ts, 1)])
  }

  /** `handle_channels`: the channel and its address announced and the channel
      filed under its dataflow, the first element of its scope address. */
  ghost predicate ChannelsHandled(s0: DemuxState, o0: DemuxOutput, s: DemuxState, o: DemuxOutput,
                                  e: ChannelsEvent, ts: nat) {
    && |e.scopeAddr| > 0
    && var d := e.scopeAddr[0];
    && s == s0.(dataflowChannels := s0.dataflowChannels[d := EntriesOf(s0.dataflowChannels, d) + [e]])
    && o == o0.(channels := o0.channels + [Update(ChannelDatum(e.id, e.source, e.target), ts, 1)],
                addresses := o0.addresses + [Update((e.id, e.scopeAddr), ts, 1)])
  }

  /** `handle_shutdown`: an unknown operator changes nothing; a known one is
      forgotten and its announcement, its schedules and, for a dataflow, its
      channels retracted. */
  ghost predicate ShutdownHandled(s0: DemuxState, o0: DemuxOutput, s: DemuxState, o: DemuxOutput, id: nat, ts: nat) {
    if id !in s0.operators then s == s0 && o == o0
    else
      var op := s0.operators[id];
      var chs := if |op.addr| == 1 then EntriesOf(s0.dataflowChannels, op.addr[0]) else [];
      && s == s0.(operators := s0.operators - {id},
                  schedulesData := s0.schedulesData - {id},
                  dataflowChannels := (if |op.addr| == 1 then s0.dataflowChannels - {op.addr[0]}
                                       else s0.dataflowChannels),
                  messagesSent := s0.messagesSent - ChannelIds(chs),
                  messagesReceived := s0.messagesReceived - ChannelIds(chs))
      && o.operates == o0.operates + [Update((op.id, op.name), ts, -1)]
      && o.schedulesDuration == o0.schedulesDuration + DurationRetractions(id, EntriesOf(s0.schedulesData, id), ts)
      && o.schedulesHistogram == o0.schedulesHistogram + HistogramRetractions(id, EntriesOf(s0.schedulesData, id), ts)
      && o.channels == o0.channels + ChannelRetractions(chs, ts)
      && o.addresses == o0.addresses + AddressRetractions(chs, ts) + [Update((op.id, op.addr), ts, -1)]
      && o.parks == o0.parks
      && o.messagesSent == o0.messagesSent + MessageRetractions(chs, s0.messagesSent, ts)
      && o.messagesReceived == o0.messagesReceived + MessageRetractions(chs, s0.messagesReceived, ts)
  }

  /** `handle_park`: a park is remembered; an unpark after one records the
      park's duration and request, each rounded up to a power of two, and an
      unpark without one changes nothing. */
  ghost predicate ParkHandled(s0: DemuxState, o0: DemuxOutput, s: DemuxState, o: DemuxOutput,
                              e: ParkEvent, time: nat, ts: nat) {
    match e
    case Park(requested) => s == s0.(lastPark := Some(PendingPark(time, requested))) && o == o0
    case Unpark =>
      if s0.lastPark.None? then s == s0 && o == o0
      else
        var park := s0.lastPark.value;
        && park.timeNs <= time
        && s == s0.(lastPark := None)
        && o == o0.(parks := o0.parks + [Update(ParkDatum(NextPowerOfTwo(time - park.timeNs), RequestedPow(park.requested)), ts, 1)])
  }

  /** `handle_messages`: the message count recorded for the channel and the
      remote worker, and added to what is kept for them. */
  ghost predicate MessagesHandled(s0: DemuxState, o0: DemuxOutput, s: DemuxState, o: DemuxOutput,
                                  e: MessagesEvent, ts: nat) {
    if e.isSend then
      && o == o0.(messagesSent := o0.messagesSent + [Update(MessageDatum(e.channel, e.target), ts, e.length)])
      && s == s0.(messagesSent := s.messagesSent)
      && s.messagesSent.Keys == s0.messagesSent.Keys + {e.channel}
      && (forall c: nat, w: nat :: Counted(s.messagesSent, c, w)
            == Counted(s0.messagesSent, c, w) + (if c == e.channel && w == e.target then e.length else 0))
    else
      && o == o0.(messagesReceived := o0.messagesReceived + [Update(MessageDatum(e.channel, e.source), ts, e.length)])
      && s == s0.(messagesReceived := s.messagesReceived)
      && s.messagesReceived.Keys == s0.messagesReceived.Keys + {e.channel}
      && (forall c: nat, w: nat :: Counted(s.messagesReceived, c, w)
            == Counted(s0.messagesReceived, c, w) + (if c == e.channel && w == e.source then e.length else 0))
  }

  /** `handle_schedule`: a start is remembered; a stop after one records the
      elapsed time and its power-of-two bucket, and a stop without one changes
      nothing. */
  ghost predicate ScheduleHandled(s0: DemuxState, o0: DemuxOutput, s: DemuxState, o: DemuxOutput,
                                  e: ScheduleEvent, time: nat, ts: nat) {
    if e.startStop.Start? then s == s0.(scheduleStarts := s0.scheduleStarts[e.id := time]) && o == o0
    else if e.id !in s0.scheduleStarts then s == s0 && o == o0
    else
      var elapsed := time - s0.scheduleStarts[e.id];
      && s0.scheduleStarts[e.id] <= time
      && o == o0.(schedulesDuration := o0.schedulesDuration + [Update(e.id, ts, elapsed)],
                  schedulesHistogram := o0.schedulesHistogram + [Update(HistogramDatum(e.id, NextPowerOfTwo(elapsed)), ts, 1)])
      && s == s0.(scheduleStarts := s0.scheduleStarts - {e.id},
                  schedulesData := s0.schedulesData[e.id := Recorded(EntriesOf(s0.schedulesData, e.id), Level(elapsed), elapsed)])
      && s.schedulesData.Keys == s0.schedulesData.Keys + {e.id}
      && Elapsed(s.schedulesData, e.id) == Elapsed(s0.schedulesData, e.id) + elapsed
      && (forall b: nat :: BucketCount(s.schedulesData, e.id, b)
            == BucketCount(s0.schedulesData, e.id, b) + (if b == Level(elapsed) then 1 else 0))
      && (forall x: nat | x != e.id :: Elapsed(s.schedulesData, x) == Elapsed(s0.schedulesData, x))
  }

  /** `handle`: the effect of the event's handler; other kinds of event change nothing. */
  ghost predicate Handled(s0: DemuxState, o0: DemuxOutput, s: DemuxState, o: DemuxOutput,
                          event: TimelyEvent, time: nat, ts: nat) {
    match event
    case Operates(e) => OperatesHandled(s0, o0, s, o, e, ts)
    case Channels(e) => ChannelsHandled(s0, o0, s, o, e, ts)
    case Shutdown(id) => ShutdownHandled(s0, o0, s, o, id, ts)
    case Parking(e) => ParkHandled(s0, o0, s, o, e, time, ts)
    case Messages(e) => MessagesHandled(s0, o0, s, o, e, ts)
    case Schedule(e) => ScheduleHandled(s0, o0, s, o, e, time, ts)
    case Unhandled => s == s0 && o == o0
  }

  // ---------------------------------------------------------------------------
  // The demux

  /** The demux operator's state and output buffers together with the
      `DemuxHandler` methods that update them; `time` is the event time in
      nanoseconds. */
  class Demux {
    const peers: nat
    const intervalMs: nat
    var state: DemuxState
    var output: DemuxOutput

    /** The kept counts are what the output has accumulated. */
    ghost predicate Valid()
      reads this
    {
      intervalMs >= 1 && Balanced(state, output, peers)
    }

    /** The demux of a replica with `peers` workers; an interval below one
        millisecond counts as one. */
    constructor (configuredIntervalMs: nat, peers: nat)
      ensures Valid()
      ensures this.peers == peers
      ensures intervalMs == if configuredIntervalMs < 1 then 1 else configuredIntervalMs
      ensures state == DemuxState(map[], map[], None, map[], map[], map[], map[])
      ensures output == DemuxOutput([], [], [], [], [], [], [], [])
    {
      this.peers := peers;
      intervalMs := if configuredIntervalMs < 1 then 1 else configuredIntervalMs;
      state := DemuxState(map[], map[], None, map[], map[], map[], map[]);
      output := DemuxOutput([], [], [], [], [], [], [], []);
    }

    /** The preconditions under which the source handles `event` without
        panicking: a channel has a scope address, a message names a worker
        of the replica, and an unpark or a schedule stop does not come
        before the park or start it ends. */
    ghost predicate Accepts(event: TimelyEvent, time: nat)
      reads this
    {
      match event
      case Channels(e) => |e.scopeAddr| > 0
      case Parking(e) => e.Unpark? && state.lastPark.Some? ==> state.lastPark.value.timeNs <= time
      case Messages(e) => (if e.isSend then e.target else e.source) < peers
      case Schedule(e) =>
        e.startStop.Stop? && e.id in state.scheduleStarts ==> state.scheduleStarts[e.id] <= time
      case _ => true
    }

    /** `handle`: dispatches the event to its handler; other kinds of event
        change nothing. */
    method Handle(event: TimelyEvent, time: nat)
      requires Valid() && Accepts(event, time)
      modifies this
      ensures Valid()
      ensures Handled(old(state), old(output), state, output, event, time, Ts(time, intervalMs))
    {
      match event
      case Operates(e) => HandleOperates(e, time);
      case Channels(e) => HandleChannels(e, time);
      case Shutdown(id) => HandleShutdown(id, time);
      case Parking(e) => HandlePark(e, time);
      case Messages(e) => HandleMessages(e, time);
      case Schedule(e) => HandleSchedule(e, time);
      case Unhandled =>
    }

    /** `handle_operates`: announces the operator's name and address and
        remembers the operator. */
    method HandleOperates(e: OperatesEvent, time: nat)
      requires Valid()
      modifies this
      ensures Valid()
      ensures OperatesHandled(old(state), old(output), state, output, e, Ts(time, intervalMs))
    {
      var ts := Ts(time, intervalMs);
      output := output.(operates := output.operates + [Update((e.id, e.name), ts, 1)],
                        addresses := output.addresses + [Update((e.id, e.addr), ts, 1)]);
      state := state.(operators := state.operators[e.id := e]);
    }

    /** `handle_channels`: announces the channel and its address and files it
        under its dataflow, the first element of its scope address. */
    method HandleChannels(e: ChannelsEvent, time: nat)
      requires Valid() && |e.scopeAddr| > 0
      modifies this
      ensures Valid()
      ensures ChannelsHandled(old(state), old(output), state, output, e, Ts(time, intervalMs))
    {
      var ts := Ts(time, intervalMs);
      output := output.(channels := output.channels + [Update(ChannelDatum(e.id, e.source, e.target), ts, 1)],
                        addresses := output.addresses + [Update((e.id, e.scopeAddr), ts, 1)]);
      var d := e.scopeAddr[0];
      var chs := if d in state.dataflowChannels then state.dataflowChannels[d] else [];
      state := state.(dataflowChannels := state.dataflowChannels[d := chs + [e]]);
    }

    /** `handle_shutdown`: an unknown operator changes nothing. A known one
        is forgotten and its announcement retracted; its schedule
        histogram is dropped with the retractions that cancel its
        durations and counts; a dataflow (an operator with a one-element
        address) also retires its channels; its address is retracted last. */
    method HandleShutdown(id: nat, time: nat)
      requires Valid()
      modifies this
      ensures Valid()
      ensures ShutdownHandled(old(state), old(output), state, output, id, Ts(time, intervalMs))
      ensures id in old(state.operators) ==>
        && Net(output.schedulesDuration, id) == 0
        && (forall b: nat :: Net(output.schedulesHistogram, HistogramDatum(id, Pow2(b))) == 0)
    {
      if id !in state.operators {
        return;
      }
      var op := state.operators[id];
      var ts := Ts(time, intervalMs);
      var data, durations, histogram := RetireSchedules(state.schedulesData, output.schedulesDuration, output.schedulesHistogram, id, ts);
      state := state.(operators := state.operators - {id}, schedulesData := data);
      output := output.(operates := output.operates + [Update((op.id, op.name), ts, -1)],
                        schedulesDuration := durations, schedulesHistogram := histogram);
      if |op.addr| == 1 {
        HandleDataflowShutdown(op.addr[0], time);
      } else {
        assert state.messagesSent - {} == state.messagesSent;
        assert state.messagesReceived - {} == state.messagesReceived;
        assert output.messagesSent + [] == output.messagesSent && output.messagesReceived + [] == output.messagesReceived;
      }
      output := output.(addresses := output.addresses + [Update((op.id, op.addr), ts, -1)]);
    }

    /** `handle_dataflow_shutdown`: the channels of dataflow `d` are
        forgotten and their descriptions and addresses retracted, in the
        order they were announced; the message counts of each are dropped
        and their messages retracted, so that they net to zero. */
    method HandleDataflowShutdown(d: nat, time: nat)
      requires Valid()
      modifies this
      ensures Valid()
      ensures var chs := EntriesOf(old(state.dataflowChannels), d);
        var ts := Ts(time, intervalMs);
        && state == old(state).(dataflowChannels := old(state.dataflowChannels) - {d},
                                messagesSent := old(state.messagesSent) - ChannelIds(chs),
                                messagesReceived := old(state.messagesReceived) - ChannelIds(chs))
        && output == old(output).(channels := old(output.channels) + ChannelRetractions(chs, ts),
                                  addresses := old(output.addresses) + AddressRetractions(chs, ts),
                                  messagesSent := old(output.messagesSent) + MessageRetractions(chs, old(state.messagesSent), ts),
                                  messagesReceived := old(output.messagesReceived) + MessageRetractions(chs, old(state.messagesReceived), ts))
        && (forall c: nat, w: nat | c in ChannelIds(chs) ::
              Net(output.messagesSent, MessageDatum(c, w)) == 0 && Net(output.messagesReceived, MessageDatum(c, w)) == 0)
    {
      var chs := EntriesOf(state.dataflowChannels, d);
      var ts := Ts(time, intervalMs);
      if d !in state.dataflowChannels {
        assert state.dataflowChannels - {d} == state.dataflowChannels;
        assert state.messagesSent - {} == state.messagesSent;
        assert state.messagesReceived - {} == state.messagesReceived;
        assert output.messagesSent + [] == output.messagesSent && output.messagesReceived + [] == output.messagesReceived;
        return;
      }
      var s, o := RetireChannels(chs, ts, state.(dataflowChannels := state.dataflowChannels - {d}), output);
      state, output := s, o;
    }

    /** `handle_park`: a park is remembered (replacing an earlier one); an
        unpark after a park emits the powers of two of the time parked and
        of the time requested; an unpark without a park changes nothing. */
    method HandlePark(e: ParkEvent, time: nat)
      requires Valid()
      requires e.Unpark? && state.lastPark.Some? ==> state.lastPark.value.timeNs <= time
      modifies this
      ensures Valid()
      ensures ParkHandled(old(state), old(output), state, output, e, time, Ts(time, intervalMs))
    {
      match e
      case Park(requested) =>
        state := state.(lastPark := Some(PendingPark(time, requested)));
      case Unpark =>
        if state.lastPark.None? {
          return;
        }
        var park := state.lastPark.value;
        state := state.(lastPark := None);
        var durationPow := NextPowerOfTwo(time - park.timeNs);
        var requestedPow := RequestedPow(park.requested);
        var ts := Ts(time, intervalMs);
        output := output.(parks := output.parks + [Update(ParkDatum(durationPow, requestedPow), ts, 1)]);
    }

    /** `handle_messages`: a sent batch is emitted and counted for its
        target worker, a received one for its source worker. */
    method HandleMessages(e: MessagesEvent, time: nat)
      requires Valid() && (if e.isSend then e.target else e.source) < peers
      modifies this
      ensures Valid()
      ensures MessagesHandled(old(state), old(output), state, output, e, Ts(time, intervalMs))
    {
      var ts := Ts(time, intervalMs);
      if e.isSend {
        var counts, out := CountMessages(state.messagesSent, output.messagesSent, e.channel, e.target, e.length, ts, peers);
        output := output.(messagesSent := out);
        state := state.(messagesSent := counts);
      } else {
        var counts, out := CountMessages(state.messagesReceived, output.messagesReceived, e.channel, e.source, e.length, ts, peers);
        output := output.(messagesReceived := out);
        state := state.(messagesReceived := counts);
      }
    }

    /** `handle_schedule`: a start is remembered (replacing an earlier one);
        a stop after a start emits the time scheduled and its power of two
        and records both in the operator's histogram; a stop without a
        start changes nothing. */
    method HandleSchedule(e: ScheduleEvent, time: nat)
      requires Valid()
      requires e.startStop.Stop? && e.id in state.scheduleStarts ==> state.scheduleStarts[e.id] <= time
      modifies this
      ensures Valid()
      ensures ScheduleHandled(old(state), old(output), state, output, e, time, Ts(time, intervalMs))
    {
      match e.startStop
      case Start =>
        state := state.(scheduleStarts := state.scheduleStarts[e.id := time]);
      case Stop =>
        if e.id in state.scheduleStarts {
          HandleStop(e.id, time);
        }
    }

    /** A stop of operator `id` after its start: the time scheduled and its
        power of two emitted and recorded in the operator's histogram. */
    method HandleStop(id: nat, time: nat)
      requires Valid()
      requires id in state.scheduleStarts && state.scheduleStarts[id] <= time
      modifies this
      ensures Valid()
      ensures ScheduleHandled(old(state), old(output), state, output, ScheduleEvent(id, Stop), time, Ts(time, intervalMs))
    {
      var start := state.scheduleStarts[id];
      var ts := Ts(time, intervalMs);
      var data, durations, histogram := RecordSchedule(state.schedulesData, output.schedulesDuration, output.schedulesHistogram,
                                                       id, time - start, ts);
      state := state.(scheduleStarts := state.scheduleStarts - {id}, schedulesData := data);
      output := output.(schedulesDuration := durations, schedulesHistogram := histogram);
    }
  }
}
