/** What one volume asks of its device, and what all volumes of a pod ask together
    (pkg/scheduler/blockio/handle.go: getDeviceRequest, getVolumeRequestFromAnno). */
module VolumeRequests {
  import opened IoTypes
  import opened MappingRatios
  import opened RequestMerge
  import opened Sums
  import DiskCache
  import SchedulerRuns

  const MIB := 1048576.0
  const MAX_BT_LIMIT := 1048576.0
  const DEFAULT_BS := 4000

  /** A throughput that could be parsed: bytes per second, at a block size. */
  datatype Throughput = Throughput(bw: int, bs: int)

  datatype VolumeAnno = VolumeAnno(
    reqRead: Option<Throughput>, reqWrite: Option<Throughput>,
    limRead: Option<Throughput>, limWrite: Option<Throughput>)

  predicate Unspecified(a: VolumeAnno) {
    a.reqRead.None? && a.reqWrite.None? && a.limRead.None? && a.limWrite.None?
  }

  /** Bandwidth on the device, bandwidth as written, and operations per second. */
  datatype Cost = Cost(bps: real, raw: real, ops: real)

  function RatioFor(bs: int, ratios: seq<MappingRatio>): real {
    Find(bs, ratios).ratio
  }

  function CostOf(t: Throughput, ratios: seq<MappingRatio>): Cost
    requires Usable(ratios)
  {
    var mib := t.bw as real / MIB;
    FindUsable(t.bs, ratios);
    Cost(mib * RatioFor(t.bs, ratios), mib, TruncDiv(t.bw, Find(t.bs, ratios).blockSize) as real)
  }

  /** An amount of device bandwidth, turned back at the default block size. */
  function CostAt(bps: real, of: real, ratios: seq<MappingRatio>): Cost
    requires Usable(ratios)
  {
    FindUsable(DEFAULT_BS, ratios);
    var raw := of / RatioFor(DEFAULT_BS, ratios);
    Cost(bps, raw, raw * MIB / DEFAULT_BS as real)
  }

  /** A missing request costs nothing; everything is raised to the minimum.  The written bandwidth of
      a raised amount is that of the minimum for reading, also when writing. */
  function RequestCost(t: Option<Throughput>, ratios: seq<MappingRatio>, least: real, readLeast: real): Cost
    requires Usable(ratios)
  {
    var c := if t.Some? then CostOf(t.value, ratios) else Cost(0.0, 0.0, 0.0);
    if c.bps < least then CostAt(least, readLeast, ratios) else c
  }

  /** A missing limit is the largest one, which on the write side is divided by the ratio as well. */
  function LimitCost(t: Option<Throughput>, ratios: seq<MappingRatio>, least: real, readLeast: real, write: bool): Cost
    requires Usable(ratios)
  {
    FindUsable(DEFAULT_BS, ratios);
    var c := if t.Some? then CostOf(t.value, ratios)
             else CostAt(if write then MAX_BT_LIMIT / RatioFor(DEFAULT_BS, ratios) else MAX_BT_LIMIT,
                         MAX_BT_LIMIT, ratios);
    if c.bps < least then CostAt(least, readLeast, ratios) else c
  }

  predicate UsableDisk(d: DiskInfo) {
    Usable(d.readRatio) && Usable(d.writeRatio)
  }

  /** A best-effort request with all its quantities at zero. */
  function Blanked(dev: DevId): IoRequest {
    var none := Some(NoQuantity);
    IoRequest(DiskIO, BE, Some(DevRequirement(dev, none, none, none, none)))
  }

  function RequestFor(dev: DevId, d: DiskInfo, a: VolumeAnno): IoRequest
    requires UsableDisk(d)
  {
    if Unspecified(a) then
      Blanked(dev)
    else
      var rr := RequestCost(a.reqRead, d.readRatio, d.beDefaultRead, d.beDefaultRead);
      var rw := RequestCost(a.reqWrite, d.writeRatio, d.beDefaultWrite, d.beDefaultRead);
      var lr := LimitCost(a.limRead, d.readRatio, d.beDefaultRead, d.beDefaultRead, false);
      var lw := LimitCost(a.limWrite, d.writeRatio, d.beDefaultWrite, d.beDefaultRead, true);
      IoRequest(DiskIO, GA, Some(DevRequirement(dev,
        Some(Quantity(rr.bps, rw.bps, 0.0, 0.0)), Some(Quantity(lr.bps, lw.bps, 0.0, 0.0)),
        Some(Quantity(rr.raw, rw.raw, rr.ops, rw.ops)), Some(Quantity(lr.raw, lw.raw, lr.ops, lw.ops)))))
  }

  /** One of the four throughputs of an annotation, if it could be parsed. */
  method Parsed(t: Option<Throughput>, ratios: seq<MappingRatio>, was: Cost) returns (c: Cost)
    requires Usable(ratios)
    ensures c == if t.Some? then CostOf(t.value, ratios) else was
  {
    c := was;
    if t.Some? {
      var found := FindMappingRatio(t.value.bs, ratios);
      FindUsable(t.value.bs, ratios);
      c := Cost(t.value.bw as real / MIB * found.ratio, t.value.bw as real / MIB,
                TruncDiv(t.value.bw, found.blockSize) as real);
    }
  }

  method GetDeviceRequest(dev: DevId, d: DiskInfo, a: VolumeAnno) returns (r: IoRequest)
    requires UsableDisk(d)
    ensures r == RequestFor(dev, d, a)
  {
    var none := Cost(0.0, 0.0, 0.0);
    var rr := Parsed(a.reqRead, d.readRatio, none);
    var rw := Parsed(a.reqWrite, d.writeRatio, none);
    var lr := Parsed(a.limRead, d.readRatio, none);
    var lw := Parsed(a.limWrite, d.writeRatio, none);
    if a.reqRead.None? && a.limRead.None? && a.reqWrite.None? && a.limWrite.None? {
      return Blanked(dev);
    }
    var rfound := FindMappingRatio(DEFAULT_BS, d.readRatio);
    var wfound := FindMappingRatio(DEFAULT_BS, d.writeRatio);
    FindUsable(DEFAULT_BS, d.readRatio);
    FindUsable(DEFAULT_BS, d.writeRatio);
    if a.limRead.None? {
      lr := CostAt(MAX_BT_LIMIT, MAX_BT_LIMIT, d.readRatio);
    }
    if a.limWrite.None? {
      lw := CostAt(MAX_BT_LIMIT / wfound.ratio, MAX_BT_LIMIT, d.writeRatio);
    }
    if rr.bps < d.beDefaultRead {
      rr := CostAt(d.beDefaultRead, d.beDefaultRead, d.readRatio);
    }
    if rw.bps < d.beDefaultWrite {
      rw := CostAt(d.beDefaultWrite, d.beDefaultRead, d.writeRatio);
    }
    if lr.bps < d.beDefaultRead {
      lr := CostAt(d.beDefaultRead, d.beDefaultRead, d.readRatio);
    }
    if lw.bps < d.beDefaultWrite {
      lw := CostAt(d.beDefaultWrite, d.beDefaultRead, d.writeRatio);
    }
    r := IoRequest(DiskIO, GA, Some(DevRequirement(dev,
      Some(Quantity(rr.bps, rw.bps, 0.0, 0.0)), Some(Quantity(lr.bps, lw.bps, 0.0, 0.0)),
      Some(Quantity(rr.raw, rw.raw, rr.ops, rw.ops)), Some(Quantity(lr.raw, lw.raw, lr.ops, lw.ops)))));
  }

  // ---------------------------------------------------------------- what it means

  function Most(x: real, y: real): real {
    if x < y then y else x
  }

  /** Device bandwidth of a throughput, at the table's entry for its block size. */
  function Charged(t: Throughput, ratios: seq<MappingRatio>): real {
    t.bw as real / 1048576.0 * Find(t.bs, ratios).ratio
  }

  /** Written as annotated: MiB per second, and whole operations per second at the entry's block size. */
  predicate AsAnnotated(raw: real, ops: real, t: Throughput, ratios: seq<MappingRatio>) {
    var bs := Find(t.bs, ratios).blockSize;
    && raw * 1048576.0 == t.bw as real
    && ops == ops.Floor as real
    && (t.bw >= 0 ==> 0.0 <= t.bw as real - ops * bs as real < bs as real)
    && (t.bw < 0 ==> -(bs as real) < t.bw as real - ops * bs as real <= 0.0)
  }

  /** Turned back from device bandwidth, at a block size of 4000. */
  predicate TurnedBack(raw: real, ops: real, of: real, ratios: seq<MappingRatio>) {
    raw * Find(4000, ratios).ratio == of && ops * 4000.0 == raw * 1048576.0
  }

  /** What a request comes to on one side of a device: what the annotation costs there, but at least the
      minimum; in the latter case the written numbers stand for the minimum for reading. */
  predicate RequestComesTo(bps: real, raw: real, ops: real, t: Option<Throughput>, ratios: seq<MappingRatio>,
                           least: real, readLeast: real)
  {
    var asked := if t.Some? then Charged(t.value, ratios) else 0.0;
    && bps == Most(asked, least)
    && if asked < least then TurnedBack(raw, ops, readLeast, ratios)
       else if t.Some? then AsAnnotated(raw, ops, t.value, ratios)
       else raw == 0.0 && ops == 0.0
  }

  /** And a limit, where a missing one is `most`. */
  predicate LimitComesTo(bps: real, raw: real, ops: real, t: Option<Throughput>, ratios: seq<MappingRatio>, least: real,
                         readLeast: real, most: real)
  {
    var asked := if t.Some? then Charged(t.value, ratios) else most;
    && bps == Most(asked, least)
    && if asked < least then TurnedBack(raw, ops, readLeast, ratios)
       else if t.Some? then AsAnnotated(raw, ops, t.value, ratios)
       else TurnedBack(raw, ops, 1048576.0, ratios)
  }

  lemma TruncDivides(a: int, b: int)
    requires b > 0
    ensures var q := TruncDiv(a, b);
            (a >= 0 ==> 0 <= a - q * b < b) && (a < 0 ==> -b < a - q * b <= 0)
  {
    if a < 0 {
      var q := (-a) / b;
      assert 0 <= -a - q * b < b;
      assert -q * b == -(q * b);
    }
  }

  lemma CostIsAsAnnotated(t: Throughput, ratios: seq<MappingRatio>)
    requires Usable(ratios)
    ensures var c := CostOf(t, ratios); c.bps == Charged(t, ratios) && AsAnnotated(c.raw, c.ops, t, ratios)
  {
    FindUsable(t.bs, ratios);
    var bs := Find(t.bs, ratios).blockSize;
    var q := TruncDiv(t.bw, bs);
    TruncDivides(t.bw, bs);
    assert (q * bs) as real == q as real * bs as real;
    Undone(t.bw as real, 1048576.0);
  }

  lemma CostIsTurnedBack(bps: real, of: real, ratios: seq<MappingRatio>)
    requires Usable(ratios)
    ensures var c := CostAt(bps, of, ratios); c.bps == bps && TurnedBack(c.raw, c.ops, of, ratios)
  {
    FindUsable(4000, ratios);
    var c := CostAt(bps, of, ratios);
    Undone(of, Find(4000, ratios).ratio);
    Undone(c.raw * 1048576.0, 4000.0);
  }

  lemma RequestCostIs(t: Option<Throughput>, ratios: seq<MappingRatio>, least: real, readLeast: real)
    requires Usable(ratios)
    ensures var c := RequestCost(t, ratios, least, readLeast);
            RequestComesTo(c.bps, c.raw, c.ops, t, ratios, least, readLeast)
  {
    if t.Some? {
      CostIsAsAnnotated(t.value, ratios);
    }
    CostIsTurnedBack(least, readLeast, ratios);
  }

  /** The largest limit; for writing it is divided by the ratio. */
  function Largest(ratios: seq<MappingRatio>, write: bool): real
    requires Usable(ratios)
  {
    FindUsable(4000, ratios);
    if write then 1048576.0 / Find(4000, ratios).ratio else 1048576.0
  }

  lemma LimitCostIs(t: Option<Throughput>, ratios: seq<MappingRatio>, least: real, readLeast: real, write: bool)
    requires Usable(ratios)
    ensures var c := LimitCost(t, ratios, least, readLeast, write);
            LimitComesTo(c.bps, c.raw, c.ops, t, ratios, least, readLeast, Largest(ratios, write))
  {
    FindUsable(4000, ratios);
    if t.Some? {
      CostIsAsAnnotated(t.value, ratios);
    } else {
      CostIsTurnedBack(Largest(ratios, write), 1048576.0, ratios);
    }
    CostIsTurnedBack(least, readLeast, ratios);
  }

  /** Every number of a guaranteed request, side by side with the annotation it comes from. */
  predicate Comes(r: DevRequirement, d: DiskInfo, a: VolumeAnno)
    requires UsableDisk(d)
  {
    && r.request.Some? && r.limit.Some? && r.rawRequest.Some? && r.rawLimit.Some?
    && var q, l, rq, rl := r.request.value, r.limit.value, r.rawRequest.value, r.rawLimit.value;
       && RequestComesTo(q.inbps, rq.inbps, rq.iniops, a.reqRead, d.readRatio, d.beDefaultRead, d.beDefaultRead)
       && RequestComesTo(q.outbps, rq.outbps, rq.outiops, a.reqWrite, d.writeRatio, d.beDefaultWrite, d.beDefaultRead)
       && LimitComesTo(l.inbps, rl.inbps, rl.iniops, a.limRead, d.readRatio, d.beDefaultRead, d.beDefaultRead,
                       Largest(d.readRatio, false))
       && LimitComesTo(l.outbps, rl.outbps, rl.outiops, a.limWrite, d.writeRatio, d.beDefaultWrite, d.beDefaultRead,
                       Largest(d.writeRatio, true))
       && q.iniops == q.outiops == l.iniops == l.outiops == 0.0
  }

  /** A volume without any throughput is best effort and asks for nothing.  Any other is guaranteed, and
      each of its numbers is what its own annotation costs on its own side of the device, but at least
      the device's minimum for that side. */
  lemma RequestsAreRaised(dev: DevId, d: DiskInfo, a: VolumeAnno)
    requires UsableDisk(d)
    ensures var r := RequestFor(dev, d, a);
            && FromVolume(r) && r.dev.value.devName == dev
            && (r.qos == BE <==> Unspecified(a))
            && (r.qos == GA ==> Comes(r.dev.value, d, a))
            && (r.qos == GA ==>
                  Read(r.dev.value, RequestIn) >= d.beDefaultRead && Read(r.dev.value, RequestOut) >= d.beDefaultWrite)
  {
    RequestCostIs(a.reqRead, d.readRatio, d.beDefaultRead, d.beDefaultRead);
    RequestCostIs(a.reqWrite, d.writeRatio, d.beDefaultWrite, d.beDefaultRead);
    LimitCostIs(a.limRead, d.readRatio, d.beDefaultRead, d.beDefaultRead, false);
    LimitCostIs(a.limWrite, d.writeRatio, d.beDefaultWrite, d.beDefaultRead, true);
  }

  /** The block size at which a request is turned into device bandwidth. */
  function BsUsed(t: Option<Throughput>, ratios: seq<MappingRatio>, least: real): int
    requires Usable(ratios)
  {
    if t.Some? && CostOf(t.value, ratios).bps >= least then t.value.bs else DEFAULT_BS
  }

  lemma Undone(x: real, y: real)
    requires y > 0.0
    ensures x / y * y == x
  {
  }

  /** The annotation asks for less than the minimum. */
  predicate BelowMinimum(t: Option<Throughput>, ratios: seq<MappingRatio>, least: real)
    requires Usable(ratios)
  {
    (if t.Some? then CostOf(t.value, ratios).bps else 0.0) < least
  }

  /** Written bandwidth times the ratio is device bandwidth: always, unless the amount was raised to
      a minimum that differs from the one for reading. */
  lemma RawMatchesIff(t: Option<Throughput>, ratios: seq<MappingRatio>, least: real, readLeast: real)
    requires Usable(ratios)
    ensures var c := RequestCost(t, ratios, least, readLeast);
            (c.raw * RatioFor(BsUsed(t, ratios, least), ratios) == c.bps) <==>
            (!BelowMinimum(t, ratios, least) || readLeast == least)
  {
    FindUsable(DEFAULT_BS, ratios);
    Undone(readLeast, RatioFor(DEFAULT_BS, ratios));
  }

  /** A raised write request on a device whose minimums differ: the device is charged 4 MiB/s, its
      minimum for writing, and the written bandwidth is that of 6 MiB/s, its minimum for reading. */
  lemma RaisedWriteMismatch(dev: DevId)
    ensures var pool := Pool(100.0, 100.0, 200.0, false, 0);
            var d := DiskInfo([], [MappingRatio(4000, 2.0)], 6.0, 4.0, pool, pool, 1, 0);
            var r := RequestFor(dev, d, VolumeAnno(Some(Throughput(8388608, 4096)), None, None, None)).dev.value;
            Read(r, RequestOut) == 4.0 && Read(r, RawRequestOut) * 2.0 == 6.0
  {
    assert Find(DEFAULT_BS, [MappingRatio(4000, 2.0)]) == MappingRatio(4000, 2.0);
  }

  // ---------------------------------------------------------------- all volumes of a pod

  type Volume = string

  /** The pod's volumes and devices, what the pod says about its volumes, and the node's disks. */
  datatype Case = Case(mapping: map<Volume, DevId>, anno: map<Volume, VolumeAnno>, disks: DiskCache.Disks)

  predicate UsableDisks(disks: DiskCache.Disks) {
    forall d <- disks :: UsableDisk(disks[d])
  }

  function BestEffort(dev: DevId): IoRequest {
    IoRequest(DiskIO, BE, Some(DevRequirement(dev, None, None, None, None)))
  }

  /** A volume with an annotation is skipped if its device is not registered. */
  predicate Counts(c: Case, v: Volume) {
    v in c.mapping && (v in c.anno ==> c.mapping[v] in c.disks)
  }

  function RequestOf(c: Case, v: Volume): IoRequest
    requires UsableDisks(c.disks) && Counts(c, v)
  {
    var dev := c.mapping[v];
    if v in c.anno then RequestFor(dev, c.disks[dev], c.anno[v]) else BestEffort(dev)
  }

  /** What the volumes in `vs` ask of one device. */
  function AskedOf(c: Case, vs: set<Volume>, dev: DevId): map<Volume, IoRequest>
    requires UsableDisks(c.disks)
  {
    map v | v in vs && Counts(c, v) && c.mapping[v] == dev :: RequestOf(c, v)
  }

  /** The request of a device carries what its volumes ask together, whatever order they came in. */
  ghost predicate Accounts(requests: ByDevice, dev: DevId, asked: map<Volume, IoRequest>) {
    && (dev in requests <==> asked != map[])
    && (dev in requests ==> forall k :: Carries(requests[dev], dev, k, Sum(asked, Count(k))))
  }

  lemma RequestOfProper(c: Case, v: Volume)
    requires UsableDisks(c.disks) && Counts(c, v)
    ensures FromVolume(RequestOf(c, v)) && RequestOf(c, v).dev.value.devName == c.mapping[v]
  {
    if v in c.anno {
      RequestsAreRaised(c.mapping[v], c.disks[c.mapping[v]], c.anno[v]);
    }
  }

  lemma AccountOneMore(requests: ByDevice, dev: DevId, asked: map<Volume, IoRequest>, v: Volume, r: IoRequest)
    requires HaveDevs(requests) && Accounts(requests, dev, asked) && v !in asked
    requires FromVolume(r) && r.dev.value.devName == dev
    ensures Accounts(AddAll(requests, map[dev := r]), dev, asked[v := r])
  {
    var more := AddAll(requests, map[dev := r]);
    forall k
      ensures Carries(more[dev], dev, k, Sum(asked[v := r], Count(k)))
    {
      SumInsert(asked, Count(k), v, r);
      var s := Sum(asked, Count(k));
      if dev in requests {
        assert Carries(requests[dev], dev, k, s);
        MergeStep(requests[dev], r, dev, k, s);
        PlusCommutes(Count(k)(r), s);
      } else {
        assert asked == map[];
      }
    }
    assert v in asked[v := r];
  }

  lemma PlusCommutes(a: Amount, b: Amount)
    ensures a.Plus(b) == b.Plus(a)
  {
  }

  lemma AskedOneMore(c: Case, vs: set<Volume>, v: Volume, dev: DevId)
    requires UsableDisks(c.disks) && v !in vs
    ensures v !in AskedOf(c, vs, dev)
    ensures AskedOf(c, vs + {v}, dev) ==
            if Counts(c, v) && c.mapping[v] == dev then AskedOf(c, vs, dev)[v := RequestOf(c, v)]
            else AskedOf(c, vs, dev)
  {
  }

  lemma AccountVolume(c: Case, vs: set<Volume>, v: Volume, requests: ByDevice)
    requires UsableDisks(c.disks) && v !in vs && HaveDevs(requests) && Counts(c, v)
    requires forall dev :: Accounts(requests, dev, AskedOf(c, vs, dev))
    ensures RequestOf(c, v).dev.Some?
    ensures var more := AddAll(requests, map[c.mapping[v] := RequestOf(c, v)]);
            HaveDevs(more) && forall dev :: Accounts(more, dev, AskedOf(c, vs + {v}, dev))
  {
    RequestOfProper(c, v);
    var more := AddAll(requests, map[c.mapping[v] := RequestOf(c, v)]);
    forall dev
      ensures Accounts(more, dev, AskedOf(c, vs + {v}, dev))
    {
      assert Accounts(requests, dev, AskedOf(c, vs, dev));
      AskedOneMore(c, vs, v, dev);
      if dev == c.mapping[v] {
        AccountOneMore(requests, dev, AskedOf(c, vs, dev), v, RequestOf(c, v));
      }
    }
  }

  /** Every device carries what its volumes ask together; a pod without volumes is best effort on the
      disk that holds emptyDir volumes. */
  ghost predicate Made(requests: ByDevice, c: Case, emptyDir: DevId)
    requires UsableDisks(c.disks)
  {
    if c.mapping == map[] then requests == if emptyDir in c.disks then map[emptyDir := BestEffort(emptyDir)] else map[]
    else forall dev :: Accounts(requests, dev, AskedOf(c, c.mapping.Keys, dev))
  }

  method GetVolumeRequestFromAnno(c: Case, emptyDir: DevId) returns (requests: ByDevice)
    requires UsableDisks(c.disks)
    ensures Made(requests, c, emptyDir)
  {
    var merged := new PodRequests();
    if c.mapping == map[] {
      if emptyDir in c.disks {
        merged.AddPodRequest(map[emptyDir := BestEffort(emptyDir)]);
      }
      return merged.requests;
    }
    var todo := c.mapping.Keys;
    forall dev
      ensures Accounts(merged.requests, dev, AskedOf(c, c.mapping.Keys - todo, dev))
    {
      assert AskedOf(c, c.mapping.Keys - todo, dev) == map[];
    }
    while todo != {}
      invariant todo <= c.mapping.Keys && HaveDevs(merged.requests)
      invariant forall dev :: Accounts(merged.requests, dev, AskedOf(c, c.mapping.Keys - todo, dev))
    {
      var vol :| vol in todo;
      ghost var seen := c.mapping.Keys - todo;
      todo := todo - {vol};
      assert c.mapping.Keys - todo == seen + {vol};
      var dev := c.mapping[vol];
      var request: IoRequest;
      if vol in c.anno {
        if dev !in c.disks {
          forall d
            ensures AskedOf(c, seen + {vol}, d) == AskedOf(c, seen, d)
          {
            AskedOneMore(c, seen, vol, d);
          }
          continue;
        }
        request := GetDeviceRequest(dev, c.disks[dev], c.anno[vol]);
      } else {
        request := BestEffort(dev);
      }
      AccountVolume(c, seen, vol, merged.requests);
      merged.AddPodRequest(map[dev := request]);
    }
    assert c.mapping.Keys - todo == c.mapping.Keys;
    requests := merged.requests;
  }

  // ---------------------------------------------------------------- what admission relies on

  /** A guaranteed request is at least the minimum of the disk. */
  predicate RaisedTo(r: IoRequest, d: DiskInfo) {
    r.qos == GA && r.dev.Some? ==>
      Read(r.dev.value, RequestIn) >= d.beDefaultRead && Read(r.dev.value, RequestOut) >= d.beDefaultWrite
  }

  predicate AllRaised(m: ByDevice, disks: DiskCache.Disks) {
    forall d <- m | d in disks :: RaisedTo(m[d], disks[d])
  }

  predicate NonNegativeMinimums(disks: DiskCache.Disks) {
    forall d <- disks :: disks[d].beDefaultRead >= 0.0 && disks[d].beDefaultWrite >= 0.0
  }

  lemma MergedRaised(a: IoRequest, r: IoRequest, d: DiskInfo)
    requires FromVolume(a) && FromVolume(r) && RaisedTo(a, d) && RaisedTo(r, d)
    requires d.beDefaultRead >= 0.0 && d.beDefaultWrite >= 0.0
    ensures RaisedTo(Merged(a, r), d)
  {
    MergedReads(a, r, RequestIn);
    MergedReads(a, r, RequestOut);
  }

  lemma {:induction false} FoldedRaised(batches: seq<ByDevice>, disks: DiskCache.Disks)
    requires AllProper(batches) && NonNegativeMinimums(disks)
    requires forall i | 0 <= i < |batches| :: AllRaised(batches[i], disks)
    ensures AllRaised(Folded(batches), disks)
  {
    if batches != [] {
      var last := |batches| - 1;
      var before, batch := Folded(batches[..last]), batches[last];
      FoldedRaised(batches[..last], disks);
      assert AllRaised(batch, disks) && Proper(batch);
      forall d | d in Folded(batches) && d in disks
        ensures RaisedTo(Folded(batches)[d], disks[d])
      {
        if d in before && d in batch {
          MergedRaised(before[d], batch[d], disks[d]);
        }
      }
    }
  }

  /** With the disk space each device is asked for, as AdmitPod adds it. */
  function WithStorage(m: ByDevice, storage: map<DevId, int>): DiskCache.Requests {
    map d | d in m :: DeviceRequest(m[d], if d in storage then storage[d] else 0)
  }

  /** What each of these requests adds to a sum: nothing, or a guaranteed one of at least `least`. */
  predicate AllAtLeast(asked: map<Volume, IoRequest>, k: Meter, least: real) {
    forall v <- asked ::
      && FromVolume(asked[v])
      && Read(asked[v].dev.value, k) >= if asked[v].qos == GA then least else 0.0
  }

  lemma {:induction false} SumAtLeast(asked: map<Volume, IoRequest>, k: Meter, least: real)
    requires AllAtLeast(asked, k, least) && least >= 0.0
    ensures var s := Sum(asked, Count(k)); s.n >= 0 && s.rd >= 0.0 && (s.n > 0 ==> s.rd >= least)
    decreases |asked|
  {
    if asked != map[] {
      var v :| v in asked;
      SumWithout(asked, Count(k), v);
      SumAtLeast(asked - {v}, k, least);
    }
  }

  lemma AskedAtLeast(c: Case, vs: set<Volume>, dev: DevId)
    requires UsableDisks(c.disks) && dev in c.disks
    ensures AllAtLeast(AskedOf(c, vs, dev), RequestIn, c.disks[dev].beDefaultRead)
    ensures AllAtLeast(AskedOf(c, vs, dev), RequestOut, c.disks[dev].beDefaultWrite)
  {
    var asked := AskedOf(c, vs, dev);
    forall v | v in asked
      ensures FromVolume(asked[v])
      ensures Read(asked[v].dev.value, RequestIn) >= if asked[v].qos == GA then c.disks[dev].beDefaultRead else 0.0
      ensures Read(asked[v].dev.value, RequestOut) >= if asked[v].qos == GA then c.disks[dev].beDefaultWrite else 0.0
    {
      RequestOfProper(c, v);
      if v in c.anno {
        RequestsAreRaised(dev, c.disks[dev], c.anno[v]);
      }
    }
  }

  /** Whatever the volumes of a device ask together is a proper request, and raised to its minimum. */
  lemma MadeRaised(requests: ByDevice, c: Case, emptyDir: DevId)
    requires UsableDisks(c.disks) && NonNegativeMinimums(c.disks) && Made(requests, c, emptyDir)
    ensures Proper(requests) && AllRaised(requests, c.disks)
  {
    if c.mapping != map[] {
      forall dev | dev in requests
        ensures FromVolume(requests[dev]) && requests[dev].dev.value.devName == dev
        ensures dev in c.disks ==> RaisedTo(requests[dev], c.disks[dev])
      {
        DeviceRaised(requests, c, dev);
      }
    }
  }

  lemma DeviceRaised(requests: ByDevice, c: Case, dev: DevId)
    requires UsableDisks(c.disks) && NonNegativeMinimums(c.disks)
    requires dev in requests && Accounts(requests, dev, AskedOf(c, c.mapping.Keys, dev))
    ensures FromVolume(requests[dev]) && requests[dev].dev.value.devName == dev
    ensures dev in c.disks ==> RaisedTo(requests[dev], c.disks[dev])
  {
    var asked := AskedOf(c, c.mapping.Keys, dev);
    assert Carries(requests[dev], dev, RequestIn, Sum(asked, Count(RequestIn)));
    assert Carries(requests[dev], dev, RequestOut, Sum(asked, Count(RequestOut)));
    if dev in c.disks {
      AskedAtLeast(c, c.mapping.Keys, dev);
      SumAtLeast(asked, RequestIn, c.disks[dev].beDefaultRead);
      SumAtLeast(asked, RequestOut, c.disks[dev].beDefaultWrite);
    }
  }

  /** Requests made from any volumes with any annotations, however they are batched, are what Filter
      may be given in a run of the scheduler: sound, and raised to the minimum of every device. */
  lemma VolumesGiveAdmissibleRequests(cases: seq<Case>, batches: seq<ByDevice>, emptyDir: DevId, disks: DiskCache.Disks,
                                      rc: ResourceConfig, storage: map<DevId, int>)
    requires UsableDisks(disks) && SchedulerRuns.ConfigSound(rc) && SchedulerRuns.Static(disks, rc)
    requires |batches| == |cases|
    requires forall i | 0 <= i < |cases| :: cases[i].disks == disks && Made(batches[i], cases[i], emptyDir)
    ensures AllProper(batches)
    ensures var reqs := WithStorage(Folded(batches), storage);
            DiskCache.SoundRequests(reqs) && SchedulerRuns.Raised(reqs, rc)
  {
    forall i | 0 <= i < |batches|
      ensures Proper(batches[i]) && AllRaised(batches[i], disks)
    {
      MadeRaised(batches[i], cases[i], emptyDir);
    }
    FoldedRaised(batches, disks);
    FoldedAdmissible(Folded(batches), disks, rc, storage);
  }

  lemma FoldedAdmissible(m: ByDevice, disks: DiskCache.Disks, rc: ResourceConfig, storage: map<DevId, int>)
    requires Proper(m) && AllRaised(m, disks) && NonNegativeMinimums(disks) && SchedulerRuns.Static(disks, rc)
    ensures var reqs := WithStorage(m, storage); DiskCache.SoundRequests(reqs) && SchedulerRuns.Raised(reqs, rc)
  {
  }
}
