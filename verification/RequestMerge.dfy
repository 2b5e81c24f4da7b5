/** From the throughput annotations of a pod's volumes to one request per device
    (pkg/scheduler/blockio/handle.go: getDeviceRequest, addPodRequest, getVolumeRequestFromAnno). */
module RequestMerge {
  import opened IoTypes
  import opened Sums

  // ---------------------------------------------------------------- merging

  /** A request as the volumes of a pod give rise to: guaranteed with all its quantities, or best
      effort without any. */
  predicate FromVolume(r: IoRequest) {
    && r.ioType == DiskIO && r.dev.Some? && r.qos != BT
    && (r.qos == GA ==>
          var d := r.dev.value;
          d.request.Some? && d.limit.Some? && d.rawRequest.Some? && d.rawLimit.Some?)
    && (r.qos == BE ==> Blank(r.dev.value))
  }

  predicate Blank(d: DevRequirement) {
    OrZero(d.request) == OrZero(d.limit) == OrZero(d.rawRequest) == OrZero(d.rawLimit) == NoQuantity
  }

  /** The quantities that are added up. */
  datatype Meter =
    | RequestIn | RequestOut | LimitIn | LimitOut
    | RawRequestIn | RawRequestOut | RawLimitIn | RawLimitOut
    | RawRequestInOps | RawRequestOutOps | RawLimitInOps | RawLimitOutOps

  function Read(d: DevRequirement, k: Meter): real {
    match k
    case RequestIn => OrZero(d.request).inbps
    case RequestOut => OrZero(d.request).outbps
    case LimitIn => OrZero(d.limit).inbps
    case LimitOut => OrZero(d.limit).outbps
    case RawRequestIn => OrZero(d.rawRequest).inbps
    case RawRequestOut => OrZero(d.rawRequest).outbps
    case RawLimitIn => OrZero(d.rawLimit).inbps
    case RawLimitOut => OrZero(d.rawLimit).outbps
    case RawRequestInOps => OrZero(d.rawRequest).iniops
    case RawRequestOutOps => OrZero(d.rawRequest).outiops
    case RawLimitInOps => OrZero(d.rawLimit).iniops
    case RawLimitOutOps => OrZero(d.rawLimit).outiops
  }

  /** Adds the bandwidths and leaves the operation counts alone. */
  function PlusBps(q: Quantity, o: Quantity): Quantity {
    q.(inbps := q.inbps + o.inbps, outbps := q.outbps + o.outbps)
  }

  function Added(d: DevRequirement, o: DevRequirement): DevRequirement {
    d.(request := Some(PlusBps(OrZero(d.request), OrZero(o.request))),
       limit := Some(PlusBps(OrZero(d.limit), OrZero(o.limit))),
       rawRequest := Some(OrZero(d.rawRequest).Plus(OrZero(o.rawRequest))),
       rawLimit := Some(OrZero(d.rawLimit).Plus(OrZero(o.rawLimit))))
  }

  /** A device that already has a request takes in another one. */
  function Merged(a: IoRequest, r: IoRequest): IoRequest
    requires a.dev.Some? && r.dev.Some?
  {
    if r.qos == GA then a.(qos := GA, dev := Some(Added(a.dev.value, r.dev.value)))
    else if r.qos == BE && a.qos != GA then a.(qos := BE)
    else a
  }

  type ByDevice = map<DevId, IoRequest>

  predicate Proper(m: ByDevice) {
    forall d <- m :: FromVolume(m[d]) && m[d].dev.value.devName == d
  }

  predicate HaveDevs(m: ByDevice) {
    forall d <- m :: m[d].dev.Some?
  }

  function AddAll(m: ByDevice, reqs: ByDevice): ByDevice
    requires HaveDevs(m) && HaveDevs(reqs)
  {
    map d | d in m.Keys + reqs.Keys ::
      if d !in m then reqs[d] else if d !in reqs then m[d] else Merged(m[d], reqs[d])
  }

  class PodRequests {
    var requests: ByDevice

    constructor ()
      ensures requests == map[]
    {
      requests := map[];
    }

    method AddPodRequest(reqs: ByDevice)
      requires HaveDevs(requests) && HaveDevs(reqs)
      modifies this
      ensures requests == AddAll(old(requests), reqs)
    {
      var todo := reqs.Keys;
      while todo != {}
        invariant todo <= reqs.Keys && requests.Keys == old(requests).Keys + (reqs.Keys - todo)
        invariant forall d <- requests ::
                    requests[d] == if d in todo || d !in reqs then old(requests)[d]
                                   else if d !in old(requests) then reqs[d]
                                   else Merged(old(requests)[d], reqs[d])
      {
        var dev :| dev in todo;
        todo := todo - {dev};
        var req := reqs[dev];
        if dev !in requests {
          requests := requests[dev := req];
        } else {
          var entry := Take(requests[dev], req);
          requests := requests[dev := entry];
        }
      }
    }

    /** A quantity that is still missing is created before it is added to. */
    static method Take(was: IoRequest, req: IoRequest) returns (entry: IoRequest)
      requires was.dev.Some? && req.dev.Some?
      ensures entry == Merged(was, req)
    {
      entry := was;
      if req.qos == GA {
        var d, o := entry.dev.value, req.dev.value;
        if d.request.None? {
          d := d.(request := Some(NoQuantity));
        }
        if d.limit.None? {
          d := d.(limit := Some(NoQuantity));
        }
        if d.rawRequest.None? {
          d := d.(rawRequest := Some(NoQuantity));
        }
        if d.rawLimit.None? {
          d := d.(rawLimit := Some(NoQuantity));
        }
        d := d.(request := Some(PlusBps(d.request.value, OrZero(o.request))),
                limit := Some(PlusBps(d.limit.value, OrZero(o.limit))));
        d := d.(rawRequest := Some(d.rawRequest.value.Plus(OrZero(o.rawRequest))),
                rawLimit := Some(d.rawLimit.value.Plus(OrZero(o.rawLimit))));
        entry := entry.(qos := GA, dev := Some(d));
      }
      if req.qos == BE && entry.qos != GA {
        entry := entry.(qos := BE);
      }
    }
  }

  // ---------------------------------------------------------------- what a merged request means

  function Count(k: Meter): IoRequest -> Amount {
    (r: IoRequest) => if r.dev.Some? then Amount(Read(r.dev.value, k), 0.0, if r.qos == GA then 1 else 0) else Zero
  }

  /** The requests of one device, merged in this order. */
  function MergeAll(rs: seq<IoRequest>): IoRequest
    requires rs != [] && forall i | 0 <= i < |rs| :: rs[i].dev.Some?
    ensures MergeAll(rs).dev.Some?
  {
    if |rs| == 1 then rs[0] else Merged(MergeAll(rs[..|rs| - 1]), rs[|rs| - 1])
  }

  lemma MergedReads(a: IoRequest, r: IoRequest, k: Meter)
    requires FromVolume(a) && FromVolume(r)
    ensures FromVolume(Merged(a, r))
    ensures Read(Merged(a, r).dev.value, k) == Read(a.dev.value, k) + Read(r.dev.value, k)
    ensures Merged(a, r).qos == GA <==> a.qos == GA || r.qos == GA
    ensures Merged(a, r).dev.value.devName == a.dev.value.devName
  {
    if r.qos == BE {
      assert Read(r.dev.value, k) == 0.0;
    }
  }

  /** The request reads `s` on a meter; `s.n` guaranteed requests went into it. */
  predicate Carries(r: IoRequest, dev: DevId, k: Meter, s: Amount) {
    && FromVolume(r) && r.dev.value.devName == dev
    && Read(r.dev.value, k) == s.rd && (r.qos == GA <==> s.n > 0) && s.n >= 0
  }

  lemma MergeStep(a: IoRequest, r: IoRequest, dev: DevId, k: Meter, s: Amount)
    requires Carries(a, dev, k, s) && FromVolume(r)
    ensures Carries(Merged(a, r), dev, k, s.Plus(Count(k)(r)))
  {
    MergedReads(a, r, k);
  }

  /** The sum over a list, from its end as lists are merged. */
  function Summed(rs: seq<IoRequest>, k: Meter): Amount {
    if rs == [] then Zero else Summed(rs[..|rs| - 1], k).Plus(Count(k)(rs[|rs| - 1]))
  }

  lemma {:induction false} SummedIsSum(rs: seq<IoRequest>, k: Meter)
    ensures Summed(rs, k) == SeqSum(rs, Count(k))
  {
    if rs != [] {
      SummedIsSum(rs[..|rs| - 1], k);
      SplitLast(rs);
      SeqSumAppend(rs[..|rs| - 1], rs[|rs| - 1], Count(k));
    }
  }

  predicate AllFromVolumes(rs: seq<IoRequest>) {
    forall i | 0 <= i < |rs| :: FromVolume(rs[i])
  }

  /** The merged request is guaranteed if any of them is, and reads the sum on every meter. */
  lemma {:induction false} MergeAllSums(rs: seq<IoRequest>, k: Meter)
    requires rs != [] && AllFromVolumes(rs)
    ensures Carries(MergeAll(rs), rs[0].dev.value.devName, k, Summed(rs, k))
  {
    var last := |rs| - 1;
    if last > 0 {
      var before := rs[..last];
      MergeAllSums(before, k);
      MergeStep(MergeAll(before), rs[last], rs[0].dev.value.devName, k, Summed(before, k));
    } else {
      assert rs[..0] == [];
    }
  }

  /** Two requests that mean the same, read with absent quantities as zero. */
  ghost predicate Same(x: IoRequest, y: IoRequest) {
    && x.ioType == y.ioType && x.qos == y.qos && x.dev.Some? && y.dev.Some?
    && x.dev.value.devName == y.dev.value.devName
    && forall k :: Read(x.dev.value, k) == Read(y.dev.value, k)
  }

  /** The order in which a device's volumes are merged does not matter. */
  lemma MergeOrderIrrelevant(rs: seq<IoRequest>, ts: seq<IoRequest>, dev: DevId)
    requires rs != [] && multiset(rs) == multiset(ts)
    requires AllFromVolumes(rs) && forall i | 0 <= i < |rs| :: rs[i].dev.value.devName == dev
    ensures ts != [] && AllFromVolumes(ts)
    ensures Same(MergeAll(rs), MergeAll(ts))
  {
    assert |multiset(rs)| == |multiset(ts)|;
    forall i | 0 <= i < |ts|
      ensures FromVolume(ts[i]) && ts[i].dev.value.devName == dev
    {
      assert ts[i] in multiset(rs);
    }
    forall k
      ensures Read(MergeAll(rs).dev.value, k) == Read(MergeAll(ts).dev.value, k)
      ensures MergeAll(rs).qos == MergeAll(ts).qos
    {
      MergeAllSums(rs, k);
      MergeAllSums(ts, k);
      SummedIsSum(rs, k);
      SummedIsSum(ts, k);
      SeqSumPermuted(rs, ts, Count(k));
    }
    MergeAllSums(rs, RequestIn);
    MergeAllSums(ts, RequestIn);
  }

  // ---------------------------------------------------------------- any grouping into batches

  predicate AllProper(batches: seq<ByDevice>) {
    forall i | 0 <= i < |batches| :: Proper(batches[i])
  }

  /** What a device gets from the batches, in order. */
  function ListFor(batches: seq<ByDevice>, dev: DevId): seq<IoRequest> {
    if batches == [] then []
    else
      var last := |batches| - 1;
      ListFor(batches[..last], dev) + if dev in batches[last] then [batches[last][dev]] else []
  }

  lemma AddAllProper(m: ByDevice, reqs: ByDevice)
    requires Proper(m) && Proper(reqs)
    ensures Proper(AddAll(m, reqs))
  {
    forall d | d in m && d in reqs
      ensures FromVolume(Merged(m[d], reqs[d])) && Merged(m[d], reqs[d]).dev.value.devName == d
    {
      MergedReads(m[d], reqs[d], RequestIn);
    }
  }

  /** addPodRequest called for each batch in turn. */
  function Folded(batches: seq<ByDevice>): (m: ByDevice)
    requires AllProper(batches)
    ensures Proper(m)
  {
    if batches == [] then map[]
    else
      var last := |batches| - 1;
      AddAllProper(Folded(batches[..last]), batches[last]);
      AddAll(Folded(batches[..last]), batches[last])
  }

  /** However requests are grouped into batches, each device ends up with the merge of its own. */
  lemma {:induction false} FoldedIsMerged(batches: seq<ByDevice>, dev: DevId)
    requires AllProper(batches)
    ensures var rs := ListFor(batches, dev);
            && AllFromVolumes(rs) && (forall i | 0 <= i < |rs| :: rs[i].dev.value.devName == dev)
            && (dev in Folded(batches) <==> rs != [])
            && (rs != [] ==> Folded(batches)[dev] == MergeAll(rs))
  {
    if batches != [] {
      var last := |batches| - 1;
      FoldedIsMerged(batches[..last], dev);
      var before := ListFor(batches[..last], dev);
      if dev in batches[last] {
        var rs := ListFor(batches, dev);
        assert rs[..|rs| - 1] == before;
        assert FromVolume(batches[last][dev]);
      } else {
        assert ListFor(batches, dev) == before;
      }
    }
  }

  /** Batches that give each device the same requests, in whatever order and grouping, give each
      device a request that means the same. */
  lemma GroupingIrrelevant(xs: seq<ByDevice>, ys: seq<ByDevice>)
    requires AllProper(xs) && AllProper(ys)
    requires forall dev :: multiset(ListFor(xs, dev)) == multiset(ListFor(ys, dev))
    ensures Folded(xs).Keys == Folded(ys).Keys
    ensures forall dev <- Folded(xs) :: Same(Folded(xs)[dev], Folded(ys)[dev])
  {
    forall dev
      ensures dev in Folded(xs) <==> dev in Folded(ys)
      ensures dev in Folded(xs) ==> Same(Folded(xs)[dev], Folded(ys)[dev])
    {
      var rs, ts := ListFor(xs, dev), ListFor(ys, dev);
      FoldedIsMerged(xs, dev);
      FoldedIsMerged(ys, dev);
      assert multiset(rs) == multiset(ts);
      assert |multiset(rs)| == |multiset(ts)|;
      if rs != [] {
        MergeOrderIrrelevant(rs, ts, dev);
      }
    }
  }
}
