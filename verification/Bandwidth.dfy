/** Dividing a disk's bandwidth among the pods of a node
    (pkg/agent/disk/engine.go: calDiskAllocatable; pkg/agent/common/workload.go: CalculateGroupBw,
    SelectPods, CompressPods, CompressRequestRatio, SetLimit, ComposeLimitData;
    pkg/agent/common/disk.go: the floors of IOISetLimitDisk).

    Reading and writing are divided independently; what one side of a disk has is called a lane. */
module Bandwidth {
  import opened IoTypes
  import opened Sums

  /** Read and write bandwidth. */
  datatype Bw = Bw(rd: real, wr: real)

  datatype Side = In | Out

  function At(b: Bw, side: Side): real {
    if side == In then b.rd else b.wr
  }

  type Workloads = map<Uid, Bw>

  /** One workload group of a device. */
  datatype Group = Group(requests: Workloads, limits: Workloads, actual: Workloads)

  datatype Disk = Disk(size: Bw, total: real, bePool: int, ga: Group, bt: Group, be: Group)

  /** A selection other than "All" selects nothing; a method other than "CALC_REQUEST_RATIO" computes
      nothing. */
  datatype Policy = Policy(all: bool, ratio: bool)

  const LimitMax := -1.0
  const LimitKeepValue := -2.0

  // ---------------------------------------------------------------- lanes

  type Rates = map<Uid, real>

  function On(m: Workloads, side: Side): Rates {
    map u | u in m :: At(m[u], side)
  }

  datatype LaneGroup = LaneGroup(requests: Rates, limits: Rates, actual: Rates)

  datatype Lane = Lane(size: real, pool: real, ga: LaneGroup, bt: LaneGroup, be: LaneGroup)

  function GroupOn(g: Group, side: Side): LaneGroup {
    LaneGroup(On(g.requests, side), On(g.limits, side), On(g.actual, side))
  }

  /** The part of a capacity that is set apart for best effort. */
  function PoolOf(capacity: real, bePool: int): real {
    bePool as real / 100.0 * capacity
  }

  function LaneOf(d: Disk, side: Side): Lane {
    Lane(At(d.size, side), PoolOf(At(d.size, side), d.bePool),
         GroupOn(d.ga, side), GroupOn(d.bt, side), GroupOn(d.be, side))
  }

  function Measure(): real -> Amount {
    (x: real) => Amount(x, 0.0, 0)
  }

  ghost function Total(m: Rates): real {
    Sum(m, Measure()).rd
  }

  lemma TotalWithout(m: Rates, u: Uid)
    requires u in m
    ensures Total(m) == m[u] + Total(m - {u})
  {
    SumWithout(m, Measure(), u);
  }

  lemma TotalInsert(m: Rates, u: Uid, x: real)
    requires u !in m
    ensures Total(m[u := x]) == x + Total(m)
  {
    SumInsert(m, Measure(), u, x);
  }

  method CalculateGroupBw(m: Workloads) returns (wl: Bw)
    ensures wl == Bw(Total(On(m, In)), Total(On(m, Out)))
  {
    wl := Bw(0.0, 0.0);
    var todo := m.Keys;
    assert On(m, In) - todo == map[] && On(m, Out) - todo == map[];
    while todo != {}
      invariant todo <= m.Keys
      invariant wl == Bw(Total(On(m, In) - todo), Total(On(m, Out) - todo))
    {
      var u :| u in todo;
      SumVisit(On(m, In), Measure(), todo, u);
      SumVisit(On(m, Out), Measure(), todo, u);
      wl := Bw(wl.rd + m[u].rd, wl.wr + m[u].wr);
      todo := todo - {u};
    }
    assert On(m, In) - todo == On(m, In) && On(m, Out) - todo == On(m, Out);
  }

  // ---------------------------------------------------------------- expectations

  /** What is left of the bandwidth outside the BE pool. */
  ghost function Allocatable(l: Lane): real {
    l.size - l.pool - Total(l.ga.requests) - Total(l.bt.requests)
  }

  function Max(x: real, y: real): real {
    if x > y then x else y
  }

  function Min(x: real, y: real): real {
    if x < y then x else y
  }

  /** The factor by which burstable requests may be exceeded. */
  function Factor(alloc: real, bt: real): real {
    if bt > 0.0 then alloc / bt + 1.0 else 1.0
  }

  /** For GA and BE an amount, for BT a factor. */
  function ExpectOf(group: QoS, size: real, alloc: real, ga: real, bt: real, actual: real): real {
    match group
    case GA => if ga == 0.0 then alloc else ga
    case BT => Factor(alloc, bt)
    case BE => size - ga - Max(bt, actual)
  }

  ghost function Expect(l: Lane, group: QoS): real {
    ExpectOf(group, l.size, Allocatable(l), Total(l.ga.requests), Total(l.bt.requests), Total(l.bt.actual))
  }

  method Expectations(size: real, alloc: real, gaReq: real, btReq: real, actual: real)
    returns (ga: real, bt: real, be: real)
    ensures ga == ExpectOf(GA, size, alloc, gaReq, btReq, actual)
    ensures bt == ExpectOf(BT, size, alloc, gaReq, btReq, actual)
    ensures be == ExpectOf(BE, size, alloc, gaReq, btReq, actual)
  {
    if gaReq == 0.0 {
      ga := alloc;
    } else {
      ga := gaReq;
    }
    if btReq > 0.0 {
      bt := alloc / btReq + 1.0;
    } else {
      bt := 1.0;
    }
    var runtime: real;
    if btReq > actual {
      runtime := btReq;
    } else {
      runtime := actual;
    }
    be := size - gaReq - runtime;
  }

  // ---------------------------------------------------------------- limits

  datatype Param = Param(inLimit: real, outLimit: real, request: real)

  function OutLimit(p: Param, policy: Policy, expectation: real, podsNum: int, group: QoS): real
    requires podsNum > 0
  {
    if expectation == LimitMax || expectation == LimitKeepValue then expectation
    else if expectation >= 0.0 && policy.ratio then
      match group
      case BT => Min(expectation * p.request, p.inLimit)
      case BE => expectation / podsNum as real
      case GA => p.request
    else p.outLimit
  }

  /** A pod without a limit entry counts as limited to 0. */
  function OwnLimit(g: LaneGroup, u: Uid): real {
    if u in g.limits then g.limits[u] else 0.0
  }

  function ParamOf(g: LaneGroup, u: Uid): Param
    requires u in g.requests
  {
    Param(OwnLimit(g, u), LimitKeepValue, g.requests[u])
  }

  function LimitOf(g: LaneGroup, policy: Policy, expectation: real, group: QoS, u: Uid): real
    requires u in g.requests
  {
    if policy.all then OutLimit(ParamOf(g, u), policy, expectation, |g.requests|, group) else LimitKeepValue
  }

  /** The limits that SetLimit sends for a group. */
  function Limits(g: LaneGroup, policy: Policy, expectation: real, group: QoS): Rates {
    map u | u in g.requests :: LimitOf(g, policy, expectation, group, u)
  }

  method SelectPods(g: Group, side: Side, policy: Policy, podList: set<Uid>) returns (params: map<Uid, Param>)
    requires podList == g.requests.Keys
    ensures params.Keys == if policy.all then podList else {}
    ensures forall u <- params :: params[u] == ParamOf(GroupOn(g, side), u)
  {
    params := map[];
    if policy.all {
      var todo := podList;
      while todo != {}
        invariant todo <= podList && params.Keys == podList - todo
        invariant forall u <- params :: params[u] == ParamOf(GroupOn(g, side), u)
      {
        var po :| po in todo;
        todo := todo - {po};
        var request := At(g.requests[po], side);
        var current := if po in g.limits then At(g.limits[po], side) else 0.0;
        params := params[po := Param(current, LimitKeepValue, request)];
      }
    }
  }

  method CompressPods(params: map<Uid, Param>, policy: Policy, expectation: real, podsNum: int, group: QoS)
    returns (r: map<Uid, Param>)
    requires params != map[] ==> podsNum > 0
    ensures r.Keys == params.Keys
    ensures forall u <- r :: r[u] == params[u].(outLimit := OutLimit(params[u], policy, expectation, podsNum, group))
  {
    r := params;
    var todo := params.Keys;
    while todo != {}
      invariant todo <= params.Keys == r.Keys
      invariant forall u <- r ::
                  r[u] == if u in todo then params[u]
                          else params[u].(outLimit := OutLimit(params[u], policy, expectation, podsNum, group))
    {
      var u :| u in todo;
      todo := todo - {u};
      var current := r[u];
      if expectation == LimitMax || expectation == LimitKeepValue {
        current := current.(outLimit := expectation);
      } else if expectation >= 0.0 && policy.ratio {
        if group == BT {
          current := current.(outLimit := Min(expectation * current.request, current.inLimit));
        }
        if group == BE {
          current := current.(outLimit := expectation / podsNum as real);
        }
        if group == GA {
          current := current.(outLimit := current.request);
        }
      }
      r := r[u := current];
    }
  }

  /** IOISetLimitDisk raises an ordinary limit to the minimum of a pod. */
  function Floored(limit: real, least: real): real {
    if limit == LimitMax || limit == LimitKeepValue then limit else Max(limit, least)
  }

  function FlooredAll(m: Rates, least: real): Rates {
    map u | u in m :: Floored(m[u], least)
  }

  function FlooredBw(b: Bw, least: Bw): Bw {
    Bw(Floored(b.rd, least.rd), Floored(b.wr, least.wr))
  }

  /** A limit that several pods may share. */
  class Cell {
    var wl: Bw

    constructor ()
    {
      wl := Bw(0.0, 0.0);
    }

    /** IOISetLimitDisk sends a limit, which it raises in place. */
    method SetLimitDisk(least: Bw) returns (sent: Bw)
      modifies this
      ensures wl == sent == FlooredBw(old(wl), least)
    {
      if wl.rd != LimitMax && wl.rd != LimitKeepValue && wl.rd < least.rd {
        wl := Bw(least.rd, wl.wr);
      }
      if wl.wr != LimitMax && wl.wr != LimitKeepValue && wl.wr < least.wr {
        wl := Bw(wl.rd, least.wr);
      }
      sent := wl;
    }
  }

  function Computed(params: map<Uid, Param>, u: Uid): real {
    if u in params then params[u].outLimit else LimitKeepValue
  }

  /** The pod-level part of ComposeLimitData.  Every pod is sent its own limit, but PodsLimitSet gets
      the same object for all pods, so it ends up with the last one, raised, for everybody. */
  method ComposeLimitData(pods: set<Uid>, rd: map<Uid, Param>, wr: map<Uid, Param>, least: Bw)
    returns (sent: Workloads, podsLimitSet: map<Uid, Cell>, limit: Cell, ghost last: Option<Uid>)
    ensures sent.Keys == pods && forall u <- sent :: sent[u] == FlooredBw(Bw(Computed(rd, u), Computed(wr, u)), least)
    ensures podsLimitSet.Keys == pods && forall u <- podsLimitSet :: podsLimitSet[u] == limit
    ensures pods != {} ==> last.Some? && last.value in pods && limit.wl == sent[last.value]
    ensures fresh(limit)
  {
    sent, podsLimitSet := map[], map[];
    limit := new Cell();
    last := None;
    var todo := pods;
    while todo != {}
      invariant todo <= pods && sent.Keys == pods - todo
      invariant forall u <- sent :: sent[u] == FlooredBw(Bw(Computed(rd, u), Computed(wr, u)), least)
      invariant podsLimitSet.Keys == pods - todo && forall u <- podsLimitSet :: podsLimitSet[u] == limit
      invariant todo != pods ==> last.Some? && last.value in sent && limit.wl == sent[last.value]
      invariant fresh(limit)
    {
      var po :| po in todo;
      todo := todo - {po};
      limit.wl := Bw(Computed(rd, po), limit.wl.wr);
      limit.wl := Bw(limit.wl.rd, Computed(wr, po));
      var raised := limit.SetLimitDisk(least);
      sent := sent[po := raised];
      podsLimitSet := podsLimitSet[po := limit];
      last := Some(po);
    }
  }

  /** Selecting and compressing one side. */
  method SideLimits(g: Group, side: Side, policy: Policy, expectation: real, group: QoS)
    returns (params: map<Uid, Param>)
    ensures forall u <- g.requests :: Computed(params, u) == LimitOf(GroupOn(g, side), policy, expectation, group, u)
  {
    var podList := g.requests.Keys;
    assert On(g.requests, side).Keys == podList;
    assert |On(g.requests, side)| == |podList|;
    var selected := SelectPods(g, side, policy, podList);
    params := CompressPods(selected, policy, expectation, |podList|, group);
  }

  /** The limits sent to the pods of a group, on one side. */
  ghost predicate SentTo(g: Group, sent: Workloads, side: Side, policy: Policy, expectation: real, group: QoS,
                         least: Bw)
  {
    On(sent, side) == FlooredAll(Limits(GroupOn(g, side), policy, expectation, group), At(least, side))
  }

  lemma SentOn(g: Group, side: Side, policy: Policy, expectation: real, group: QoS, least: Bw, sent: Workloads)
    requires sent.Keys == g.requests.Keys
    requires forall u <- sent ::
               At(sent[u], side) == Floored(LimitOf(GroupOn(g, side), policy, expectation, group, u), At(least, side))
    ensures SentTo(g, sent, side, policy, expectation, group, least)
  {
  }

  method SetLimit(g: Group, policy: Policy, expectation: Bw, group: QoS, least: Bw) returns (sent: Workloads)
    ensures SentTo(g, sent, In, policy, expectation.rd, group, least)
    ensures SentTo(g, sent, Out, policy, expectation.wr, group, least)
  {
    var rd := SideLimits(g, In, policy, expectation.rd, group);
    var wr := SideLimits(g, Out, policy, expectation.wr, group);
    var podsLimitSet, limit;
    ghost var last;
    sent, podsLimitSet, limit, last := ComposeLimitData(g.requests.Keys, rd, wr, least);
    SentOn(g, In, policy, expectation.rd, group, least, sent);
    SentOn(g, Out, policy, expectation.wr, group, least, sent);
  }

  /** What a pass over a disk sends to the pods of its three groups, on one side. */
  ghost predicate Sent(d: Disk, policy: QoS -> Policy, least: Bw, sent: map<QoS, Workloads>, side: Side) {
    && sent.Keys == {GA, BT, BE}
    && SentTo(d.ga, sent[GA], side, policy(GA), Expect(LaneOf(d, side), GA), GA, least)
    && SentTo(d.bt, sent[BT], side, policy(BT), Expect(LaneOf(d, side), BT), BT, least)
    && SentTo(d.be, sent[BE], side, policy(BE), Expect(LaneOf(d, side), BE), BE, least)
  }

  /** The best-effort pool as it is reported: reading and writing are exchanged. */
  function ReportedPool(d: Disk): Bw {
    Bw(d.bePool as real / 100.0 * d.size.wr, d.bePool as real / 100.0 * d.size.rd)
  }

  /** What a pass over a disk reports for guaranteed and for best-effort pods, and the limits it sends.
      Pressure is never reported. */
  method CalDiskAllocatable(d: Disk, policy: QoS -> Policy, least: Bw)
    returns (alloc: Bw, total: real, be: Bw, beTotal: real, pressure: bool, sent: map<QoS, Workloads>)
    ensures alloc == Bw(Allocatable(LaneOf(d, In)), Allocatable(LaneOf(d, Out)))
    ensures total == d.total - d.bePool as real / 100.0 * d.total
                     - Total(On(d.ga.requests, In)) - Total(On(d.bt.requests, In))
                     - Total(On(d.ga.requests, Out)) - Total(On(d.bt.requests, Out))
    ensures be == ReportedPool(d) && beTotal == d.bePool as real / 100.0 * d.total && !pressure
    ensures Sent(d, policy, least, sent, In) && Sent(d, policy, least, sent, Out)
  {
    var poolRead, poolWrite := d.bePool as real / 100.0 * d.size.rd, d.bePool as real / 100.0 * d.size.wr;
    beTotal := d.bePool as real / 100.0 * d.total;
    pressure := false;
    var gaReq := CalculateGroupBw(d.ga.requests);
    var btReq := CalculateGroupBw(d.bt.requests);
    var actual := CalculateGroupBw(d.bt.actual);
    var allocIn, gaIn, btIn, beIn := SideExpectations(d, In, gaReq.rd, btReq.rd, actual.rd);
    var allocOut, gaOut, btOut, beOut := SideExpectations(d, Out, gaReq.wr, btReq.wr, actual.wr);
    alloc := Bw(allocIn, allocOut);
    total := d.total - beTotal - gaReq.rd - btReq.rd - gaReq.wr - btReq.wr;
    be := Bw(poolWrite, poolRead);
    sent := SetLimits(d, policy, Bw(gaIn, gaOut), Bw(btIn, btOut), Bw(beIn, beOut), least);
  }

  /** The best-effort numbers are reported on the right side exactly if the pool is empty or the disk
      reads as fast as it writes. */
  lemma ReportedPoolIff(d: Disk)
    ensures ReportedPool(d) == Bw(LaneOf(d, In).pool, LaneOf(d, Out).pool) <==> d.bePool == 0 || d.size.rd == d.size.wr
  {
    var p := d.bePool as real / 100.0;
    if d.bePool != 0 && d.size.rd != d.size.wr {
      assert p != 0.0;
      Cancel(p, d.size.rd, d.size.wr);
    }
  }

  /** A disk that reads 100 and writes 50, a fifth of it for best effort: writing is reported as 20. */
  lemma PoolReportedExchanged(ga: Group, bt: Group, be: Group)
    ensures var d := Disk(Bw(100.0, 50.0), 150.0, 20, ga, bt, be);
            ReportedPool(d) == Bw(10.0, 20.0) && LaneOf(d, In).pool == 20.0 && LaneOf(d, Out).pool == 10.0
  {
  }

  lemma Cancel(p: real, x: real, y: real)
    requires p != 0.0 && x != y
    ensures p * x != p * y
  {
    assert p * (x - y) != 0.0;
    Distribute(p, x, -y);
  }

  ghost predicate Expects(d: Disk, group: QoS, b: Bw) {
    b.rd == Expect(LaneOf(d, In), group) && b.wr == Expect(LaneOf(d, Out), group)
  }

  method SetLimits(d: Disk, policy: QoS -> Policy, ga: Bw, bt: Bw, be: Bw, least: Bw)
    returns (sent: map<QoS, Workloads>)
    requires Expects(d, GA, ga) && Expects(d, BT, bt) && Expects(d, BE, be)
    ensures Sent(d, policy, least, sent, In) && Sent(d, policy, least, sent, Out)
  {
    var x := SetLimit(d.ga, policy(GA), ga, GA, least);
    var y := SetLimit(d.bt, policy(BT), bt, BT, least);
    var z := SetLimit(d.be, policy(BE), be, BE, least);
    sent := map[GA := x, BT := y, BE := z];
  }

  method SideExpectations(d: Disk, side: Side, gaReq: real, btReq: real, actual: real)
    returns (alloc: real, ga: real, bt: real, be: real)
    requires gaReq == Total(On(d.ga.requests, side)) && btReq == Total(On(d.bt.requests, side))
    requires actual == Total(On(d.bt.actual, side))
    ensures alloc == Allocatable(LaneOf(d, side))
    ensures ga == Expect(LaneOf(d, side), GA) && bt == Expect(LaneOf(d, side), BT) && be == Expect(LaneOf(d, side), BE)
  {
    var size := At(d.size, side);
    alloc := size - d.bePool as real / 100.0 * size - gaReq - btReq;
    ga, bt, be := Expectations(size, alloc, gaReq, btReq, actual);
  }

  // ---------------------------------------------------------------- what the division guarantees

  const Ratio := Policy(true, true)

  ghost function GaLimits(l: Lane): Rates {
    Limits(l.ga, Ratio, Expect(l, GA), GA)
  }

  ghost function BtLimits(l: Lane): Rates {
    Limits(l.bt, Ratio, Expect(l, BT), BT)
  }

  ghost function BeLimits(l: Lane): Rates {
    Limits(l.be, Ratio, Expect(l, BE), BE)
  }

  predicate AtLeast(m: Rates, least: real) {
    forall u <- m :: m[u] >= least
  }

  /** What the agent is given: no negative requests, and enough bandwidth for them. */
  ghost predicate Sane(l: Lane) {
    AtLeast(l.ga.requests, 0.0) && AtLeast(l.bt.requests, 0.0) && Allocatable(l) >= 0.0
  }

  lemma {:induction false} TotalNonNegative(m: Rates)
    requires AtLeast(m, 0.0)
    ensures Total(m) >= 0.0
    decreases |m|
  {
    if m != map[] {
      var u :| u in m;
      TotalWithout(m, u);
      TotalNonNegative(m - {u});
    }
  }

  predicate Under(x: real, y: real, e: real) {
    x <= e * y
  }

  lemma {:induction false} TotalScaled(m: Rates, w: Rates, e: real)
    requires m.Keys == w.Keys && forall u {:trigger Under(m[u], w[u], e)} | u in m :: Under(m[u], w[u], e)
    ensures Under(Total(m), Total(w), e)
    decreases |m|
  {
    if m == map[] {
      assert w == map[];
    } else {
      var u :| u in m;
      var m', w' := m - {u}, w - {u};
      forall v | v in m'
        ensures Under(m'[v], w'[v], e)
      {
        assert Under(m[v], w[v], e);
      }
      TotalScaled(m', w', e);
      TotalWithout(m, u);
      TotalWithout(w, u);
      assert Under(m[u], w[u], e);
      UnderSum(e, m[u], w[u], Total(m'), Total(w'), Total(m), Total(w));
    }
  }

  lemma UnderSum(e: real, x: real, y: real, s: real, t: real, sum: real, total: real)
    requires Under(x, y, e) && Under(s, t, e) && sum == x + s && total == y + t
    ensures Under(sum, total, e)
  {
  }

  lemma Distribute(x: real, y: real, z: real)
    ensures x * (y + z) == x * y + x * z
  {
  }

  lemma {:induction false} TotalEqualShares(m: Rates, share: real)
    requires forall u <- m :: m[u] == share
    ensures Total(m) == |m| as real * share
    decreases |m|
  {
    if m != map[] {
      var u :| u in m;
      TotalWithout(m, u);
      TotalEqualShares(m - {u}, share);
      assert |m - {u}| == |m| - 1;
      Distribute(share, 1.0, (|m| - 1) as real);
    }
  }

  /** Guaranteed pods get what they asked for, no more and no less. */
  lemma GuaranteedGetRequest(l: Lane)
    requires Sane(l)
    ensures GaLimits(l) == l.ga.requests
  {
    TotalNonNegative(l.ga.requests);
  }

  lemma FactorBounds(alloc: real, bt: real, e: real)
    requires alloc >= 0.0 && bt >= 0.0 && e == Factor(alloc, bt)
    ensures e >= 1.0 && e * bt <= alloc + bt
  {
    if bt > 0.0 {
      assert alloc / bt * bt == alloc;
      assert alloc / bt >= 0.0;
      Distribute(bt, alloc / bt, 1.0);
    }
  }

  lemma MoreThanOnce(e: real, r: real)
    requires e >= 1.0 && r >= 0.0
    ensures e * r >= r
  {
    assert (e - 1.0) * r >= 0.0;
  }

  lemma BurstableLimit(g: LaneGroup, u: Uid, e: real)
    requires u in g.requests && e >= 1.0 && g.requests[u] >= 0.0
    ensures var limit := LimitOf(g, Ratio, e, BT, u);
            && limit <= e * g.requests[u]
            && Min(g.requests[u], OwnLimit(g, u)) <= limit <= OwnLimit(g, u)
  {
    MoreThanOnce(e, g.requests[u]);
    BurstableIsMin(g, u, e);
    MinBounds(e * g.requests[u], g.requests[u], OwnLimit(g, u));
  }

  lemma BurstableIsMin(g: LaneGroup, u: Uid, e: real)
    requires u in g.requests && e >= 1.0
    ensures LimitOf(g, Ratio, e, BT, u) == Min(e * g.requests[u], OwnLimit(g, u))
  {
  }

  lemma MinBounds(scaled: real, r: real, own: real)
    requires scaled >= r
    ensures Min(scaled, own) <= scaled && Min(r, own) <= Min(scaled, own) <= own
  {
  }

  lemma BurstableWithin(g: LaneGroup, m: Rates, alloc: real, e: real)
    requires AtLeast(g.requests, 0.0) && alloc >= 0.0 && m == Limits(g, Ratio, e, BT)
    requires e == Factor(alloc, Total(g.requests))
    ensures Total(m) <= alloc + Total(g.requests)
    ensures forall u <- m :: Min(g.requests[u], OwnLimit(g, u)) <= m[u] <= OwnLimit(g, u)
  {
    TotalNonNegative(g.requests);
    FactorBounds(alloc, Total(g.requests), e);
    forall u | u in m
      ensures Under(m[u], g.requests[u], e)
      ensures Min(g.requests[u], OwnLimit(g, u)) <= m[u] <= OwnLimit(g, u)
    {
      BurstableLimit(g, u, e);
    }
    TotalScaled(m, g.requests, e);
    UnderFactor(Total(m), alloc, Total(g.requests), e);
  }

  lemma UnderFactor(x: real, alloc: real, bt: real, e: real)
    requires alloc >= 0.0 && bt >= 0.0 && e == Factor(alloc, bt) && Under(x, bt, e)
    ensures x <= alloc + bt
  {
    FactorBounds(alloc, bt, e);
  }

  /** Burstable pods get at least what they asked for, or their limit if that is less, and never
      more than their limit. */
  lemma BurstableGetRequest(l: Lane)
    requires Sane(l)
    ensures forall u <- l.bt.requests ::
              Min(l.bt.requests[u], OwnLimit(l.bt, u)) <= BtLimits(l)[u] <= OwnLimit(l.bt, u)
    ensures Total(BtLimits(l)) <= Allocatable(l) + Total(l.bt.requests)
  {
    BurstableWithin(l.bt, BtLimits(l), Allocatable(l), Expect(l, BT));
  }

  /** What guaranteed requests leave of the bandwidth outside the BE pool. */
  ghost function Spare(l: Lane): real {
    l.size - l.pool - Total(l.ga.requests)
  }

  /** A part of it, in proportion to what a pod asked for. */
  ghost function Portion(l: Lane, request: real): real
    requires Total(l.bt.requests) != 0.0
  {
    Proportional(request, Spare(l), Total(l.bt.requests))
  }

  function Proportional(request: real, spare: real, total: real): real
    requires total != 0.0
  {
    request * spare / total
  }

  lemma FactorIsShare(spare: real, bt: real, e: real)
    requires bt > 0.0 && e == Factor(spare - bt, bt)
    ensures e == spare / bt
  {
    Distribute(1.0 / bt, spare, -bt);
    assert (spare - bt) / bt == spare / bt - bt / bt;
  }

  lemma Reordered(request: real, spare: real, bt: real)
    requires bt > 0.0
    ensures spare / bt * request == request * spare / bt
    ensures spare >= 0.0 ==> spare / bt >= 0.0
  {
  }

  /** Burstable pods divide what the guaranteed ones leave in proportion to their requests, each up to
      its own limit. */
  lemma BurstableGetPortion(l: Lane, u: Uid)
    requires Spare(l) >= 0.0 && Total(l.bt.requests) > 0.0 && u in l.bt.requests
    ensures BtLimits(l)[u] == Min(Portion(l, l.bt.requests[u]), OwnLimit(l.bt, u))
  {
    var bt, e := Total(l.bt.requests), Expect(l, BT);
    assert Allocatable(l) == Spare(l) - bt;
    FactorIsShare(Spare(l), bt, e);
    Reordered(l.bt.requests[u], Spare(l), bt);
    ScaledLimit(l.bt, u, e, Portion(l, l.bt.requests[u]));
  }

  lemma ScaledLimit(g: LaneGroup, u: Uid, e: real, scaled: real)
    requires u in g.requests && e >= 0.0 && scaled == e * g.requests[u]
    ensures LimitOf(g, Ratio, e, BT, u) == Min(scaled, OwnLimit(g, u))
  {
  }

  /** The pod's own limit does not hold it back. */
  ghost predicate Unbound(l: Lane, u: Uid)
    requires u in l.bt.requests && Total(l.bt.requests) != 0.0
  {
    Portion(l, l.bt.requests[u]) <= OwnLimit(l.bt, u)
  }

  ghost function Portions(l: Lane): Rates
    requires Total(l.bt.requests) != 0.0
  {
    map u | u in l.bt.requests :: Portion(l, l.bt.requests[u])
  }

  lemma {:induction false} TotalOfPortions(m: Rates, w: Rates, e: real)
    requires m.Keys == w.Keys && forall u {:trigger Exactly(m[u], w[u], e)} | u in m :: Exactly(m[u], w[u], e)
    ensures Exactly(Total(m), Total(w), e)
    decreases |m|
  {
    if m == map[] {
      assert w == map[];
    } else {
      var u :| u in m;
      var m', w' := m - {u}, w - {u};
      forall v | v in m'
        ensures Exactly(m'[v], w'[v], e)
      {
        assert Exactly(m[v], w[v], e);
      }
      TotalOfPortions(m', w', e);
      TotalWithout(m, u);
      TotalWithout(w, u);
      assert Exactly(m[u], w[u], e);
      ExactSum(e, m[u], w[u], Total(m'), Total(w'), Total(m), Total(w));
    }
  }

  predicate Exactly(x: real, y: real, e: real) {
    x == e * y
  }

  lemma ExactSum(e: real, x: real, y: real, s: real, t: real, sum: real, total: real)
    requires Exactly(x, y, e) && Exactly(s, t, e) && sum == x + s && total == y + t
    ensures Exactly(sum, total, e)
  {
    Distribute(e, y, t);
  }

  lemma PortionsAddUp(l: Lane)
    requires Total(l.bt.requests) > 0.0
    ensures Total(Portions(l)) == Spare(l)
  {
    var bt := Total(l.bt.requests);
    var m, w, e := Portions(l), l.bt.requests, Spare(l) / bt;
    forall u | u in m
      ensures Exactly(m[u], w[u], e)
    {
      Reordered(w[u], Spare(l), bt);
    }
    TotalOfPortions(m, w, e);
    Reordered(bt, Spare(l), bt);
    WholeShares(bt, Spare(l));
  }

  /** Maps over the same pods, of which one is nowhere larger: they add up to the same exactly if they
      are the same. */
  lemma {:induction false} TotalLess(m: Rates, w: Rates)
    requires m.Keys == w.Keys && forall u <- m :: m[u] <= w[u]
    ensures Total(m) <= Total(w) && (Total(m) == Total(w) <==> m == w)
    decreases |m|
  {
    if m == map[] {
      assert w == map[];
    } else {
      var u :| u in m;
      TotalLess(m - {u}, w - {u});
      TotalWithout(m, u);
      TotalWithout(w, u);
      if m - {u} == w - {u} && m[u] == w[u] {
        SameWithout(m, w, u);
      }
    }
  }

  lemma SameWithout(m: Rates, w: Rates, u: Uid)
    requires u in m && u in w && m - {u} == w - {u} && m[u] == w[u]
    ensures m == w
  {
    assert m == (m - {u})[u := m[u]] && w == (w - {u})[u := w[u]];
  }

  lemma LimitsArePortionsIff(l: Lane)
    requires Sane(l) && Total(l.bt.requests) > 0.0
    ensures BtLimits(l).Keys == Portions(l).Keys && forall u <- BtLimits(l) :: BtLimits(l)[u] <= Portions(l)[u]
    ensures BtLimits(l) == Portions(l) <==> forall u <- l.bt.requests :: Unbound(l, u)
  {
    var m, w := BtLimits(l), Portions(l);
    forall u | u in l.bt.requests
      ensures m[u] <= w[u] && (m[u] == w[u] <==> Unbound(l, u))
    {
      BurstableGetPortion(l, u);
    }
    if forall u <- l.bt.requests :: Unbound(l, u) {
      assert m == w;
    }
    if m == w {
      forall u | u in l.bt.requests
        ensures Unbound(l, u)
      {
        assert m[u] == w[u];
      }
    }
  }

  /** Guaranteed and burstable limits use up all that is outside the BE pool exactly if no burstable
      pod is held back by its own limit. */
  lemma NothingSpareIff(l: Lane)
    requires Sane(l) && Total(l.bt.requests) > 0.0
    ensures Total(GaLimits(l)) + Total(BtLimits(l)) == l.size - l.pool
            <==> forall u <- l.bt.requests :: Unbound(l, u)
  {
    GuaranteedGetRequest(l);
    PortionsAddUp(l);
    LimitsArePortionsIff(l);
    TotalLess(BtLimits(l), Portions(l));
  }

  /** With nothing asked for, burstable pods get nothing. */
  lemma BurstableAskingNothing(l: Lane, u: Uid)
    requires Sane(l) && Total(l.bt.requests) == 0.0 && u in l.bt.requests
    ensures BtLimits(l)[u] == Min(0.0, OwnLimit(l.bt, u))
  {
    TotalWithout(l.bt.requests, u);
    TotalNonNegative(l.bt.requests - {u});
    assert l.bt.requests[u] == 0.0;
    ScaledLimit(l.bt, u, 1.0, 0.0);
  }

  /** Guaranteed pods are told their request exactly if they ask for something, or there is bandwidth
      left: without either, what they have is kept. */
  lemma GuaranteedToldIff(l: Lane)
    requires AtLeast(l.ga.requests, 0.0) && l.ga.requests != map[]
    ensures GaLimits(l) == l.ga.requests <==> Total(l.ga.requests) > 0.0 || Allocatable(l) >= 0.0
  {
    TotalNonNegative(l.ga.requests);
    var u :| u in l.ga.requests;
    if Total(l.ga.requests) <= 0.0 && Allocatable(l) < 0.0 {
      assert GaLimits(l)[u] < 0.0;
    }
  }

  /** Limits are set only if the policy selects all pods and divides by requests, and there is something
      to divide; otherwise every pod keeps what it has, also through the floor. */
  lemma KeptOtherwise(g: LaneGroup, policy: Policy, expectation: real, group: QoS, least: real, u: Uid)
    requires u in g.requests && expectation != LimitMax
    requires !policy.all || !policy.ratio || expectation < 0.0
    ensures FlooredAll(Limits(g, policy, expectation, group), least)[u] == LimitKeepValue
  {
  }

  /** Guaranteed and burstable limits together stay outside the BE pool. */
  lemma LimitsOutsideBePool(l: Lane)
    requires Sane(l)
    ensures Total(GaLimits(l)) + Total(BtLimits(l)) <= l.size - l.pool
  {
    GuaranteedGetRequest(l);
    BurstableGetRequest(l);
  }

  /** Best-effort pods share equally, and exactly, what the others do not use. */
  lemma BestEffortSharesRest(l: Lane)
    requires l.be.requests != map[] && Expect(l, BE) >= 0.0
    ensures forall u <- l.be.requests :: BeLimits(l)[u] == Expect(l, BE) / |l.be.requests| as real
    ensures Total(BeLimits(l)) + Total(l.ga.requests) + Max(Total(l.bt.requests), Total(l.bt.actual)) == l.size
  {
    var n := |l.be.requests|;
    assert BeLimits(l).Keys == l.be.requests.Keys;
    assert |BeLimits(l)| == |BeLimits(l).Keys| == n;
    TotalEqualShares(BeLimits(l), Expect(l, BE) / n as real);
    WholeShares(n as real, Expect(l, BE));
  }

  lemma WholeShares(n: real, x: real)
    requires n > 0.0
    ensures n * (x / n) == x
  {
  }

  // ---------------------------------------------------------------- the floors

  /** Pods admitted by the scheduler ask for at least the minimum, and then the floor does not touch
      the limits of guaranteed and burstable pods. */
  lemma FloorsIdle(l: Lane, least: real)
    requires least >= 0.0 && Sane(l) && l.bt.requests.Keys <= l.bt.limits.Keys
    requires AtLeast(l.ga.requests, least) && AtLeast(l.bt.requests, least) && AtLeast(l.bt.limits, least)
    ensures forall u <- l.ga.requests :: Floored(GaLimits(l)[u], least) == GaLimits(l)[u]
    ensures forall u <- l.bt.requests :: Floored(BtLimits(l)[u], least) == BtLimits(l)[u]
  {
    GuaranteedGetRequest(l);
    BurstableGetRequest(l);
  }

  /** The floor leaves the best-effort limits as they are exactly if an equal share is no less than
      the minimum. */
  lemma BestEffortFloorIff(l: Lane, least: real)
    requires l.be.requests != map[] && Expect(l, BE) >= 0.0
    ensures (forall u <- l.be.requests :: Floored(BeLimits(l)[u], least) == BeLimits(l)[u])
            <==> Expect(l, BE) >= |l.be.requests| as real * least
  {
    var n := |l.be.requests| as real;
    assert n > 0.0;
    ShareOrder(n, Expect(l, BE), least);
    var u :| u in l.be.requests;
    assert BeLimits(l)[u] == Expect(l, BE) / n;
  }

  /** Nobody but two best-effort pods on a disk that reads 10. */
  function TwoBestEffort(): Lane {
    var none := LaneGroup(map[], map[], map[]);
    Lane(10.0, 2.0, none, none, LaneGroup(map["a" := 0.0, "b" := 0.0], map[], map[]))
  }

  lemma TwoShares()
    ensures BeLimits(TwoBestEffort()) == map["a" := 5.0, "b" := 5.0]
  {
    var l := TwoBestEffort();
    assert Expect(l, BE) == 10.0;
    assert |l.be.requests| == |map["a" := 0.0]| + 1 == 2;
  }

  /** With a minimum of 6 each is raised from 5 to 6, and together they may read more than the disk can. */
  lemma BestEffortFloored()
    ensures var l := TwoBestEffort();
            && FlooredAll(BeLimits(l), 6.0) == map["a" := 6.0, "b" := 6.0]
            && Total(FlooredAll(BeLimits(l), 6.0)) > l.size
  {
    TwoShares();
    var floored := map["a" := 6.0, "b" := 6.0];
    assert FlooredAll(BeLimits(TwoBestEffort()), 6.0) == floored;
    assert |floored| == |map["a" := 6.0]| + 1;
    TotalEqualShares(floored, 6.0);
  }

  lemma ShareOrder(n: real, x: real, y: real)
    requires n > 0.0 && x >= 0.0
    ensures x / n >= y <==> x >= n * y
    ensures x / n >= 0.0
  {
    WholeShares(n, x);
    ScaleOrder(n, x / n, y);
    ScaleOrder(n, x / n, 0.0);
  }

  lemma ScaleOrder(n: real, x: real, y: real)
    requires n > 0.0
    ensures x >= y <==> n * x >= n * y
  {
    if x >= y {
      assert n * (x - y) >= 0.0;
    } else {
      assert n * (y - x) > 0.0;
    }
  }

  /** It is, if burstable pods stay within their requests and the pool holds the minimum of every
      best-effort pod, as admission requires. */
  lemma AdmittedBestEffortNotFloored(l: Lane, least: real)
    requires Sane(l) && Total(l.bt.actual) <= Total(l.bt.requests) && l.be.requests != map[]
    requires least >= 0.0 && l.pool >= |l.be.requests| as real * least
    ensures forall u <- l.be.requests :: Floored(BeLimits(l)[u], least) == BeLimits(l)[u]
  {
    assert Expect(l, BE) >= l.pool;
    assert |l.be.requests| as real * least >= 0.0;
    BestEffortFloorIff(l, least);
  }
}
