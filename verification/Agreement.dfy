/** The agent and the scheduler compute the guaranteed bandwidth that is left on a disk separately:
    the agent from its request tables (pkg/agent/disk/engine.go:744-776), the scheduler from its
    ledger (pkg/scheduler/blockio/handle.go:579-626).  This module relates the two. */
module Agreement {
  import opened IoTypes
  import opened Sums
  import opened PodLists
  import DiskCache
  import Bandwidth

  // ---------------------------------------------------------------- the agent's groups of a disk

  /** The pods that the tables have in one group of a device. */
  function Members(table: Table, dev: DevId, group: QoS): set<Uid> {
    set s | s in table && s.dev == dev && s.group == group :: s.uid
  }

  function InfoAt(table: Table, dev: DevId, group: QoS, u: Uid): RunInfo
    requires u in Members(table, dev, group)
  {
    table[Slot(dev, group, u)]
  }

  function Rate(q: Quantity): Bandwidth.Bw {
    Bandwidth.Bw(q.inbps, q.outbps)
  }

  function GroupIn(table: Table, dev: DevId, group: QoS, actual: Bandwidth.Workloads): Bandwidth.Group {
    Bandwidth.Group(map u | u in Members(table, dev, group) :: Rate(InfoAt(table, dev, group, u).request),
                    map u | u in Members(table, dev, group) :: Rate(InfoAt(table, dev, group, u).limit),
                    actual)
  }

  /** The disk as calDiskAllocatable finds it. */
  function DiskOf(rc: ResourceConfig, dev: DevId, table: Table, actual: QoS -> Bandwidth.Workloads): Bandwidth.Disk
    requires dev in rc.devices
  {
    var c := rc.devices[dev];
    Bandwidth.Disk(Bandwidth.Bw(c.capacityIn, c.capacityOut), c.capacityTotal, rc.bePool,
                   GroupIn(table, dev, GA, actual(GA)), GroupIn(table, dev, BT, actual(BT)),
                   GroupIn(table, dev, BE, actual(BE)))
  }

  // ---------------------------------------------------------------- one pod

  /** The group in which the agent enters a pod on a device, if it does. */
  predicate InGroup(pod: PodRequest, dev: DevId, group: QoS) {
    dev in DiskDevs(pod.requests) && InfoOn(pod.requests, pod.name, dev).group == group
  }

  function Asked(pods: Pods, dev: DevId, group: QoS): Bandwidth.Workloads {
    map u | u in pods && InGroup(pods[u], dev, group) :: Rate(InfoOn(pods[u].requests, pods[u].name, dev).request)
  }

  predicate Named(pods: Pods) {
    forall u <- pods :: pods[u].name != ""
  }

  /** The agent's tables hold these pods, so a group has exactly what these pods asked for. */
  lemma GroupIsAsked(pods: Pods, devices: set<DevId>, dev: DevId, group: QoS, actual: Bandwidth.Workloads)
    requires Named(pods) && dev in devices
    ensures GroupIn(Written(devices, EventsOf(pods)), dev, group, actual).requests == Asked(pods, dev, group)
  {
    var table := Written(devices, EventsOf(pods));
    forall u: Uid
      ensures Holds(table, pods, dev, group, u)
    {
      MemberIff(pods, devices, dev, group, u);
    }
    GroupHolds(table, pods, dev, group, actual);
  }

  /** The tables have the pod in the group exactly if it asked to be there, with what it asked for. */
  predicate Holds(table: Table, pods: Pods, dev: DevId, group: QoS, u: Uid) {
    && (u in Members(table, dev, group) <==> u in pods && InGroup(pods[u], dev, group))
    && (u in Members(table, dev, group) ==>
          InfoAt(table, dev, group, u) == InfoOn(pods[u].requests, pods[u].name, dev))
  }

  lemma GroupHolds(table: Table, pods: Pods, dev: DevId, group: QoS, actual: Bandwidth.Workloads)
    requires forall u: Uid :: Holds(table, pods, dev, group, u)
    ensures GroupIn(table, dev, group, actual).requests == Asked(pods, dev, group)
  {
    var x, y := GroupIn(table, dev, group, actual).requests, Asked(pods, dev, group);
    forall u: Uid
      ensures u in x <==> u in y
      ensures u in x && u in y ==> x[u] == y[u]
    {
      assert Holds(table, pods, dev, group, u);
    }
  }

  lemma MemberIff(pods: Pods, devices: set<DevId>, dev: DevId, group: QoS, u: Uid)
    requires Named(pods) && dev in devices
    ensures Holds(Written(devices, EventsOf(pods)), pods, dev, group, u)
  {
    var events := EventsOf(pods);
    var s := Slot(dev, group, u);
    EventsOfAre(pods);
    assert (dev, u) in events <==> HasEvent(pods, (dev, u));
    WrittenAt(devices, events, s);
    assert s in Written(devices, events) <==> u in Members(Written(devices, events), dev, group);
    if u in pods && dev in DiskDevs(pods[u].requests) {
      InfoKeepsName(pods[u].requests, pods[u].name, dev);
    }
  }

  lemma {:induction false} InfoKeepsName(rs: seq<IoRequest>, name: string, dev: DevId)
    requires dev in DiskDevs(rs)
    ensures InfoOn(rs, name, dev).name == name
    decreases |rs|
  {
    var last := |rs| - 1;
    if !DiskCache.Asks(rs[last], dev) {
      StillListed(rs, dev);
      InfoKeepsName(rs[..last], name, dev);
    }
  }

  lemma StillListed(rs: seq<IoRequest>, dev: DevId)
    requires dev in DiskDevs(rs) && !DiskCache.Asks(rs[|rs| - 1], dev)
    ensures dev in DiskDevs(rs[..|rs| - 1])
  {
    var i :| 0 <= i < |rs| && DiskCache.Asks(rs[i], dev);
    assert rs[..|rs| - 1][i] == rs[i];
  }

  /** A clean pod has one request on a device: it is what the agent enters, and what the scheduler
      charges. */
  lemma {:induction false} OneRequest(rs: seq<IoRequest>, name: string, dev: DevId, i: nat)
    requires DiskCache.Clean(rs) && i < |rs| && DiskCache.Asks(rs[i], dev)
    ensures dev in DiskDevs(rs) && InfoOn(rs, name, dev) == Classified(rs[i], rs[i].dev.value, name)
    decreases |rs|
  {
    var last := |rs| - 1;
    if i < last {
      assert !DiskCache.Asks(rs[last], dev);
      assert rs[..last][i] == rs[i];
      OneRequest(rs[..last], name, dev, i);
    }
  }

  // ---------------------------------------------------------------- which group a pod is in

  /** Request and limit agree in all four numbers. */
  predicate LimitIsRequest(d: DevRequirement) {
    var q, l := OrZero(d.request), OrZero(d.limit);
    q.inbps == l.inbps && q.outbps == l.outbps && q.iniops == l.iniops && q.outiops == l.outiops
  }

  /** Best effort stays best effort; otherwise a pod is guaranteed if it may not exceed its request, and
      burstable if it may. */
  predicate BelongsIn(r: IoRequest, group: QoS) {
    && r.dev.Some?
    && match group
       case GA => r.qos != BE && LimitIsRequest(r.dev.value)
       case BT => r.qos != BE && !LimitIsRequest(r.dev.value)
       case BE => r.qos == BE
  }

  predicate Carries(info: RunInfo, d: DevRequirement, name: string) {
    && info.request == OrZero(d.request) && info.limit == OrZero(d.limit)
    && info.rawRequest == OrZero(d.rawRequest) && info.rawLimit == OrZero(d.rawLimit) && info.name == name
  }

  lemma ClassifiedIs(r: IoRequest, name: string, group: QoS)
    requires r.dev.Some?
    ensures Classified(r, r.dev.value, name).group == group <==> BelongsIn(r, group)
    ensures Carries(Classified(r, r.dev.value, name), r.dev.value, name)
  {
  }

  /** In the tables made from a list, a pod is in a group of a device exactly if it has a name, the
      device is profiled, and its request there belongs in that group, with the numbers of that request. */
  lemma EnteredIff(pods: Pods, devices: set<DevId>, u: Uid, dev: DevId, i: nat, group: QoS)
    requires u in pods
    requires DiskCache.Clean(pods[u].requests) && i < |pods[u].requests| && DiskCache.Asks(pods[u].requests[i], dev)
    ensures var table, s, r := Written(devices, EventsOf(pods)), Slot(dev, group, u), pods[u].requests[i];
            && (s in table <==> pods[u].name != "" && dev in devices && BelongsIn(r, group))
            && (s in table ==> Carries(table[s], r.dev.value, pods[u].name))
  {
    EventsOfAre(pods);
    OneRequest(pods[u].requests, pods[u].name, dev, i);
    ClassifiedIs(pods[u].requests[i], pods[u].name, group);
    assert HasEvent(pods, (dev, u));
    WrittenAt(devices, EventsOf(pods), Slot(dev, group, u));
  }

  /** A pod that asks nothing of a device is in no group of it. */
  lemma NotEntered(pods: Pods, devices: set<DevId>, s: Slot)
    requires s.uid !in pods ||
             forall i | 0 <= i < |pods[s.uid].requests| :: !DiskCache.Asks(pods[s.uid].requests[i], s.dev)
    ensures s !in Written(devices, EventsOf(pods))
  {
    EventsOfAre(pods);
    assert !HasEvent(pods, (s.dev, s.uid));
    WrittenAt(devices, EventsOf(pods), s);
  }

  /** So it is after any number of delta lists, for the pods that were not unregistered since. */
  lemma DeltasEnterIff(devices: set<DevId>, rounds: seq<Round>, store: Pods, u: Uid, dev: DevId, i: nat, group: QoS)
    requires rounds != [] && Stable(rounds) && forall i | 0 <= i < |rounds| :: AllDetailed(rounds[i])
    requires var pods := Wanted(rounds[|rounds| - 1]);
             && u in pods && DiskCache.Clean(pods[u].requests)
             && i < |pods[u].requests| && DiskCache.Asks(pods[u].requests[i], dev)
    ensures var last := rounds[|rounds| - 1];
            var pod, s := Wanted(last)[u], Slot(dev, group, u);
            var table := DeltaRun(AgentState(store, map[]), devices, rounds).table;
            && (s in table <==>
                u !in last.gone && pod.name != "" && dev in devices && BelongsIn(pod.requests[i], group))
            && (s in table ==> Carries(table[s], pod.requests[i].dev.value, pod.name))
  {
    DeltaListsExact(AgentState(store, map[]), devices, rounds);
    EnteredIff(Wanted(rounds[|rounds| - 1]), devices, u, dev, i, group);
  }

  // ---------------------------------------------------------------- all pods

  ghost predicate CleanPods(pods: Pods) {
    forall u <- pods :: DiskCache.Clean(pods[u].requests)
  }

  ghost function TotalAsked(pods: Pods, dev: DevId, group: QoS, side: Bandwidth.Side): real {
    Bandwidth.Total(Bandwidth.On(Asked(pods, dev, group), side))
  }

  /** What the agent adds up for a device: bandwidth of the guaranteed and burstable pods, and the
      number of best-effort pods. */
  ghost function Counted(pods: Pods, dev: DevId): Amount {
    Amount(TotalAsked(pods, dev, GA, Bandwidth.In) + TotalAsked(pods, dev, BT, Bandwidth.In),
           TotalAsked(pods, dev, GA, Bandwidth.Out) + TotalAsked(pods, dev, BT, Bandwidth.Out),
           |Asked(pods, dev, BE)|)
  }

  /** The rate a pod adds to one group of a device. */
  function Share(pod: PodRequest, dev: DevId, group: QoS): Bandwidth.Bw {
    if InGroup(pod, dev, group) then Rate(InfoOn(pod.requests, pod.name, dev).request) else Bandwidth.Bw(0.0, 0.0)
  }

  lemma AskedWithout(pods: Pods, dev: DevId, group: QoS, u: Uid)
    requires u in pods
    ensures var rest := Asked(pods - {u}, dev, group);
            && u !in rest
            && Asked(pods, dev, group) ==
               if InGroup(pods[u], dev, group) then rest[u := Share(pods[u], dev, group)] else rest
  {
  }

  lemma OnInsert(rest: Bandwidth.Workloads, u: Uid, share: Bandwidth.Bw, side: Bandwidth.Side)
    requires u !in rest
    ensures Bandwidth.Total(Bandwidth.On(rest[u := share], side)) ==
            Bandwidth.At(share, side) + Bandwidth.Total(Bandwidth.On(rest, side))
  {
    assert Bandwidth.On(rest[u := share], side) == Bandwidth.On(rest, side)[u := Bandwidth.At(share, side)];
    Bandwidth.TotalInsert(Bandwidth.On(rest, side), u, Bandwidth.At(share, side));
  }

  lemma TotalAskedWithout(pods: Pods, dev: DevId, group: QoS, u: Uid, side: Bandwidth.Side)
    requires u in pods
    ensures TotalAsked(pods, dev, group, side) ==
            Bandwidth.At(Share(pods[u], dev, group), side) + TotalAsked(pods - {u}, dev, group, side)
  {
    AskedWithout(pods, dev, group, u);
    if InGroup(pods[u], dev, group) {
      OnInsert(Asked(pods - {u}, dev, group), u, Share(pods[u], dev, group), side);
    }
  }

  function Shares(pod: PodRequest, dev: DevId): Amount {
    Amount(Share(pod, dev, GA).rd + Share(pod, dev, BT).rd, Share(pod, dev, GA).wr + Share(pod, dev, BT).wr,
           if InGroup(pod, dev, BE) then 1 else 0)
  }

  lemma ShareIsReserved(pod: PodRequest, dev: DevId)
    requires DiskCache.Clean(pod.requests)
    ensures DiskCache.Reserved(dev, pod.requests) == Shares(pod, dev)
  {
    var rs := pod.requests;
    if dev in DiskDevs(rs) {
      var i :| 0 <= i < |rs| && DiskCache.Asks(rs[i], dev);
      assert rs[i] in rs;
      OneRequest(rs, pod.name, dev, i);
      DiskCache.ReservedIsCharge(dev, rs, i);
    } else {
      forall r | r in rs
        ensures !DiskCache.Asks(r, dev)
      {
      }
      DiskCache.ReservedNothing(dev, rs);
    }
  }

  lemma CountedNothing(dev: DevId)
    ensures Counted(map[], dev) == Zero
  {
    assert Asked(map[], dev, GA) == Asked(map[], dev, BT) == Asked(map[], dev, BE) == map[];
    assert Bandwidth.On(map[], Bandwidth.In) == Bandwidth.On(map[], Bandwidth.Out) == map[];
  }

  lemma CountOne(pods: Pods, dev: DevId, u: Uid)
    requires u in pods
    ensures Counted(pods, dev) == Shares(pods[u], dev).Plus(Counted(pods - {u}, dev))
  {
    TotalAskedWithout(pods, dev, GA, u, Bandwidth.In);
    TotalAskedWithout(pods, dev, GA, u, Bandwidth.Out);
    TotalAskedWithout(pods, dev, BT, u, Bandwidth.In);
    TotalAskedWithout(pods, dev, BT, u, Bandwidth.Out);
    AskedWithout(pods, dev, BE, u);
  }

  /** The agent's sums over its groups are the scheduler's sums over its ledger. */
  lemma {:induction false} CountedIsLoad(pods: Pods, dev: DevId)
    requires CleanPods(pods)
    ensures Counted(pods, dev) == DiskCache.Load(dev, pods)
    decreases |pods|
  {
    if pods == map[] {
      CountedNothing(dev);
    } else {
      var u :| u in pods;
      CountedIsLoad(pods - {u}, dev);
      CountOne(pods, dev, u);
      LoadOne(pods, dev, u);
    }
  }

  lemma LoadOne(pods: Pods, dev: DevId, u: Uid)
    requires u in pods && CleanPods(pods)
    ensures DiskCache.Load(dev, pods) == Shares(pods[u], dev).Plus(DiskCache.Load(dev, pods - {u}))
  {
    ShareIsReserved(pods[u], dev);
    SumWithout(pods, DiskCache.LoadOn(dev), u);
  }

  // ---------------------------------------------------------------- the limits of a disk

  /** One side of a disk whose tables were made from these pods. */
  ghost function LaneFor(rc: ResourceConfig, dev: DevId, pods: Pods, devices: set<DevId>,
                         actual: QoS -> Bandwidth.Workloads, side: Bandwidth.Side): Bandwidth.Lane
    requires dev in rc.devices
  {
    Bandwidth.LaneOf(DiskOf(rc, dev, Written(devices, EventsOf(pods)), actual), side)
  }

  /** The pod is burstable on this side, with this request and this limit. */
  predicate AsksFor(l: Bandwidth.Lane, u: Uid, request: real, limit: real) {
    u in l.bt.requests && l.bt.requests[u] == request && Bandwidth.OwnLimit(l.bt, u) == limit
  }

  /** What a pod asked for, and what it may not exceed, on one side of the device. */
  lemma BurstableInLane(rc: ResourceConfig, dev: DevId, pods: Pods, devices: set<DevId>,
                        actual: QoS -> Bandwidth.Workloads, side: Bandwidth.Side, u: Uid, i: nat)
    requires dev in rc.devices && dev in devices && u in pods && pods[u].name != ""
    requires DiskCache.Clean(pods[u].requests) && i < |pods[u].requests| && DiskCache.Asks(pods[u].requests[i], dev)
    requires BelongsIn(pods[u].requests[i], BT)
    ensures var d := pods[u].requests[i].dev.value;
            AsksFor(LaneFor(rc, dev, pods, devices, actual, side), u,
                    Bandwidth.At(Rate(OrZero(d.request)), side), Bandwidth.At(Rate(OrZero(d.limit)), side))
  {
    EnteredIff(pods, devices, u, dev, i, BT);
    var table := Written(devices, EventsOf(pods));
    assert Slot(dev, BT, u) in table;
    assert u in Members(table, dev, BT);
  }

  /** Burstable pods of a list divide, in proportion to what they asked for and each up to the limit it
      asked for, what the guaranteed pods of the list leave of the disk outside the BE pool. */
  lemma BurstableGetPortion(rc: ResourceConfig, dev: DevId, pods: Pods, devices: set<DevId>,
                            actual: QoS -> Bandwidth.Workloads, side: Bandwidth.Side, u: Uid, i: nat,
                            request: real, limit: real, spare: real, total: real)
    requires dev in rc.devices && dev in devices && Named(pods) && u in pods
    requires DiskCache.Clean(pods[u].requests) && i < |pods[u].requests| && DiskCache.Asks(pods[u].requests[i], dev)
    requires BelongsIn(pods[u].requests[i], BT)
    requires request == Bandwidth.At(Rate(OrZero(pods[u].requests[i].dev.value.request)), side)
    requires limit == Bandwidth.At(Rate(OrZero(pods[u].requests[i].dev.value.limit)), side)
    requires spare == Part(CapacityOn(rc, dev, side), rc.bePool) - TotalAsked(pods, dev, GA, side) && spare >= 0.0
    requires total == TotalAsked(pods, dev, BT, side) && total > 0.0
    ensures Gets(LaneFor(rc, dev, pods, devices, actual, side), u, request, limit, spare, total)
  {
    LaneConsists(rc, dev, pods, devices, actual, side);
    BurstableInLane(rc, dev, pods, devices, actual, side, u, i);
    PortionOf(LaneFor(rc, dev, pods, devices, actual, side), u, CapacityOn(rc, dev, side), rc.bePool,
              TotalAsked(pods, dev, GA, side), Bandwidth.Total(Bandwidth.On(actual(BT), side)),
              Asked(pods, dev, BE).Keys, request, limit, spare, total);
  }

  /** A burstable pod gets its part of what is spare, in proportion to its request among all, up to its
      limit. */
  ghost predicate Gets(l: Bandwidth.Lane, u: Uid, request: real, limit: real, spare: real, total: real) {
    && total != 0.0 && u in l.bt.requests
    && Bandwidth.BtLimits(l)[u] == Bandwidth.Min(Bandwidth.Proportional(request, spare, total), limit)
  }

  lemma PortionOf(l: Bandwidth.Lane, u: Uid, capacity: real, bePool: int, ga: real, used: real, be: set<Uid>,
                  request: real, limit: real, spare: real, total: real)
    requires Consists(l, capacity, bePool, ga, total, used, be) && AsksFor(l, u, request, limit)
    requires spare == Part(capacity, bePool) - ga && spare >= 0.0 && total > 0.0
    ensures Gets(l, u, request, limit, spare, total)
  {
    assert Bandwidth.Spare(l) == spare;
    Bandwidth.BurstableGetPortion(l, u);
  }

  lemma LaneIsSized(rc: ResourceConfig, dev: DevId, table: Table, actual: QoS -> Bandwidth.Workloads,
                    side: Bandwidth.Side)
    requires dev in rc.devices
    ensures var l, capacity := Bandwidth.LaneOf(DiskOf(rc, dev, table, actual), side), CapacityOn(rc, dev, side);
            l.size == capacity && l.size - l.pool == Part(capacity, rc.bePool)
  {
  }

  /** A side of a disk: its capacity and the part for best effort, what guaranteed and burstable pods ask
      for together, what the latter use, and the best-effort pods. */
  ghost predicate Consists(l: Bandwidth.Lane, capacity: real, bePool: int, ga: real, bt: real, used: real, be: set<Uid>)
  {
    && l.size == capacity && l.size - l.pool == Part(capacity, bePool)
    && Bandwidth.Total(l.ga.requests) == ga && Bandwidth.Total(l.bt.requests) == bt
    && Bandwidth.Total(l.bt.actual) == used && l.be.requests.Keys == be
  }

  lemma ConsistsOf(l: Bandwidth.Lane, capacity: real, bePool: int, ga: Bandwidth.Workloads, bt: Bandwidth.Workloads,
                   used: Bandwidth.Workloads, be: Bandwidth.Workloads, side: Bandwidth.Side)
    requires l.size == capacity && l.size - l.pool == Part(capacity, bePool)
    requires l.ga.requests == Bandwidth.On(ga, side) && l.bt.requests == Bandwidth.On(bt, side)
    requires l.bt.actual == Bandwidth.On(used, side) && l.be.requests == Bandwidth.On(be, side)
    ensures Consists(l, capacity, bePool, Bandwidth.Total(Bandwidth.On(ga, side)),
                     Bandwidth.Total(Bandwidth.On(bt, side)), Bandwidth.Total(Bandwidth.On(used, side)), be.Keys)
  {
  }

  lemma LaneConsists(rc: ResourceConfig, dev: DevId, pods: Pods, devices: set<DevId>,
                     actual: QoS -> Bandwidth.Workloads, side: Bandwidth.Side)
    requires dev in rc.devices && dev in devices && Named(pods)
    ensures Consists(LaneFor(rc, dev, pods, devices, actual, side), CapacityOn(rc, dev, side), rc.bePool,
                     TotalAsked(pods, dev, GA, side), TotalAsked(pods, dev, BT, side),
                     Bandwidth.Total(Bandwidth.On(actual(BT), side)), Asked(pods, dev, BE).Keys)
  {
    LaneIsSized(rc, dev, Written(devices, EventsOf(pods)), actual, side);
    LaneGroups(rc, dev, pods, devices, actual, side);
    ConsistsOf(LaneFor(rc, dev, pods, devices, actual, side), CapacityOn(rc, dev, side), rc.bePool,
               Asked(pods, dev, GA), Asked(pods, dev, BT), actual(BT), Asked(pods, dev, BE), side);
  }

  lemma LaneGroups(rc: ResourceConfig, dev: DevId, pods: Pods, devices: set<DevId>,
                   actual: QoS -> Bandwidth.Workloads, side: Bandwidth.Side)
    requires dev in rc.devices && dev in devices && Named(pods)
    ensures var l := LaneFor(rc, dev, pods, devices, actual, side);
            && l.ga.requests == Bandwidth.On(Asked(pods, dev, GA), side)
            && l.bt.requests == Bandwidth.On(Asked(pods, dev, BT), side)
            && l.bt.actual == Bandwidth.On(actual(BT), side)
            && l.be.requests == Bandwidth.On(Asked(pods, dev, BE), side)
  {
    GroupIsAsked(pods, devices, dev, GA, actual(GA));
    GroupIsAsked(pods, devices, dev, BT, actual(BT));
    GroupIsAsked(pods, devices, dev, BE, actual(BE));
  }

  function CapacityOn(rc: ResourceConfig, dev: DevId, side: Bandwidth.Side): real
    requires dev in rc.devices
  {
    match side
    case In => rc.devices[dev].capacityIn
    case Out => rc.devices[dev].capacityOut
  }

  /** Best-effort pods of a list share what guaranteed pods asked for and burstable ones asked for, or
      use if that is more, leave of the disk. */
  lemma BestEffortShareRest(rc: ResourceConfig, dev: DevId, pods: Pods, devices: set<DevId>,
                            actual: QoS -> Bandwidth.Workloads, side: Bandwidth.Side)
    requires dev in rc.devices && dev in devices && Named(pods) && Asked(pods, dev, BE) != map[]
    requires var used := Bandwidth.Total(Bandwidth.On(actual(BT), side));
             CapacityOn(rc, dev, side) >= TotalAsked(pods, dev, GA, side)
                                          + Bandwidth.Max(TotalAsked(pods, dev, BT, side), used)
    ensures var l, used := LaneFor(rc, dev, pods, devices, actual, side),
                           Bandwidth.Total(Bandwidth.On(actual(BT), side));
            && Bandwidth.BeLimits(l).Keys == Asked(pods, dev, BE).Keys
            && Bandwidth.Total(Bandwidth.BeLimits(l)) ==
               CapacityOn(rc, dev, side) - TotalAsked(pods, dev, GA, side)
               - Bandwidth.Max(TotalAsked(pods, dev, BT, side), used)
  {
    LaneConsists(rc, dev, pods, devices, actual, side);
    RestOf(LaneFor(rc, dev, pods, devices, actual, side), CapacityOn(rc, dev, side), rc.bePool,
           TotalAsked(pods, dev, GA, side), TotalAsked(pods, dev, BT, side),
           Bandwidth.Total(Bandwidth.On(actual(BT), side)), Asked(pods, dev, BE).Keys);
  }

  lemma RestOf(l: Bandwidth.Lane, capacity: real, bePool: int, ga: real, bt: real, used: real, be: set<Uid>)
    requires Consists(l, capacity, bePool, ga, bt, used, be)
    requires be != {} && capacity >= ga + Bandwidth.Max(bt, used)
    ensures Bandwidth.BeLimits(l).Keys == be
    ensures Bandwidth.Total(Bandwidth.BeLimits(l)) == capacity - ga - Bandwidth.Max(bt, used)
  {
    Bandwidth.BestEffortSharesRest(l);
  }

  // ---------------------------------------------------------------- rounding

  predicate Close(agent: real, scheduler: real) {
    0.0 <= agent - scheduler < 2.0
  }

  /** The agent takes its part of a capacity in reals. */
  function Part(capacity: real, bePool: int): real {
    capacity - Bandwidth.PoolOf(capacity, bePool)
  }

  /** The scheduler truncates the capacity first and its part of it afterwards. */
  lemma Rounding(capacity: real, bePool: int)
    requires capacity >= 0.0 && 0 <= bePool <= 100
    ensures Close(Part(capacity, bePool), IoTypes.Share(100 - bePool, capacity) as real)
  {
    var p, c := 100 - bePool, capacity.Floor;
    var q := p * c;
    assert q >= 0;
    assert IoTypes.Share(p, capacity) == q / 100;
    assert 100 * (q / 100) <= q < 100 * (q / 100) + 100;
    Scaled(p as real, c as real, capacity, capacity - c as real);
    assert q as real == p as real * c as real;
    Complement(p as real, bePool as real, capacity);
    Quotient(p as real * capacity, q as real, (q / 100) as real);
  }

  /** Both truncations count: of 101.99, of which 99 per cent are for guaranteed pods, the agent has
      100.9701 and the scheduler 99. */
  lemma RoundingAddsUp()
    ensures Part(101.99, 1) == 100.9701 && IoTypes.Share(99, 101.99) == 99
  {
  }

  lemma Quotient(x: real, q: real, k: real)
    requires 0.0 <= x - q < 100.0 && 100.0 * k <= q < 100.0 * k + 100.0
    ensures Close(x / 100.0, k)
  {
  }

  lemma Complement(p: real, b: real, capacity: real)
    requires p + b == 100.0
    ensures capacity - b / 100.0 * capacity == p * capacity / 100.0
  {
    assert p * capacity + b * capacity == 100.0 * capacity;
    assert b / 100.0 * capacity == b * capacity / 100.0;
  }

  lemma Scaled(p: real, c: real, capacity: real, part: real)
    requires 0.0 <= p <= 100.0 && capacity == c + part && 0.0 <= part < 1.0
    ensures 0.0 <= p * capacity - p * c < 100.0
  {
    Product(p, part);
    Product(100.0 - p, part);
    assert p * capacity == p * c + p * part;
    assert (100.0 - p) * part == 100.0 * part - p * part;
  }

  lemma Product(x: real, y: real)
    requires x >= 0.0 && y >= 0.0
    ensures x * y >= 0.0
  {
  }

  // ---------------------------------------------------------------- the bound

  /** When the agent's tables hold the pods of the ledger, its sums are those of the scheduler. */
  lemma TablesCarryLoad(rc: ResourceConfig, dev: DevId, pods: Pods, devices: set<DevId>,
                        actual: QoS -> Bandwidth.Workloads)
    requires dev in rc.devices && dev in devices && CleanPods(pods) && Named(pods)
    ensures var d := DiskOf(rc, dev, Written(devices, EventsOf(pods)), actual);
            && SumOf(d, Bandwidth.In) == DiskCache.Load(dev, pods).rd
            && SumOf(d, Bandwidth.Out) == DiskCache.Load(dev, pods).wr
            && |d.be.requests| == DiskCache.Load(dev, pods).n
  {
    GroupIsAsked(pods, devices, dev, GA, actual(GA));
    GroupIsAsked(pods, devices, dev, BT, actual(BT));
    GroupIsAsked(pods, devices, dev, BE, actual(BE));
    CountedIsLoad(pods, dev);
  }

  ghost function SumOf(d: Bandwidth.Disk, side: Bandwidth.Side): real {
    Bandwidth.Total(Bandwidth.On(d.ga.requests, side)) + Bandwidth.Total(Bandwidth.On(d.bt.requests, side))
  }

  /** What calDiskAllocatable reports for guaranteed pods. */
  ghost function Reported(d: Bandwidth.Disk): Pool {
    Pool(Bandwidth.Allocatable(Bandwidth.LaneOf(d, Bandwidth.In)),
         Bandwidth.Allocatable(Bandwidth.LaneOf(d, Bandwidth.Out)),
         Part(d.total, d.bePool) - SumOf(d, Bandwidth.In) - SumOf(d, Bandwidth.Out), false, 0)
  }

  lemma ReportedIs(d: Bandwidth.Disk)
    ensures Reported(d).rd == Part(d.size.rd, d.bePool) - SumOf(d, Bandwidth.In)
    ensures Reported(d).wr == Part(d.size.wr, d.bePool) - SumOf(d, Bandwidth.Out)
  {
  }

  /** When the agent's tables hold the pods of the ledger, what it reports for a disk exceeds what the
      scheduler rebuilds by less than 2 in each pool, and is never less; and they count the same
      best-effort pods. */
  lemma ReportCloseToRebuilt(rc: ResourceConfig, dev: DevId, pods: Pods, devices: set<DevId>,
                             actual: QoS -> Bandwidth.Workloads)
    requires dev in rc.devices && dev in devices && CleanPods(pods) && Named(pods)
    requires 0 <= rc.bePool <= 100
    requires rc.devices[dev].capacityIn >= 0.0 && rc.devices[dev].capacityOut >= 0.0
    requires rc.devices[dev].capacityTotal >= 0.0
    ensures var d := DiskOf(rc, dev, Written(devices, EventsOf(pods)), actual);
            var ga := DiskCache.FreshGa(rc, dev, pods);
            && Close(Reported(d).rd, ga.rd) && Close(Reported(d).wr, ga.wr) && Close(Reported(d).total, ga.total)
            && |d.be.requests| == DiskCache.Load(dev, pods).n
  {
    var c := rc.devices[dev];
    var d := DiskOf(rc, dev, Written(devices, EventsOf(pods)), actual);
    TablesCarryLoad(rc, dev, pods, devices, actual);
    PoolsClose(rc, dev, pods, d);
  }

  lemma PoolsClose(rc: ResourceConfig, dev: DevId, pods: Pods, d: Bandwidth.Disk)
    requires dev in rc.devices && 0 <= rc.bePool <= 100 && d.bePool == rc.bePool
    requires rc.devices[dev].capacityIn >= 0.0 && rc.devices[dev].capacityOut >= 0.0
    requires rc.devices[dev].capacityTotal >= 0.0
    requires d.size == Bandwidth.Bw(rc.devices[dev].capacityIn, rc.devices[dev].capacityOut)
    requires d.total == rc.devices[dev].capacityTotal
    requires SumOf(d, Bandwidth.In) == DiskCache.Load(dev, pods).rd
    requires SumOf(d, Bandwidth.Out) == DiskCache.Load(dev, pods).wr
    ensures var ga := DiskCache.FreshGa(rc, dev, pods);
            Close(Reported(d).rd, ga.rd) && Close(Reported(d).wr, ga.wr) && Close(Reported(d).total, ga.total)
  {
    var c, held := rc.devices[dev], DiskCache.Load(dev, pods);
    ReportedIs(d);
    LessHeld(c.capacityIn, rc.bePool, held.rd);
    LessHeld(c.capacityOut, rc.bePool, held.wr);
    LessHeld(c.capacityTotal, rc.bePool, held.rd + held.wr);
  }

  lemma LessHeld(capacity: real, bePool: int, held: real)
    requires capacity >= 0.0 && 0 <= bePool <= 100
    ensures Close(Part(capacity, bePool) - held, IoTypes.Share(100 - bePool, capacity) as real - held)
  {
    Rounding(capacity, bePool);
  }

  /** Taking pods out of the tables leaves the tables of the other pods. */
  lemma WithoutIsWritten(devices: set<DevId>, pods: Pods, gone: set<Uid>)
    ensures Without(Written(devices, EventsOf(pods)), gone) == Written(devices, EventsOf(pods - gone))
  {
    forall k: (DevId, Uid)
      ensures EventLess(EventsOf(pods), EventsOf(pods - gone), gone, k)
    {
      EventWithout(pods, gone, k);
    }
    WrittenLess(devices, EventsOf(pods), EventsOf(pods - gone), gone);
  }

  predicate EventLess(events: Events, rest: Events, gone: set<Uid>, k: (DevId, Uid)) {
    (k in rest <==> k in events && k.1 !in gone) && (k in rest ==> rest[k] == events[k])
  }

  lemma WrittenLess(devices: set<DevId>, events: Events, rest: Events, gone: set<Uid>)
    requires forall k: (DevId, Uid) :: EventLess(events, rest, gone, k)
    ensures Without(Written(devices, events), gone) == Written(devices, rest)
  {
    var x, y := Without(Written(devices, events), gone), Written(devices, rest);
    forall s: Slot
      ensures s in x <==> s in y
      ensures s in x && s in y ==> x[s] == y[s]
    {
      assert EventLess(events, rest, gone, (s.dev, s.uid));
      WrittenAt(devices, events, s);
      WrittenAt(devices, rest, s);
    }
  }

  lemma EventWithout(pods: Pods, gone: set<Uid>, k: (DevId, Uid))
    ensures EventLess(EventsOf(pods), EventsOf(pods - gone), gone, k)
  {
    EventsOfAre(pods);
    EventsOfAre(pods - gone);
    assert HasEvent(pods - gone, k) <==> HasEvent(pods, k) && k.1 !in gone;
  }

  /** So it stays, over any number of delta lists, on an agent that started with empty tables: the
      report is close to what the scheduler rebuilds from the last list's pods, less those that were
      unregistered since that list. */
  lemma DeltasKeepReportClose(rc: ResourceConfig, dev: DevId, devices: set<DevId>, rounds: seq<Round>, store: Pods,
                              actual: QoS -> Bandwidth.Workloads)
    requires rounds != [] && Stable(rounds) && forall i | 0 <= i < |rounds| :: AllDetailed(rounds[i])
    requires var pods := Wanted(rounds[|rounds| - 1]); CleanPods(pods) && Named(pods)
    requires dev in rc.devices && dev in devices && 0 <= rc.bePool <= 100
    requires rc.devices[dev].capacityIn >= 0.0 && rc.devices[dev].capacityOut >= 0.0
    requires rc.devices[dev].capacityTotal >= 0.0
    ensures var table := DeltaRun(AgentState(store, map[]), devices, rounds).table;
            var d := DiskOf(rc, dev, table, actual);
            var last := rounds[|rounds| - 1];
            var ga := DiskCache.FreshGa(rc, dev, Wanted(last) - last.gone);
            Close(Reported(d).rd, ga.rd) && Close(Reported(d).wr, ga.wr) && Close(Reported(d).total, ga.total)
  {
    DeltaListsExact(AgentState(store, map[]), devices, rounds);
    var last := rounds[|rounds| - 1];
    WithoutIsWritten(devices, Wanted(last), last.gone);
    ReportCloseToRebuilt(rc, dev, Wanted(last) - last.gone, devices, actual);
  }
}
